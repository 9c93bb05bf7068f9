/** Short runs that show the side conditions of Runs, Removal and Shutdown are needed. */
module Witnesses {
  import opened Wrappers
  import opened Protocol
  import opened Scheduler
  import opened Invariant
  import opened Removal
  import opened Shutdown
  import opened Runs

  const A := Key("source", "a")
  const B := Key("source", "b")
  const AUTO_START := Flags(true, false)

  /** Cancel an idle queue, then give it work: it is scheduled with its cancelled flag still set. */
  const STALE_OPS: seq<Op> := [OpAddQueue(A, AUTO_START, ServiceTasks), OpCancel(A), OpAddTask(A, 0)]
  const STALE := AddTask(Cancel(AddQueue(INITIAL, A, AUTO_START, ServiceTasks), A), A, 0)

  lemma StaleIsReached()
    ensures Run(INITIAL, STALE_OPS) == Done(STALE)
    ensures Live(STALE, A) && Lookup(STALE, A).cancelled && Lookup(STALE, A).tasks == [0] && Lookup(STALE, A).idle == 1
    ensures STALE.sources == map[1 := 0] && STALE.table == map[A := 0] && |STALE.store| == 1
  {
    var s1 := AddQueue(INITIAL, A, AUTO_START, ServiceTasks);
    var s2 := Cancel(s1, A);
    assert STALE_OPS[1..] == [OpCancel(A), OpAddTask(A, 0)];
    assert STALE_OPS[1..][1..] == [OpAddTask(A, 0)];
    assert Run(s2, [OpAddTask(A, 0)]) == Done(STALE);
    assert Run(s1, STALE_OPS[1..]) == Done(STALE);
  }

  /** A second cancel of that queue does nothing, and a removal leaves a source that crashes when dispatched. */
  lemma StaleFlagOrphansSource()
    ensures var s := Cancel(STALE, A); Live(s, A) && Lookup(s, A).tasks == [0] && s.sources == STALE.sources
    ensures Legal(STALE, OpRemove(BySource("source"), [A])) && !Clean(STALE, OpRemove(BySource("source"), [A]))
    ensures var s := RemoveQueues(STALE, BySource("source"), [A]);
            s.table == map[] && 1 in s.sources && Dispatch(s, 1) == None
  {
    StaleIsReached();
  }

  /** One queue whose first task has been started, its action not yet returned. */
  const STARTED_OPS: seq<Op> := [OpAddQueue(A, AUTO_START, ServiceTasks), OpAddTask(A, 0), OpDispatch(1)]
  const STARTED_QUEUE :=
    QueueState(A, AUTO_START, ServiceTasks, [], Running(0, Starting), 0, false, false, false, false,
               [Added(0), Started(0)])
  const JUST_STARTED := ProcessorState([STARTED_QUEUE], map[A := 0], 1, false, map[], 2, 0, map[0 := 0])

  lemma JustStartedIsReached()
    ensures Run(INITIAL, STARTED_OPS) == Done(JUST_STARTED)
  {
    var s1 := AddQueue(INITIAL, A, AUTO_START, ServiceTasks);
    var s2 := AddTask(s1, A, 0);
    assert s2.store[0].tasks == [0] && s2.store[0].log == [Added(0)];
    assert s2.store == [STARTED_QUEUE.(tasks := [0], current := Idle, idle := 1, log := [Added(0)])];
    assert s2.sources == map[1 := 0] && s2.sources - {1} == map[] && s2.owner == map[0 := 0];
    assert TakeHead(s2.store[0]).tasks == [] && TakeHead(s2.store[0]).log == STARTED_QUEUE.log;
    assert Dispatch(s2, 1).Some? && Dispatch(s2, 1).value.store == JUST_STARTED.store;
    assert STARTED_OPS[1..] == [OpAddTask(A, 0), OpDispatch(1)];
    assert STARTED_OPS[1..][1..] == [OpDispatch(1)];
    assert Run(s2, [OpDispatch(1)]) == Done(JUST_STARTED);
    assert Run(s1, STARTED_OPS[1..]) == Done(JUST_STARTED);
  }

  /** Quitting then frees the queue under its task: no quit callback is scheduled, and completion finds no queue. */
  lemma QuitUnderStartingTask()
    ensures Enumerates([A], JUST_STARTED.table) && !Quiescent(JUST_STARTED)
    ensures var f := SetQuitting(JUST_STARTED, [A]);
            && f.running == 1 && f.quits == 0 && !Live(f, A) && |f.store| == 1
            && f.store[0].freed && f.store[0].current == Running(0, Starting)
  {
    var s := QuitFlagged(JUST_STARTED);
    assert [A][1..] == [];
    assert CancelAll(s, [A]) == Cancel(s, A);
    assert Lookup(JUST_STARTED, A) == JUST_STARTED.store[0];
  }

  /** A waits for a reply, B is scheduled. */
  const WAITING_OPS: seq<Op> :=
    [OpActionReturns(A, true, false), OpAddQueue(B, AUTO_START, ServiceTasks), OpAddTask(B, 1)]
  const WAITING_QUEUE := STARTED_QUEUE.(current := Running(0, Waiting))
  const SCHEDULED_QUEUE :=
    QueueState(B, AUTO_START, ServiceTasks, [1], Idle, 2, false, false, false, false, [Added(1)])
  const ONE_WAITS := ProcessorState([WAITING_QUEUE, SCHEDULED_QUEUE], map[A := 0, B := 1], 1, false, map[2 := 1], 3, 0,
                                   map[0 := 0, 1 := 1])

  lemma OneWaitsIsReached()
    ensures Run(JUST_STARTED, WAITING_OPS) == Done(ONE_WAITS)
  {
    var s1 := ActionReturns(JUST_STARTED, A, true, false);
    var s2 := AddQueue(s1, B, AUTO_START, ServiceTasks);
    assert s1.store == [WAITING_QUEUE] && s2.table == map[A := 0, B := 1];
    var s3 := AddTask(s2, B, 1);
    assert s3.store[1].tasks == [1] && s3.store[1].log == [Added(1)];
    assert s3.store == ONE_WAITS.store;
    assert WAITING_OPS[1..] == [OpAddQueue(B, AUTO_START, ServiceTasks), OpAddTask(B, 1)];
    assert WAITING_OPS[1..][1..] == [OpAddTask(B, 1)];
    assert Run(s2, [OpAddTask(B, 1)]) == Done(ONE_WAITS);
    assert Run(s1, WAITING_OPS[1..]) == Done(ONE_WAITS);
  }

  lemma OneWaitsHolds()
    ensures Inv(ONE_WAITS) && !ONE_WAITS.quitting && Quiescent(ONE_WAITS)
  {
    hide Inv;
    InitialHolds();
    JustStartedIsReached();
    RunsAreSafe(INITIAL, STARTED_OPS);
    OneWaitsIsReached();
    RunsAreSafe(JUST_STARTED, WAITING_OPS);
  }

  lemma OnlyAWaits()
    ensures var s := QuitFlagged(ONE_WAITS); !Reached(s, [A, B], B) && Reached(s, [B, A], B)
  {
    var s := QuitFlagged(ONE_WAITS);
    assert WaitsAt(s, A) && !WaitsAt(s, B);
    OneStuckFree();
    assert [B, A][1] == A && [B, A][0] == B;
    assert WaiterFrom(s, [B, A], 0);
    assert !WaiterFrom(s, [A, B], 1);
  }

  lemma OneStuckFree()
    ensures EndsEarly(QuitFlagged(ONE_WAITS))
  {
    OneWaitsHolds();
    StuckMeansNotQuiescent(ONE_WAITS);
  }

  /** Quitting at that quiescent point leaves B's source behind in one visiting order, and not in the other. */
  lemma QuitDependsOnOrder()
    ensures Enumerates([A, B], ONE_WAITS.table) && !Agrees(SetQuitting(ONE_WAITS, [A, B]))
    ensures Enumerates([B, A], ONE_WAITS.table) && Agrees(SetQuitting(ONE_WAITS, [B, A]))
  {
    hide Inv, Agrees, SetQuitting, Reached;
    OneWaitsHolds();
    OnlyAWaits();
    AgreesAfter([A, B]);
    AgreesAfter([B, A]);
  }

  lemma AgreesAfter(order: seq<Key>)
    requires Enumerates(order, ONE_WAITS.table)
    ensures Agrees(SetQuitting(ONE_WAITS, order)) <==> Reached(QuitFlagged(ONE_WAITS), order, B)
  {
    hide Inv, Agrees, SetQuitting, Reached;
    OneWaitsHolds();
    ShutdownLeavesSourcesIff(ONE_WAITS, order);
    var s := QuitFlagged(ONE_WAITS);
    assert forall reached :: !Abandoned(ONE_WAITS.store[0], reached);
    assert Abandoned(ONE_WAITS.store[1], Reached(s, order, ONE_WAITS.store[1].key)) <==> !Reached(s, order, B);
  }

  /** A chain driven by queue_start is cancelled and given a task while its first action runs. */
  const CHAIN := Flags(false, true)
  const CHAIN_OPS: seq<Op> := [OpAddQueue(A, CHAIN, ServiceTasks), OpAddTask(A, 0), OpStart(A)]
  const REFILL_OPS: seq<Op> := [OpDispatch(1), OpCancel(A), OpAddTask(A, 1)]
  const CHAIN_QUEUE := QueueState(A, CHAIN, ServiceTasks, [0], Idle, 1, false, false, false, false, [Added(0)])
  const CHAINED := ProcessorState([CHAIN_QUEUE], map[A := 0], 0, false, map[1 := 0], 2, 0, map[0 := 0])
  const REFILLED_QUEUE :=
    CHAIN_QUEUE.(tasks := [1], current := Running(0, Starting), idle := 0, cancelled := true,
                 log := [Added(0), Started(0), CancelCall, CancelCb(0), Added(1)])
  const REFILLED := ProcessorState([REFILLED_QUEUE], map[A := 0], 1, false, map[], 2, 0, map[0 := 0, 1 := 0])

  lemma ChainedIsReached()
    ensures Run(INITIAL, CHAIN_OPS) == Done(CHAINED)
  {
    var s1 := AddQueue(INITIAL, A, CHAIN, ServiceTasks);
    var s2 := AddTask(s1, A, 0);
    assert s2.store[0].tasks == [0] && s2.store[0].log == [Added(0)];
    assert Start(s2, A).store == CHAINED.store;
    assert CHAIN_OPS[1..] == [OpAddTask(A, 0), OpStart(A)];
    assert CHAIN_OPS[1..][1..] == [OpStart(A)];
    assert Run(s2, [OpStart(A)]) == Done(CHAINED);
    assert Run(s1, CHAIN_OPS[1..]) == Done(CHAINED);
  }

  const CHAIN_STARTED :=
    CHAINED.(store := [CHAIN_QUEUE.(tasks := [], current := Running(0, Starting), idle := 0,
                                    log := [Added(0), Started(0)])],
             running := 1, sources := map[])

  lemma ChainStarts()
    ensures Dispatch(CHAINED, 1) == Some(CHAIN_STARTED)
  {
    var q1 := TakeHead(CHAIN_QUEUE);
    assert q1.tasks == [] && q1.log == [Added(0), Started(0)];
    assert CHAINED.sources - {1} == map[];
    assert CHAINED.store[0 := q1] == CHAIN_STARTED.store;
  }

  lemma ChainIsRefilled()
    ensures AddTask(Cancel(CHAIN_STARTED, A), A, 1) == REFILLED
  {
    var s2 := Cancel(CHAIN_STARTED, A);
    assert s2.store[0].log == [Added(0), Started(0), CancelCall, CancelCb(0)];
    var s3 := AddTask(s2, A, 1);
    assert s3.store[0].tasks == [1] && s3.store[0].log == REFILLED_QUEUE.log;
    assert s3.store == REFILLED.store;
  }

  lemma RefilledIsReached()
    ensures Run(CHAINED, REFILL_OPS) == Done(REFILLED)
  {
    ChainStarts();
    ChainIsRefilled();
    hide Dispatch, AddTask;
    assert REFILL_OPS[1..] == [OpCancel(A), OpAddTask(A, 1)];
    assert REFILL_OPS[1..][1..] == [OpAddTask(A, 1)];
    assert Run(Cancel(CHAIN_STARTED, A), [OpAddTask(A, 1)]) == Done(REFILLED);
    assert Run(CHAIN_STARTED, REFILL_OPS[1..]) == Done(REFILLED);
  }

  /** When that action fails its chain goes on all the same, and the next task is started. */
  lemma FailureDoesNotEndChain()
    ensures Legal(REFILLED, OpActionReturns(A, false, true))
    ensures var f := ActionReturns(REFILLED, A, false, true);
            && Live(f, A) && Lookup(f, A).tasks == [1] && 2 in f.sources
            && Dispatch(f, 2).Some? && Lookup(Dispatch(f, 2).value, A).current == Running(1, Starting)
  {
  }

  /** A queue added after the shutdown: its task runs, and when it ends the quit callback is scheduled again. */
  const QUIT := INITIAL.(quitting := true, quits := 1)
  const LATE_STARTED := JUST_STARTED.(quitting := true, quits := 1)

  lemma LateStartedIsReached()
    ensures SetQuitting(INITIAL, []) == QUIT && Run(QUIT, STARTED_OPS) == Done(LATE_STARTED)
  {
    var s1 := AddQueue(QUIT, A, AUTO_START, ServiceTasks);
    var s2 := AddTask(s1, A, 0);
    assert s2.store[0].tasks == [0] && s2.store[0].log == [Added(0)];
    assert s2.store == [STARTED_QUEUE.(tasks := [0], current := Idle, idle := 1, log := [Added(0)])];
    assert s2.sources == map[1 := 0] && s2.sources - {1} == map[] && s2.owner == map[0 := 0];
    assert TakeHead(s2.store[0]).tasks == [] && TakeHead(s2.store[0]).log == STARTED_QUEUE.log;
    assert Dispatch(s2, 1).Some? && Dispatch(s2, 1).value.store == LATE_STARTED.store;
    assert STARTED_OPS[1..] == [OpAddTask(A, 0), OpDispatch(1)];
    assert STARTED_OPS[1..][1..] == [OpDispatch(1)];
    assert Run(s2, [OpDispatch(1)]) == Done(LATE_STARTED);
    assert Run(s1, STARTED_OPS[1..]) == Done(LATE_STARTED);
  }

  lemma QuitScheduledTwice()
    ensures Enumerates([], INITIAL.table) && Quiescent(INITIAL)
    ensures var p := Run(SetQuitting(INITIAL, []), STARTED_OPS + [OpActionReturns(A, false, false)]);
            p.Done? && p.state.quits == 2
  {
    LateStartedIsReached();
    RunConcat(QUIT, STARTED_OPS, [OpActionReturns(A, false, false)]);
    assert Run(LATE_STARTED, [OpActionReturns(A, false, false)])
        == Done(ActionReturns(LATE_STARTED, A, false, false));
  }
}
