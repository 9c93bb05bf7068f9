/** How queues evolve along a run: histories only grow, deferred queues start nothing, work runs out. */
module Progress {
  import opened Protocol
  import opened Sums
  import opened Scheduler
  import opened Invariant
  import opened Removal
  import opened Histories
  import opened Runs

  // ---------------------------------------------------------------------
  // One queue, before and after
  // ---------------------------------------------------------------------

  /** q2 is q1 at some later time. */
  ghost predicate Later(q1: QueueState, q2: QueueState) {
    && q2.key == q1.key && q2.flags == q1.flags && q2.client == q1.client
    && q1.log <= q2.log
    && (q1.freed ==> q2 == q1)
    // a queue whose removal is deferred keeps its current task, then goes; it starts nothing
    && (!q1.freed && q1.deferRemove ==>
          && Tasks(q2.log, Starts) == Tasks(q1.log, Starts)
          && (q2.freed || (q2.deferRemove && CurrentTask(q2) == CurrentTask(q1))))
  }

  /** What is left to do in a queue: dispatch and completion of each pending task, completion of the current one. */
  function Load(q: QueueState): nat {
    if q.freed then 0 else 2 * |q.tasks| + |CurrentTask(q)|
  }

  lemma LaterTransitive(q1: QueueState, q2: QueueState, q3: QueueState)
    requires Later(q1, q2) && Later(q2, q3)
    ensures Later(q1, q3)
  {
    PrefixTransitive(q1.log, q2.log, q3.log);
  }

  lemma PrefixTransitive<T>(a: seq<T>, b: seq<T>, c: seq<T>)
    requires a <= b && b <= c
    ensures a <= c
  {
  }

  lemma StartsAreBooked(q: QueueState)
    requires LogAgrees(q)
    ensures Tasks(q.log, Starts) == Books(q).started
  {
    BooksMatchLog(q.log);
  }

  lemma EnqueueIsLater(q: QueueState, t: Task)
    requires LogAgrees(q) && !q.freed && t !in Tasks(q.log, Adds)
    ensures LogAgrees(Enqueue(q, t)) && Later(q, Enqueue(q, t))
  {
    EnqueueAgrees(q, t);
    StartsAreBooked(q);
    StartsAreBooked(Enqueue(q, t));
  }

  lemma TakeHeadIsLater(q: QueueState)
    requires LogAgrees(q) && !q.freed && q.current.Idle? && q.tasks != [] && !q.deferRemove
    ensures LogAgrees(TakeHead(q)) && Later(q, TakeHead(q)) && Load(TakeHead(q)) + 1 == Load(q)
  {
    TakeHeadAgrees(q);
  }

  /** A queue after its current task completed, outside shutdown. */
  function CompletedQueue(q: QueueState, source: nat): QueueState {
    var e := EndCurrent(q);
    if e.deferRemove then FreeQueue(e)
    else if e.tasks != [] then e.(idle := source)
    else if e.flags.autoRemove then FreeQueue(e)
    else e
  }

  lemma FreeQueueIsLater(q: QueueState)
    requires LogAgrees(q) && !q.freed && q.current.Idle?
    ensures LogAgrees(FreeQueue(q)) && Later(q, FreeQueue(q)) && Load(FreeQueue(q)) == 0
  {
    FreeQueueAgrees(q);
    StartsAreBooked(q);
    StartsAreBooked(FreeQueue(q));
    assert q.log + DeleteLog(q.tasks) <= FreeQueue(q).log;
  }

  lemma CompletedIsLater(q: QueueState, source: nat)
    requires LogAgrees(q) && !q.freed && q.current.Running?
    ensures LogAgrees(CompletedQueue(q, source))
    ensures Later(q, CompletedQueue(q, source)) && Load(CompletedQueue(q, source)) < Load(q)
  {
    var e := EndCurrent(q);
    EndCurrentAgrees(q);
    FreeQueueAgrees(e);
    StartsAreBooked(q);
    StartsAreBooked(FreeQueue(e));
    assert e.log <= FreeQueue(e).log by {
      FreeQueueIsLater(e);
    }
    assert q.log + [Completed(q.current.task)] <= e.log;
    PrefixTransitive(q.log, e.log, FreeQueue(e).log);
  }

  lemma CutIsLonger(q: QueueState)
    ensures q.log <= Cut(q).log
  {
    assert q.log + [CancelCall] <= q.log + [CancelCall] + FlushLog(q.tasks) <= Cut(q).log;
  }

  lemma CancelledIsLater(q: QueueState)
    requires LogAgrees(q) && !q.freed
    requires q.deferRemove ==> q.cancelled
    ensures LogAgrees(CancelledQueue(q)) && Later(q, CancelledQueue(q)) && Load(CancelledQueue(q)) <= Load(q)
  {
    if q.cancelled {
      CancelCallAgrees(q);
      StartsAreBooked(q);
      StartsAreBooked(CancelledQueue(q));
    } else {
      CutAgrees(q);
      CutIsLonger(q);
      if IsWaiting(q) {
        EndCurrentAgrees(Cut(q));
        assert Cut(q).log + [Completed(q.current.task)] <= EndCurrent(Cut(q)).log;
      }
    }
  }

  lemma SweptIsLater(q: QueueState, sel: Selector)
    requires LogAgrees(q) && Shaped(q)
    ensures Later(q, SweptQueue(sel, q)) && Load(SweptQueue(sel, q)) <= Load(q)
  {
    if Chosen(sel, q) {
      var q1 := q.(deferRemove := q.current.Running?);
      var q2 := q1.(deferRemove := false);
      CancelledIsLater(q2);
      assert CancelledQueue(q1) == CancelledQueue(q2).(deferRemove := q1.deferRemove);
      if CancelledQueue(q1).current.Idle? {
        FreeQueueIsLater(CancelledQueue(q1));
      }
    }
  }

  // ---------------------------------------------------------------------
  // One step
  // ---------------------------------------------------------------------

  /** Queue u has moved on, using up at least spent of its load; the other queues are as they were. */
  ghost predicate OneMoved(s: ProcessorState, s1: ProcessorState, u: nat, spent: nat) {
    && u < |s.store| == |s1.store|
    && s1.store == s.store[u := s1.store[u]]
    && Later(s.store[u], s1.store[u])
    && Load(s1.store[u]) + spent <= Load(s.store[u])
  }

  lemma TaskCompletedClosed(s: ProcessorState, k: Key)
    requires Live(s, k) && !s.quitting
    ensures TaskCompleted(s, k).store == s.store[s.table[k] := CompletedQueue(Lookup(s, k), s.nextSource)]
  {
    var u, q := s.table[k], Lookup(s, k);
    UpdateTwice(s.store, u, EndCurrent(q), CompletedQueue(q, s.nextSource));
  }

  lemma CompletionMoves(s: ProcessorState, k: Key)
    requires Core(s) && Live(s, k) && !s.quitting && Lookup(s, k).current.Running?
    ensures OneMoved(s, TaskCompleted(s, k), s.table[k], 1)
  {
    assert LogAgrees(Lookup(s, k));
    TaskCompletedClosed(s, k);
    CompletedIsLater(Lookup(s, k), s.nextSource);
  }

  lemma CancelMoves(s: ProcessorState, k: Key)
    requires Core(s) && Live(s, k) && !s.quitting
    ensures OneMoved(s, Cancel(s, k), s.table[k], 0)
  {
    var q := Lookup(s, k);
    assert LogAgrees(q) && Shaped(q);
    CancelClosed(s, k);
    CancelledIsLater(q);
    if CancelFrees(q) {
      FreeQueueIsLater(CancelledQueue(q));
      LaterTransitive(q, CancelledQueue(q), FreeQueue(CancelledQueue(q)));
    }
  }

  lemma StartMoves(s: ProcessorState, k: Key)
    requires Core(s) && Legal(s, OpStart(k))
    ensures OneMoved(s, Start(s, k), s.table[k], 0)
  {
    var q := Lookup(s, k);
    assert LogAgrees(q);
    if q.current.Idle? {
      FreeQueueIsLater(q);
    }
  }

  lemma DispatchMoves(s: ProcessorState, sid: nat)
    requires Inv(s) && sid in s.sources
    ensures Dispatch(s, sid).Some? && OneMoved(s, Dispatch(s, sid).value, s.sources[sid], 1)
  {
    var u := s.sources[sid];
    var q := s.store[u];
    DispatchIsSafe(s, sid);
    assert LogAgrees(q) && Shaped(q);
    TakeHeadIsLater(q);
  }

  /** The store after a failed action: the queue is cancelled, and then its task completes. */
  lemma FailedActionClosed(s: ProcessorState, k: Key)
    requires TableAgrees(s.store, s.table) && !s.quitting && Live(s, k)
    requires Lookup(s, k).current.Running? && Lookup(s, k).current.phase == Starting
    ensures ActionReturns(s, k, false, true).store
            == s.store[s.table[k] := CompletedQueue(CancelledQueue(Lookup(s, k)), s.nextSource)]
    ensures Live(Cancel(s, k), k) && Cancel(s, k).table == s.table
  {
    var u, q := s.table[k], Lookup(s, k);
    assert Put(s, k, SetPhase(q, Starting)) == s by {
      assert s.store[u := q] == s.store;
    }
    CancelClosed(s, k);
    TaskCompletedClosed(Cancel(s, k), k);
    UpdateTwice(s.store, u, CancelledQueue(q), CompletedQueue(CancelledQueue(q), s.nextSource));
  }

  lemma ActionReturnsMoves(s: ProcessorState, k: Key, hasAction: bool, failed: bool)
    requires Core(s) && Legal(s, OpActionReturns(k, hasAction, failed)) && !s.quitting
    ensures OneMoved(s, ActionReturns(s, k, hasAction, failed), s.table[k], if hasAction then 0 else 1)
  {
    var u, q := s.table[k], Lookup(s, k);
    assert LogAgrees(q) && Shaped(q);
    if failed {
      FailedActionClosed(s, k);
      CancelledIsLater(q);
      CompletedIsLater(CancelledQueue(q), s.nextSource);
      LaterTransitive(q, CancelledQueue(q), CompletedQueue(CancelledQueue(q), s.nextSource));
    } else if !hasAction {
      assert s.store[u := SetPhase(q, Starting)] == s.store;
      CompletionMoves(s, k);
    }
  }

  /** How much load an operation is bound to use up. */
  function Spent(op: Op): nat {
    if op.OpDispatch? || op.OpReplyEnds? || op.OpPlainCompleted? || (op.OpActionReturns? && !op.hasAction) then 1 else 0
  }

  lemma StepMovesOne(s: ProcessorState, op: Op) returns (u: nat)
    requires Inv(s) && Legal(s, op) && !s.quitting
    requires !op.OpAddQueue? && !op.OpAddTask? && !op.OpRemove?
    ensures Step(s, op).Some? && OneMoved(s, Step(s, op).value, u, Spent(op))
  {
    hide Core, Agrees, OneMoved;
    match op
    case OpSetFinally(k, present) =>
      u := s.table[k];
      TrivialMoves(s, k, Lookup(s, k).(hasFinally := present));
    case OpStart(k) =>
      u := s.table[k];
      StartMoves(s, k);
    case OpDispatch(sid) =>
      u := s.sources[sid];
      DispatchMoves(s, sid);
    case OpActionReturns(k, hasAction, failed) =>
      u := s.table[k];
      ActionReturnsMoves(s, k, hasAction, failed);
    case OpReplyBegins(k) =>
      u := s.table[k];
      TrivialMoves(s, k, SetPhase(Lookup(s, k), Replying));
    case OpReplyEnds(k) =>
      u := s.table[k];
      CompletionMoves(s, k);
    case OpPlainCompleted(k) =>
      u := s.table[k];
      CompletionMoves(s, k);
    case OpCancel(k) =>
      u := s.table[k];
      CancelMoves(s, k);
  }

  lemma TrivialMoves(s: ProcessorState, k: Key, q: QueueState)
    requires Core(s) && Live(s, k)
    requires var p := Lookup(s, k);
             q == p.(hasFinally := q.hasFinally) || (p.current.Running? && q.current.Running?
               && q == p.(current := q.current) && q.current.task == p.current.task)
    ensures OneMoved(s, Put(s, k, q), s.table[k], 0)
  {
  }

  // ---------------------------------------------------------------------
  // Every step
  // ---------------------------------------------------------------------

  ghost predicate Evolves(s: ProcessorState, s1: ProcessorState) {
    && |s.store| <= |s1.store|
    && forall u {:trigger Later(s.store[u], s1.store[u])} | 0 <= u < |s.store| :: Later(s.store[u], s1.store[u])
  }

  function Loads(store: seq<QueueState>): seq<nat> {
    seq(|store|, i requires 0 <= i < |store| => Load(store[i]))
  }

  /** The work left: two units for each pending task of a live queue, one for each current task. */
  function Work(s: ProcessorState): nat {
    Total(Loads(s.store))
  }

  lemma OneMovedEvolves(s: ProcessorState, s1: ProcessorState, u: nat, spent: nat)
    requires OneMoved(s, s1, u, spent)
    ensures Evolves(s, s1) && Work(s1) + spent <= Work(s)
  {
    TotalUpdate(Loads(s.store), u, Load(s1.store[u]));
    assert Loads(s1.store) == Loads(s.store)[u := Load(s1.store[u])];
  }

  lemma StepEvolves(s: ProcessorState, op: Op)
    requires Inv(s) && Legal(s, op) && !s.quitting
    ensures Step(s, op).Some? && Evolves(s, Step(s, op).value)
    ensures !op.OpAddTask? ==> Work(Step(s, op).value) + Spent(op) <= Work(s)
  {
    hide Evolves, Work, Inv;
    match op
    case OpAddQueue(k, flags, client) => AddQueueEvolves(s, k, flags, client);
    case OpAddTask(k, t) => AddTaskEvolves(s, k, t);
    case OpRemove(sel, order) => RemovalEvolves(s, sel, order);
    case _ =>
      var u := StepMovesOne(s, op);
      OneMovedEvolves(s, Step(s, op).value, u, Spent(op));
  }

  lemma AddQueueEvolves(s: ProcessorState, k: Key, flags: Flags, client: Client)
    requires Inv(s)
    ensures Evolves(s, AddQueue(s, k, flags, client)) && Work(AddQueue(s, k, flags, client)) == Work(s)
  {
    var s1 := AddQueue(s, k, flags, client);
    assert Loads(s1.store) == Loads(s.store) + [0];
    TotalAppend(Loads(s.store), 0);
  }

  lemma AddTaskClosed(s: ProcessorState, k: Key, t: Task) returns (idle: nat)
    requires Live(s, k)
    ensures AddTask(s, k, t).store == s.store[s.table[k] := Enqueue(Lookup(s, k), t).(idle := idle)]
  {
    var u, q := s.table[k], Lookup(s, k);
    idle := if AddTask(s, k, t) == Append(s, k, t) then q.idle else s.nextSource;
    UpdateTwice(s.store, u, Enqueue(q, t), Enqueue(q, t).(idle := s.nextSource));
  }

  lemma AddTaskEvolves(s: ProcessorState, k: Key, t: Task)
    requires Inv(s) && Legal(s, OpAddTask(k, t))
    ensures Evolves(s, AddTask(s, k, t))
  {
    hide AddTask;
    var u, q := s.table[k], Lookup(s, k);
    assert LogAgrees(q) && OwnsExactly(q, s.owner, u);
    EnqueueIsLater(q, t);
    var idle := AddTaskClosed(s, k, t);
    assert Later(q, Enqueue(q, t).(idle := idle));
  }

  lemma RemovalEvolves(s: ProcessorState, sel: Selector, order: seq<Key>)
    requires Inv(s) && !s.quitting && Enumerates(order, s.table)
    ensures var f := RemoveQueues(s, sel, order); Evolves(s, f) && Work(f) <= Work(s)
  {
    hide RemoveQueues;
    RemovalClosedForm(s, sel, order);
    forall u | 0 <= u < |s.store|
      ensures Later(s.store[u], SweptQueue(sel, s.store[u])) && Load(SweptQueue(sel, s.store[u])) <= Load(s.store[u])
    {
      assert LogAgrees(s.store[u]) && Shaped(s.store[u]);
      SweptIsLater(s.store[u], sel);
    }
    TotalMonotone(Loads(RemoveQueues(s, sel, order).store), Loads(s.store));
  }

  // ---------------------------------------------------------------------
  // Runs
  // ---------------------------------------------------------------------

  lemma EvolvesTransitive(s1: ProcessorState, s2: ProcessorState, s3: ProcessorState)
    requires Evolves(s1, s2) && Evolves(s2, s3)
    ensures Evolves(s1, s3)
  {
    forall u | 0 <= u < |s1.store|
      ensures Later(s1.store[u], s3.store[u])
    {
      assert Later(s1.store[u], s2.store[u]) && Later(s2.store[u], s3.store[u]);
      LaterTransitive(s1.store[u], s2.store[u], s3.store[u]);
    }
  }

  lemma {:induction false} RunEvolves(s: ProcessorState, ops: seq<Op>)
    requires Inv(s) && !s.quitting && Run(s, ops).Done?
    ensures Evolves(s, Run(s, ops).state)
    decreases |ops|
  {
    hide Inv, Step;
    if ops != [] {
      hide Evolves;
      var s1 := Step(s, ops[0]).value;
      StepKeepsInvIff(s, ops[0]);
      StepEvolves(s, ops[0]);
      RunEvolves(s1, ops[1..]);
      EvolvesTransitive(s, s1, Run(s1, ops[1..]).state);
    }
  }

  /**
   Deferred removal, over any run: until the queue is gone its current task stays current
   and nothing else is started, whatever is added or started; when it goes, every task it
   was ever given has been deleted.
   */
  lemma DeferredStartsNothing(s: ProcessorState, ops: seq<Op>, u: nat)
    requires Inv(s) && !s.quitting && Run(s, ops).Done?
    requires u < |s.store| && !s.store[u].freed && s.store[u].deferRemove
    ensures var f := Run(s, ops).state;
            && u < |f.store|
            && s.store[u].current.Running?
            && Tasks(f.store[u].log, Starts) == Tasks(s.store[u].log, Starts)
            && (!f.store[u].freed ==> f.store[u].deferRemove && CurrentTask(f.store[u]) == CurrentTask(s.store[u]))
            && (f.store[u].freed ==>
                  multiset(Tasks(f.store[u].log, Deletes)) == multiset(Tasks(f.store[u].log, Adds)))
  {
    var f := Run(s, ops).state;
    RunEvolves(s, ops);
    RunsAreSafe(s, ops);
    assert Shaped(s.store[u]) && Later(s.store[u], f.store[u]) && LogAgrees(f.store[u]);
    FinallyRunsOnce(f.store[u]);
  }

  ghost predicate NoAdditions(ops: seq<Op>) {
    forall i | 0 <= i < |ops| :: !ops[i].OpAddTask?
  }

  function TotalSpent(ops: seq<Op>): nat {
    if ops == [] then 0 else Spent(ops[0]) + TotalSpent(ops[1..])
  }

  /** Without new tasks, the dispatches and completions of any run are bounded by the work there was at its start. */
  lemma {:induction false} WorkRunsOut(s: ProcessorState, ops: seq<Op>)
    requires Inv(s) && !s.quitting && Run(s, ops).Done? && NoAdditions(ops)
    ensures Work(Run(s, ops).state) + TotalSpent(ops) <= Work(s)
    decreases |ops|
  {
    hide Inv, Step, Work;
    if ops != [] {
      StepKeepsInvIff(s, ops[0]);
      StepEvolves(s, ops[0]);
      assert NoAdditions(ops[1..]);
      WorkRunsOut(Step(s, ops[0]).value, ops[1..]);
    }
  }

  /**
   No lost wake-up: an AUTO_START queue with work and no deferred removal either has a
   dispatch waiting in the main loop, one that will find it ready, or is running a task.
   */
  lemma NoLostWakeup(s: ProcessorState, k: Key)
    requires Inv(s) && Live(s, k)
    requires var q := Lookup(s, k); q.flags.autoStart && q.tasks != [] && !q.deferRemove
    ensures var q := Lookup(s, k);
            || q.current.Running?
            || (q.idle in s.sources && s.sources[q.idle] == s.table[k]
                && Legal(s, OpDispatch(q.idle)) && Step(s, OpDispatch(q.idle)).Some?)
  {
    var q := Lookup(s, k);
    assert Shaped(q);
    if q.current.Idle? {
      DispatchIsSafe(s, q.idle);
    }
  }

  /** The queue under k has something coming: a running task, or a dispatch in the main loop. */
  predicate Busy(s: ProcessorState, k: Key) {
    && Live(s, k)
    && var q := Lookup(s, k);
       q.current.Running? || (q.idle in s.sources && s.sources[q.idle] == s.table[k])
  }

  /** queue_start gets a queue with work going, and disposes of an AUTO_REMOVE queue without. */
  lemma StartWakes(s: ProcessorState, k: Key)
    requires Inv(s) && Legal(s, OpStart(k)) && !s.quitting && !Lookup(s, k).deferRemove
    ensures Lookup(s, k).tasks != [] ==> Busy(Start(s, k), k)
    ensures Lookup(s, k).tasks == [] ==> (k in Start(s, k).table <==> !Lookup(s, k).flags.autoRemove)
  {
    assert Shaped(Lookup(s, k));
  }

  /** When a task completes its queue goes on with the next one, AUTO_START or not, rests or is removed. */
  lemma CompletionGoesOn(s: ProcessorState, k: Key)
    requires Inv(s) && Live(s, k) && Lookup(s, k).current.Running? && !s.quitting
    ensures var q, f := Lookup(s, k), TaskCompleted(s, k);
            && (k in f.table <==> !q.deferRemove && (q.tasks != [] || !q.flags.autoRemove))
            && (k in f.table ==> (Busy(f, k) <==> q.tasks != []))
  {
    var q := Lookup(s, k);
    assert Shaped(q);
    TaskCompletedClosed(s, k);
    CompletionAgrees(s, k);
  }

  /** Nothing for the main loop to dispatch, and nothing running. */
  predicate AtRest(s: ProcessorState) {
    s.sources == map[] && s.running == 0
  }

  /** With nothing left for the main loop and nothing running, all work has been done. */
  lemma RestMeansDone(s: ProcessorState, k: Key)
    requires Inv(s) && AtRest(s) && Live(s, k)
    ensures var q := Lookup(s, k);
            && !q.deferRemove
            && (q.flags.autoStart ==> q.tasks == [])
            && (q.flags.autoRemove ==> Tasks(q.log, Starts) == [])
  {
    var q := Lookup(s, k);
    assert Shaped(q) && LogAgrees(q);
    StartsAreBooked(q);
    if q.current.Running? {
      RunningIsPositive(s, k);
      assert false;
    }
  }

  /**
   At rest every AUTO_REMOVE queue that has started anything is gone, AUTO_START or not:
   all its tasks are deleted, all that were started are complete, and if it was never
   cancelled these are all tasks it was given, in order, and finally was told FALSE.
   */
  lemma ChainsEnd(s: ProcessorState, u: nat)
    requires Inv(s) && !s.quitting && AtRest(s) && u < |s.store|
    requires s.store[u].flags.autoRemove && Tasks(s.store[u].log, Starts) != []
    ensures var q := s.store[u];
            && q.freed
            && Tasks(q.log, Completes) == Tasks(q.log, Starts)
            && multiset(Tasks(q.log, Deletes)) == multiset(Tasks(q.log, Adds))
            && (CancelCall !in q.log ==>
                  && Tasks(q.log, Starts) == Tasks(q.log, Adds)
                  && (q.hasFinally ==> q.log != [] && q.log[|q.log| - 1] == Finally(false)))
  {
    var q := s.store[u];
    assert LogAgrees(q) && Shaped(q) && NothingDropped(q);
    if !q.freed {
      RestMeansDone(s, q.key);
    }
    StartsAndCompletions(q);
    FinallyRunsOnce(q);
    assert Tasks(q.log, Completes) + [] == Tasks(q.log, Completes);
    if CancelCall !in q.log {
      UncancelledChainRanAll(q);
    }
  }

  // ---------------------------------------------------------------------
  // Chains of service tasks
  // ---------------------------------------------------------------------

  /** The log of an uncancelled AUTO_REMOVE queue when the action of its current task fails. */
  function FailureLog(q: QueueState): seq<Event>
    requires q.current.Running?
  {
    q.log + [CancelCall] + FlushLog(q.tasks) + [CancelCb(q.current.task)]
    + [Completed(q.current.task)] + [DeleteCb(q.current.task)]
    + (if q.hasFinally then [Finally(true)] else [])
  }

  /**
   A failing action ends its AUTO_REMOVE chain exactly when the queue had not already been
   cancelled behind the action's back, or has nothing left to go on with.
   */
  lemma FailureEndsChainIff(s: ProcessorState, k: Key)
    requires Core(s) && !s.quitting && Legal(s, OpActionReturns(k, false, true)) && Lookup(s, k).flags.autoRemove
    ensures var q, f := Lookup(s, k), ActionReturns(s, k, false, true);
            && (f.store[s.table[k]].freed <==> !q.cancelled || q.tasks == [] || q.deferRemove)
            && (!q.cancelled ==> f.store[s.table[k]].log == FailureLog(q) && k !in f.table)
  {
    var q := Lookup(s, k);
    assert Shaped(q);
    FailedActionClosed(s, k);
    var c := CancelledQueue(q);
    assert !q.cancelled ==> EndCurrent(c).log + DeleteLog([]) == EndCurrent(c).log;
  }

  /** After a failure no later task of the chain is ever started, in any continuation of the run. */
  lemma FailedChainStaysDown(s: ProcessorState, k: Key, ops: seq<Op>)
    requires Inv(s) && !s.quitting && Legal(s, OpActionReturns(k, false, true))
    requires Lookup(s, k).flags.autoRemove && !Lookup(s, k).cancelled
    requires Run(ActionReturns(s, k, false, true), ops).Done?
    ensures var q, f := Lookup(s, k), Run(ActionReturns(s, k, false, true), ops).state;
            && s.table[k] < |f.store|
            && f.store[s.table[k]].log == FailureLog(q)
            && Tasks(f.store[s.table[k]].log, Starts) == Tasks(q.log, Starts)
            && multiset(Tasks(f.store[s.table[k]].log, Deletes)) == multiset(Tasks(f.store[s.table[k]].log, Adds))
  {
    var u, q := s.table[k], Lookup(s, k);
    var s1 := ActionReturns(s, k, false, true);
    StepKeepsInvIff(s, OpActionReturns(k, false, true));
    FailureEndsChainIff(s, k);
    ActionReturnsMoves(s, k, false, true);
    RunEvolves(s1, ops);
    RunsAreSafe(s1, ops);
    var f := Run(s1, ops).state;
    assert Later(s1.store[u], f.store[u]) && LogAgrees(f.store[u]) && LogAgrees(q) && Shaped(q);
    FinallyRunsOnce(f.store[u]);
    FailureStartsNothing(q);
  }

  lemma FailureStartsNothing(q: QueueState)
    requires LogAgrees(q) && q.current.Running? && !q.freed && !q.cancelled
    ensures Tasks(FailureLog(q), Starts) == Tasks(q.log, Starts)
  {
    CutAgrees(q);
    StartsAreBooked(q);
    StartsAreBooked(Cut(q));
    var l := Cut(q).log;
    TasksAppend(l, Completed(q.current.task), Starts);
    TasksAppend(l + [Completed(q.current.task)], DeleteCb(q.current.task), Starts);
    var l2 := l + [Completed(q.current.task)] + [DeleteCb(q.current.task)];
    TasksAppend(l2, Finally(true), Starts);
    assert l2 + [] == l2;
  }

  /**
   What holds of every live queue in every state a legal run can reach: at most one
   runner and one idle source, never both; no lost wake-up; no husk of an AUTO_REMOVE
   queue; a deferred removal has a cancelled task to wait for.
   */
  lemma ReachableQueues(ops: seq<Op>, k: Key)
    requires Run(INITIAL, ops).Done? && k in Run(INITIAL, ops).state.table
    ensures var s := Run(INITIAL, ops).state;
            && Live(s, k)
            && var q := Lookup(s, k);
               && (q.idle != 0 ==> q.current.Idle? && q.tasks != [])
               && (q.flags.autoStart && q.tasks != [] && !q.deferRemove ==> q.idle != 0 || q.current.Running?)
               && (q.flags.autoRemove && Tasks(q.log, Starts) != [] ==> q.idle != 0 || q.current.Running?)
               && (q.deferRemove ==> q.current.Running? && q.cancelled)
               && (IsWaiting(q) ==> !q.cancelled)
               && s.running == RunningCount(s.store)
  {
    InitialHolds();
    RunsAreSafe(INITIAL, ops);
    var s := Run(INITIAL, ops).state;
    var q := s.store[s.table[k]];
    assert Shaped(q) && LogAgrees(q);
    StartsAreBooked(q);
  }
}
