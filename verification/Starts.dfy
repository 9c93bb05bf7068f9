/**
 Which queues start tasks: one without AUTO_START only after queue_start was called on it,
 and while the processor is quitting not even then.  Nothing here needs the invariant, so
 that it also holds after a shutdown.
 */
module Starts {
  import opened Wrappers
  import opened Protocol
  import opened Scheduler
  import opened Invariant
  import opened Tables
  import opened Shutdown
  import opened Runs
  import opened Sessions

  /** Nothing was ever started, or is about to be. */
  predicate Unstarted(q: QueueState) {
    q.idle == 0 && q.current.Idle? && forall e | e in q.log :: !e.Started?
  }

  /** Queue u is not AUTO_START, has started nothing, and is not scheduled. */
  ghost predicate Asleep(s: ProcessorState, u: nat) {
    && u < |s.store| && !s.store[u].flags.autoStart && Unstarted(s.store[u])
    && forall sid | sid in s.sources :: s.sources[sid] != u
  }

  lemma {:induction false} FlushStartsNothing(ts: seq<Task>)
    ensures forall e | e in FlushLog(ts) :: !e.Started?
  {
    if ts != [] {
      FlushStartsNothing(ts[..|ts| - 1]);
    }
  }

  lemma {:induction false} DeleteStartsNothing(ts: seq<Task>)
    ensures forall e | e in DeleteLog(ts) :: !e.Started?
  {
    if ts != [] {
      DeleteStartsNothing(ts[..|ts| - 1]);
    }
  }

  lemma FreeStartsNothing(q: QueueState)
    requires Unstarted(q)
    ensures Unstarted(FreeQueue(q))
  {
    DeleteStartsNothing(q.tasks);
  }

  lemma CutStartsNothing(q: QueueState)
    requires Unstarted(q)
    ensures Unstarted(Cut(q))
  {
    FlushStartsNothing(q.tasks);
  }

  /** A queue that is asleep stays so, under its key. */
  ghost predicate StaysAsleep(s: ProcessorState, s1: ProcessorState, u: nat) {
    Asleep(s, u) ==> Asleep(s1, u) && s1.store[u].key == s.store[u].key
  }

  lemma RemoveQueueSleeps(s: ProcessorState, k: Key, u: nat)
    ensures StaysAsleep(s, RemoveQueue(s, k), u)
  {
    if Asleep(s, u) {
      FreeStartsNothing(s.store[u]);
    }
  }

  lemma RemoveAllSleeps(s: ProcessorState, u: nat)
    ensures StaysAsleep(s, RemoveAllQueues(s), u)
  {
    if Asleep(s, u) {
      FreeStartsNothing(s.store[u]);
    }
  }

  lemma TaskCompletedSleeps(s: ProcessorState, k: Key, u: nat)
    requires Live(s, k) && Lookup(s, k).current.Running?
    ensures StaysAsleep(s, TaskCompleted(s, k), u)
  {
    var s1 := EndTask(s, k);
    assert StaysAsleep(s, s1, u);
    RemoveAllSleeps(s1.(quits := s1.quits + 1), u);
    RemoveQueueSleeps(s1, k, u);
    hide RemoveAllQueues, RemoveQueue, Schedule, Unstarted;
  }

  lemma CutQueueSleeps(s: ProcessorState, k: Key, u: nat)
    requires Live(s, k)
    ensures StaysAsleep(s, CutQueue(s, k), u)
  {
    if Asleep(s, u) {
      CutStartsNothing(s.store[u]);
    }
  }

  lemma CancelSleeps(s: ProcessorState, k: Key, u: nat)
    requires Live(s, k)
    ensures StaysAsleep(s, Cancel(s, k), u)
  {
    var q := Lookup(s, k);
    CutQueueSleeps(s, k, u);
    if !q.cancelled && IsWaiting(q) {
      TaskCompletedSleeps(CutQueue(s, k), k, u);
      hide TaskCompleted;
    }
    RemoveQueueSleeps(CancelOnly(s, k), k, u);
    hide RemoveQueue;
  }

  lemma RemoveSelectedSleeps(s: ProcessorState, sel: Selector, k: Key, u: nat)
    requires Live(s, k)
    ensures StaysAsleep(s, RemoveSelected(s, sel, k), u)
  {
    var m := MarkDeferred(s, k);
    assert StaysAsleep(s, m, u);
    CancelSleeps(m, k, u);
    RemoveQueueSleeps(Cancel(m, k), k, u);
    hide Cancel, RemoveQueue, Unstarted;
  }

  lemma {:induction false} RemoveQueuesSleeps(s: ProcessorState, sel: Selector, order: seq<Key>, u: nat)
    ensures StaysAsleep(s, RemoveQueues(s, sel, order), u)
    decreases |order|
  {
    hide RemoveSelected, Asleep;
    if order != [] {
      var s1 := if Live(s, order[0]) then RemoveSelected(s, sel, order[0]) else s;
      if Live(s, order[0]) {
        RemoveSelectedSleeps(s, sel, order[0], u);
      }
      RemoveQueuesSleeps(s1, sel, order[1..], u);
    }
  }

  lemma AddTaskSleeps(s: ProcessorState, k: Key, t: Task, u: nat)
    requires Live(s, k)
    ensures StaysAsleep(s, AddTask(s, k, t), u)
  {
    var s1 := Append(s, k, t);
    assert StaysAsleep(s, s1, u);
  }

  lemma StartSleeps(s: ProcessorState, k: Key, u: nat)
    requires Live(s, k) && (s.quitting || s.table[k] != u)
    ensures StaysAsleep(s, Start(s, k), u)
  {
    RemoveQueueSleeps(s, k, u);
    hide RemoveQueue;
  }

  lemma ActionReturnsSleeps(s: ProcessorState, k: Key, hasAction: bool, failed: bool, u: nat)
    requires Legal(s, OpActionReturns(k, hasAction, failed))
    ensures StaysAsleep(s, ActionReturns(s, k, hasAction, failed), u)
  {
    var s1 := Put(s, k, SetPhase(Lookup(s, k), if hasAction then Waiting else Starting));
    assert StaysAsleep(s, s1, u);
    if !hasAction {
      CancelSleeps(s1, k, u);
      var s2 := if failed then Cancel(s1, k) else s1;
      assert Live(s2, k) && Lookup(s2, k).current.Running?;
      TaskCompletedSleeps(s2, k, u);
      hide Cancel, TaskCompleted, Asleep;
    }
  }

  lemma DispatchSleeps(s: ProcessorState, sid: nat, u: nat)
    requires Filed(s) && sid in s.sources && Dispatch(s, sid).Some?
    ensures StaysAsleep(s, Dispatch(s, sid).value, u)
  {
  }

  /** A sleeping queue sleeps on, unless queue_start is called on it while the processor is not quitting. */
  lemma StepSleeps(s: ProcessorState, op: Op, u: nat)
    requires Filed(s) && Legal(s, op) && Step(s, op).Some?
    requires op.OpStart? && !s.quitting ==> s.table[op.key] != u
    ensures StaysAsleep(s, Step(s, op).value, u)
  {
    hide Filed, AddTask, Start, Cancel, RemoveQueues, ActionReturns, Dispatch, TaskCompleted, Unstarted;
    match op
    case OpAddTask(k, t) => AddTaskSleeps(s, k, t, u);
    case OpStart(k) => StartSleeps(s, k, u);
    case OpDispatch(sid) => DispatchSleeps(s, sid, u);
    case OpActionReturns(k, hasAction, failed) => ActionReturnsSleeps(s, k, hasAction, failed, u);
    case OpReplyEnds(k) => TaskCompletedSleeps(s, k, u);
    case OpPlainCompleted(k) => TaskCompletedSleeps(s, k, u);
    case OpCancel(k) => CancelSleeps(s, k, u);
    case OpRemove(sel, order) => RemoveQueuesSleeps(s, sel, order, u);
    case OpReplyBegins(k) => SmallSleeps(s, k, Replying, false, u);
    case OpSetFinally(k, present) => SmallSleeps(s, k, Starting, present, u);
    case OpAddQueue(k, flags, client) =>
  }

  lemma SmallSleeps(s: ProcessorState, k: Key, p: Phase, present: bool, u: nat)
    requires Live(s, k)
    ensures StaysAsleep(s, SetFinally(s, k, present), u)
    ensures Lookup(s, k).current.Running? ==> StaysAsleep(s, Put(s, k, SetPhase(Lookup(s, k), p)), u)
  {
  }

  /** Adding a task schedules a queue exactly if it is AUTO_START, idle, unscheduled and not due for removal. */
  lemma AddTaskSchedulesIff(s: ProcessorState, k: Key, t: Task)
    requires Live(s, k) && s.nextSource !in s.sources
    ensures var q := Lookup(s, k);
            AddTask(s, k, t).sources != s.sources <==>
              q.flags.autoStart && !q.deferRemove && q.current.Idle? && q.idle == 0
  {
    assert s.sources[s.nextSource := s.table[k]] != s.sources by {
      assert s.nextSource in s.sources[s.nextSource := s.table[k]];
    }
  }

  // ---------------------------------------------------------------------
  // Runs, quitting or not
  // ---------------------------------------------------------------------

  /** The table files the live queues, and sources are for queues that exist. */
  ghost predicate Placed(s: ProcessorState) {
    Filed(s) && forall sid | sid in s.sources :: s.sources[sid] < |s.store|
  }

  lemma TaskCompletedPlaced(s: ProcessorState, k: Key)
    requires Placed(s) && Live(s, k)
    ensures Placed(TaskCompleted(s, k))
  {
    TaskCompletedFiled(s, k);
    hide TableAgrees;
  }

  lemma CancelPlaced(s: ProcessorState, k: Key)
    requires Placed(s) && Live(s, k)
    ensures Placed(Cancel(s, k))
  {
    CancelFiled(s, k);
    CutFiled(s, k);
    hide TableAgrees;
    if !Lookup(s, k).cancelled && IsWaiting(Lookup(s, k)) {
      TaskCompletedPlaced(CutQueue(s, k), k);
      hide TaskCompleted;
    }
  }

  lemma RemoveSelectedPlaced(s: ProcessorState, sel: Selector, k: Key)
    requires Placed(s) && Live(s, k)
    ensures Placed(RemoveSelected(s, sel, k))
  {
    RemoveSelectedFiled(s, sel, k);
    MarkDeferredFiled(s, k);
    CancelPlaced(MarkDeferred(s, k), k);
    hide TableAgrees, Cancel;
  }

  lemma {:induction false} RemoveQueuesPlaced(s: ProcessorState, sel: Selector, order: seq<Key>)
    requires Placed(s)
    ensures Placed(RemoveQueues(s, sel, order))
    decreases |order|
  {
    hide RemoveSelected, Placed;
    if order != [] {
      var s1 := if Live(s, order[0]) then RemoveSelected(s, sel, order[0]) else s;
      if Live(s, order[0]) {
        RemoveSelectedPlaced(s, sel, order[0]);
      }
      RemoveQueuesPlaced(s1, sel, order[1..]);
    }
  }

  lemma SchedulePlaced(s: ProcessorState, k: Key)
    requires Placed(s) && Live(s, k)
    ensures Placed(Schedule(s, k))
  {
    PutFiled(s, k, Lookup(s, k).(idle := s.nextSource));
    hide TableAgrees;
  }

  lemma AddTaskPlaced(s: ProcessorState, k: Key, t: Task)
    requires Placed(s) && Live(s, k)
    ensures Placed(AddTask(s, k, t))
  {
    PutFiled(s, k, Enqueue(Lookup(s, k), t));
    SchedulePlaced(Append(s, k, t), k);
    hide TableAgrees, Schedule;
  }

  lemma StartPlaced(s: ProcessorState, k: Key)
    requires Placed(s) && Live(s, k)
    ensures Placed(Start(s, k))
  {
    SchedulePlaced(s, k);
    RemoveFiled(s, k);
    hide TableAgrees, Schedule;
  }

  lemma ActionReturnsPlaced(s: ProcessorState, k: Key, hasAction: bool, failed: bool)
    requires Placed(s) && Legal(s, OpActionReturns(k, hasAction, failed))
    ensures Placed(ActionReturns(s, k, hasAction, failed))
  {
    var p := if hasAction then Waiting else Starting;
    SetPhaseFiled(s, k, p);
    var s1 := Put(s, k, SetPhase(Lookup(s, k), p));
    if !hasAction {
      CancelPlaced(s1, k);
      var s2 := if failed then Cancel(s1, k) else s1;
      assert Live(s2, k);
      TaskCompletedPlaced(s2, k);
      hide Cancel, TaskCompleted;
    }
  }

  lemma DispatchPlaced(s: ProcessorState, sid: nat)
    requires Placed(s) && sid in s.sources && Dispatch(s, sid).Some?
    ensures Placed(Dispatch(s, sid).value)
  {
    var k := s.store[s.sources[sid]].key;
    PutFiled(s, k, TakeHead(Lookup(s, k)));
    hide TableAgrees;
  }

  lemma SmallPlaced(s: ProcessorState, k: Key, p: Phase, present: bool)
    requires Placed(s) && Live(s, k)
    ensures Placed(SetFinally(s, k, present))
    ensures Lookup(s, k).current.Running? ==> Placed(Put(s, k, SetPhase(Lookup(s, k), p)))
  {
    PutFiled(s, k, Lookup(s, k).(hasFinally := present));
    if Lookup(s, k).current.Running? {
      PutFiled(s, k, SetPhase(Lookup(s, k), p));
    }
    hide TableAgrees;
  }

  lemma AddQueuePlaced(s: ProcessorState, k: Key, flags: Flags, client: Client)
    requires Placed(s) && k !in s.table
    ensures Placed(AddQueue(s, k, flags, client))
  {
    TableGrow(s.store, s.table, NewQueue(k, flags, client));
    hide TableAgrees;
  }

  lemma StepPlaced(s: ProcessorState, op: Op)
    requires Placed(s) && Legal(s, op) && Step(s, op).Some?
    ensures Placed(Step(s, op).value)
  {
    hide Placed, AddTask, Start, Cancel, RemoveQueues, ActionReturns, Dispatch, TaskCompleted, AddQueue, SetFinally;
    match op
    case OpAddQueue(k, flags, client) => AddQueuePlaced(s, k, flags, client);
    case OpSetFinally(k, present) => SmallPlaced(s, k, Starting, present);
    case OpAddTask(k, t) => AddTaskPlaced(s, k, t);
    case OpStart(k) => StartPlaced(s, k);
    case OpDispatch(sid) => DispatchPlaced(s, sid);
    case OpActionReturns(k, hasAction, failed) => ActionReturnsPlaced(s, k, hasAction, failed);
    case OpReplyBegins(k) => SmallPlaced(s, k, Replying, false);
    case OpReplyEnds(k) => TaskCompletedPlaced(s, k);
    case OpPlainCompleted(k) => TaskCompletedPlaced(s, k);
    case OpCancel(k) => CancelPlaced(s, k);
    case OpRemove(sel, order) => RemoveQueuesPlaced(s, sel, order);
  }

  lemma {:induction false} NothingStarted(log: seq<Event>)
    requires forall e | e in log :: !e.Started?
    ensures Tasks(log, Starts) == []
    decreases |log|
  {
    if log != [] {
      var front, e := log[..|log| - 1], log[|log| - 1];
      assert log == front + [e] && e in log;
      NothingStarted(front);
      TasksAppend(front, e, Starts);
    }
  }

  ghost predicate NeverStarts(ops: seq<Op>, k: Key) {
    forall i | 0 <= i < |ops| && ops[i].OpStart? :: ops[i].key != k
  }

  lemma StartElsewhere(s: ProcessorState, op: Op, u: nat)
    requires Filed(s) && Legal(s, op) && op.OpStart? && u < |s.store| && op.key != s.store[u].key
    ensures s.table[op.key] != u
  {
  }

  lemma {:induction false} SleepsWithoutStart(s: ProcessorState, ops: seq<Op>, u: nat)
    requires Placed(s) && Asleep(s, u) && Run(s, ops).Done? && NeverStarts(ops, s.store[u].key)
    ensures Asleep(Run(s, ops).state, u)
    decreases |ops|
  {
    hide Legal, Clean, Step, Filed, Unstarted;
    if ops != [] {
      if ops[0].OpStart? {
        StartElsewhere(s, ops[0], u);
      }
      StepSleeps(s, ops[0], u);
      StepPlaced(s, ops[0]);
      SleepsWithoutStart(Step(s, ops[0]).value, ops[1..], u);
    }
  }

  lemma {:induction false} SleepsWhileQuitting(s: ProcessorState, ops: seq<Op>, u: nat)
    requires Placed(s) && s.quitting && Asleep(s, u) && Run(s, ops).Done?
    ensures Asleep(Run(s, ops).state, u)
    decreases |ops|
  {
    hide Legal, Clean, Step, Filed, Unstarted;
    if ops != [] {
      StepSleeps(s, ops[0], u);
      StepPlaced(s, ops[0]);
      StepQuits(s, ops[0]);
      SleepsWhileQuitting(Step(s, ops[0]).value, ops[1..], u);
    }
  }

  lemma {:induction false} RunPlaced(s: ProcessorState, ops: seq<Op>)
    requires Placed(s) && Run(s, ops).Done?
    ensures Placed(Run(s, ops).state) && (s.quitting ==> Run(s, ops).state.quitting)
    decreases |ops|
  {
    hide Legal, Clean, Step, Placed;
    if ops != [] {
      StepPlaced(s, ops[0]);
      if s.quitting {
        StepQuits(s, ops[0]);
      }
      RunPlaced(Step(s, ops[0]).value, ops[1..]);
    }
  }

  lemma NewQueueSleeps(s: ProcessorState, k: Key, autoRemove: bool, client: Client)
    requires Placed(s) && k !in s.table
    ensures var s1 := AddQueue(s, k, Flags(false, autoRemove), client);
            Placed(s1) && Asleep(s1, |s.store|) && s1.store[|s.store|].key == k && s1.quitting == s.quitting
  {
    AddQueuePlaced(s, k, Flags(false, autoRemove), client);
    hide TableAgrees;
  }

  lemma AsleepStartedNothing(s: ProcessorState, u: nat)
    requires Asleep(s, u)
    ensures Tasks(s.store[u].log, Starts) == [] && s.store[u].idle == 0
  {
    NothingStarted(s.store[u].log);
  }

  /** In every run a queue added without AUTO_START starts nothing unless queue_start is called on its key. */
  lemma StartedOnlyIfAsked(before: seq<Op>, k: Key, autoRemove: bool, client: Client, after: seq<Op>)
    requires Run(INITIAL, before).Done? && k !in Run(INITIAL, before).state.table
    requires Run(AddQueue(Run(INITIAL, before).state, k, Flags(false, autoRemove), client), after).Done?
    requires NeverStarts(after, k)
    ensures var u := |Run(INITIAL, before).state.store|;
            var f := Run(AddQueue(Run(INITIAL, before).state, k, Flags(false, autoRemove), client), after).state;
            && u < |f.store| && Tasks(f.store[u].log, Starts) == [] && f.store[u].idle == 0
            && forall sid | sid in f.sources :: f.sources[sid] != u
  {
    assert Placed(INITIAL);
    hide Run, Placed, AddQueue;
    RunPlaced(INITIAL, before);
    var s := Run(INITIAL, before).state;
    NewQueueSleeps(s, k, autoRemove, client);
    var s1 := AddQueue(s, k, Flags(false, autoRemove), client);
    SleepsWithoutStart(s1, after, |s.store|);
    AsleepStartedNothing(Run(s1, after).state, |s.store|);
  }

  lemma ShutdownPlaced(s: ProcessorState, order: seq<Key>)
    requires Inv(s) && Enumerates(order, s.table)
    ensures Placed(SetQuitting(s, order)) && SetQuitting(s, order).quitting
  {
    ShutdownClosedForm(s, order);
    hide SetQuitting, Core, EndedQueue, Reached;
  }

  /**
   After a shutdown a queue added without AUTO_START starts nothing at all, queue_start or
   not, whatever else is added and run.
   */
  lemma NothingStartedWhileQuitting(before: seq<Op>, order: seq<Key>, between: seq<Op>,
                                    k: Key, autoRemove: bool, client: Client, after: seq<Op>)
    requires Run(INITIAL, before).Done? && Enumerates(order, Run(INITIAL, before).state.table)
    requires Run(SetQuitting(Run(INITIAL, before).state, order), between).Done?
    requires k !in Run(SetQuitting(Run(INITIAL, before).state, order), between).state.table
    requires var g := Run(SetQuitting(Run(INITIAL, before).state, order), between).state;
             Run(AddQueue(g, k, Flags(false, autoRemove), client), after).Done?
    ensures var g := Run(SetQuitting(Run(INITIAL, before).state, order), between).state;
            var e := Run(AddQueue(g, k, Flags(false, autoRemove), client), after).state;
            |g.store| < |e.store| && Tasks(e.store[|g.store|].log, Starts) == []
  {
    hide Run, Placed, AddQueue, SetQuitting, Inv, Enumerates;
    var s := Run(INITIAL, before).state;
    InitialHolds();
    RunsAreSafe(INITIAL, before);
    ShutdownPlaced(s, order);
    RunPlaced(SetQuitting(s, order), between);
    var g := Run(SetQuitting(s, order), between).state;
    NewQueueSleeps(g, k, autoRemove, client);
    var s1 := AddQueue(g, k, Flags(false, autoRemove), client);
    SleepsWhileQuitting(s1, after, |g.store|);
    AsleepStartedNothing(Run(s1, after).state, |g.store|);
  }

  /** While quitting queue_start does nothing. */
  lemma StartWhileQuitting(s: ProcessorState, k: Key)
    requires Legal(s, OpStart(k)) && s.quitting
    ensures Step(s, OpStart(k)) == Some(s)
  {
  }
}
