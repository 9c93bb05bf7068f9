/**
 Runs in which nothing new is asked for: the main loop dispatches, and clients finish what
 they are at.  However they are scheduled they end, and they end with all work done.
 */
module Settling {
  import opened Protocol
  import opened Sums
  import opened Scheduler
  import opened Invariant
  import opened Histories
  import opened Runs
  import opened Progress

  /** A dispatch, or a report on a task that does not fail. */
  predicate Settles(op: Op) {
    || op.OpDispatch? || (op.OpActionReturns? && !op.failed)
    || op.OpReplyBegins? || op.OpReplyEnds? || op.OpPlainCompleted?
  }

  ghost predicate Settling(ops: seq<Op>) {
    forall i | 0 <= i < |ops| :: Settles(ops[i])
  }

  // ---------------------------------------------------------------------
  // One settling step
  // ---------------------------------------------------------------------

  /** Can op be what happens next to q? */
  predicate Fits(op: Op, q: QueueState)
    requires Settles(op)
  {
    && !q.freed
    && if op.OpDispatch? then q.current.Idle? && q.tasks != []
       else
         && q.current.Running?
         && (op.OpActionReturns? ==> q.current.phase == Starting)
         && (op.OpReplyBegins? ==> q.current.phase == Waiting)
  }

  /** What a settling operation makes of the queue it is about. */
  function Settled(op: Op, q: QueueState, source: nat): QueueState
    requires Settles(op) && Fits(op, q)
  {
    if op.OpDispatch? then TakeHead(q)
    else if op.OpActionReturns? && op.hasAction then SetPhase(q, Waiting)
    else if op.OpReplyBegins? then SetPhase(q, Replying)
    else CompletedQueue(q, source)
  }

  /** The queue a settling operation is about. */
  function Target(s: ProcessorState, op: Op): nat
    requires Settles(op) && Legal(s, op)
  {
    if op.OpDispatch? then s.sources[op.source] else s.table[op.key]
  }

  lemma NullActionClosed(s: ProcessorState, k: Key)
    requires Live(s, k) && !s.quitting && Lookup(s, k).current.Running? && Lookup(s, k).current.phase == Starting
    ensures ActionReturns(s, k, false, false).store == s.store[s.table[k] := CompletedQueue(Lookup(s, k), s.nextSource)]
  {
    assert Put(s, k, SetPhase(Lookup(s, k), Starting)) == s by {
      assert s.store[s.table[k] := Lookup(s, k)] == s.store;
    }
    TaskCompletedClosed(s, k);
    hide TaskCompleted, CompletedQueue;
  }

  /** A settling step changes one queue, and that as Settled says. */
  ghost predicate OneSettled(s: ProcessorState, op: Op, s1: ProcessorState)
    requires Settles(op) && Legal(s, op)
  {
    var v := Target(s, op);
    && v < |s.store| && Fits(op, s.store[v]) && s.nextSource > 0
    && s1.store == s.store[v := Settled(op, s.store[v], s.nextSource)]
  }

  lemma DispatchSettles(s: ProcessorState, sid: nat)
    requires Inv(s) && sid in s.sources
    ensures Dispatch(s, sid).Some? && OneSettled(s, OpDispatch(sid), Dispatch(s, sid).value)
  {
    DispatchIsSafe(s, sid);
    assert TableAgrees(s.store, s.table);
  }

  lemma ReportSettles(s: ProcessorState, op: Op)
    requires Core(s) && Legal(s, op) && !s.quitting && Settles(op) && !op.OpDispatch?
    ensures Step(s, op).Some? && OneSettled(s, op, Step(s, op).value)
  {
    assert !Lookup(s, op.key).freed;
    hide Core, TaskCompleted, CompletedQueue;
    match op
    case OpActionReturns(k, hasAction, failed) =>
      if !hasAction {
        NullActionClosed(s, k);
        hide ActionReturns;
      }
    case OpReplyBegins(k) =>
    case OpReplyEnds(k) => TaskCompletedClosed(s, k);
    case OpPlainCompleted(k) => TaskCompletedClosed(s, k);
  }

  lemma StepSettles(s: ProcessorState, op: Op)
    requires Inv(s) && Legal(s, op) && !s.quitting && Settles(op)
    ensures Step(s, op).Some? && OneSettled(s, op, Step(s, op).value)
  {
    hide Core, OneSettled, Dispatch;
    if op.OpDispatch? {
      DispatchSettles(s, op.source);
    } else {
      ReportSettles(s, op);
    }
  }

  // ---------------------------------------------------------------------
  // What settling does to one queue
  // ---------------------------------------------------------------------

  /** Settling steps still to come: four for each pending task, and what is left of the current one. */
  function Effort(q: QueueState): nat {
    if q.freed then 0 else
    4 * |q.tasks| + match q.current
                    case Idle => 0
                    case Running(_, Starting) => 3
                    case Running(_, Waiting) => 2
                    case Running(_, Replying) => 1
  }

  /** Pending tasks will be got to: the queue is scheduled or running. */
  predicate Awake(q: QueueState) {
    q.freed || q.tasks == [] || q.idle != 0 || q.current.Running?
  }

  /** q1 is q after some settling: nothing added, nothing cancelled, no finally changed, nothing put to sleep. */
  ghost predicate SettledFrom(q: QueueState, q1: QueueState) {
    && q1.flags == q.flags && q1.hasFinally == q.hasFinally
    && Tasks(q1.log, Adds) == Tasks(q.log, Adds)
    && (CancelCall in q1.log <==> CancelCall in q.log)
    && (Awake(q) ==> Awake(q1))
  }

  lemma {:induction false} DeletesCancelNothing(ts: seq<Task>)
    ensures CancelCall !in DeleteLog(ts)
  {
    if ts != [] {
      DeletesCancelNothing(ts[..|ts| - 1]);
    }
  }

  lemma FreedIsSettled(q: QueueState)
    requires LogAgrees(q) && !q.freed && q.current.Idle?
    ensures SettledFrom(q, FreeQueue(q))
  {
    FreeQueueAgrees(q);
    DeletesCancelNothing(q.tasks);
    hide LogAgrees, Tasks;
  }

  lemma EndedIsSettled(q: QueueState)
    requires LogAgrees(q) && q.current.Running?
    ensures LogAgrees(EndCurrent(q))
    ensures var e := EndCurrent(q);
            && e.flags == q.flags && e.hasFinally == q.hasFinally && Tasks(e.log, Adds) == Tasks(q.log, Adds)
            && (CancelCall in e.log <==> CancelCall in q.log)
  {
    EndCurrentAgrees(q);
    hide LogAgrees, Tasks;
  }

  lemma CompletedIsSettled(q: QueueState, source: nat)
    requires LogAgrees(q) && !q.freed && q.current.Running? && source > 0
    ensures SettledFrom(q, CompletedQueue(q, source)) && Effort(CompletedQueue(q, source)) < Effort(q)
  {
    EndedIsSettled(q);
    FreedIsSettled(EndCurrent(q));
    hide LogAgrees, Tasks;
  }

  lemma StartedIsSettled(q: QueueState)
    requires LogAgrees(q) && !q.freed && q.current.Idle? && q.tasks != []
    ensures SettledFrom(q, TakeHead(q)) && Effort(TakeHead(q)) < Effort(q)
  {
    TakeHeadAgrees(q);
    hide LogAgrees, Tasks;
  }

  lemma SettledIsSettled(op: Op, q: QueueState, source: nat)
    requires LogAgrees(q) && Settles(op) && Fits(op, q) && source > 0
    ensures SettledFrom(q, Settled(op, q, source)) && Effort(Settled(op, q, source)) < Effort(q)
  {
    if op.OpDispatch? {
      StartedIsSettled(q);
    } else {
      CompletedIsSettled(q, source);
    }
    hide LogAgrees, Tasks, CompletedQueue, TakeHead;
  }

  // ---------------------------------------------------------------------
  // Settling runs
  // ---------------------------------------------------------------------

  function Efforts(store: seq<QueueState>): seq<nat> {
    seq(|store|, i requires 0 <= i < |store| => Effort(store[i]))
  }

  function TotalEffort(s: ProcessorState): nat {
    Total(Efforts(s.store))
  }

  ghost predicate AllSettledFrom(s: ProcessorState, s1: ProcessorState) {
    && |s1.store| == |s.store|
    && forall u {:trigger SettledFrom(s.store[u], s1.store[u])} | 0 <= u < |s.store| ::
         SettledFrom(s.store[u], s1.store[u])
  }

  lemma OneSettledEffort(s: ProcessorState, op: Op, s1: ProcessorState)
    requires Core(s) && Legal(s, op) && Settles(op) && OneSettled(s, op, s1)
    ensures AllSettledFrom(s, s1) && TotalEffort(s1) < TotalEffort(s)
  {
    var v := Target(s, op);
    assert LogAgrees(s.store[v]);
    hide Core, LogAgrees, Settled, Effort, SettledFrom, Fits;
    AllSettledFromItself(s);
    SettledIsSettled(op, s.store[v], s.nextSource);
    forall u {:trigger SettledFrom(s.store[u], s1.store[u])} | 0 <= u < |s.store|
      ensures SettledFrom(s.store[u], s1.store[u])
    {
      if u != v {
        assert SettledFrom(s.store[u], s.store[u]);
      }
    }
    TotalUpdate(Efforts(s.store), v, Effort(s1.store[v]));
    assert Efforts(s1.store) == Efforts(s.store)[v := Effort(s1.store[v])];
  }

  lemma SettledFromTransitive(s: ProcessorState, s1: ProcessorState, s2: ProcessorState)
    requires AllSettledFrom(s, s1) && AllSettledFrom(s1, s2)
    ensures AllSettledFrom(s, s2)
  {
    forall u {:trigger SettledFrom(s.store[u], s2.store[u])} | 0 <= u < |s.store|
      ensures SettledFrom(s.store[u], s2.store[u])
    {
      assert SettledFrom(s.store[u], s1.store[u]) && SettledFrom(s1.store[u], s2.store[u]);
    }
  }

  lemma AllSettledFromItself(s: ProcessorState)
    ensures AllSettledFrom(s, s)
  {
  }

  /** However dispatches and reports are scheduled there is a bound on how many there can be. */
  lemma {:induction false} SettlingIsBounded(s: ProcessorState, ops: seq<Op>)
    requires Inv(s) && !s.quitting && Run(s, ops).Done? && Settling(ops)
    ensures |ops| + TotalEffort(Run(s, ops).state) <= TotalEffort(s)
    ensures AllSettledFrom(s, Run(s, ops).state)
    decreases |ops|
  {
    hide Inv, Legal, Step, TotalEffort, AllSettledFrom, OneSettled;
    if ops == [] {
      AllSettledFromItself(s);
    } else {
      assert Settles(ops[0]) && Settling(ops[1..]);
      var s1 := Step(s, ops[0]).value;
      CoreOf(s);
      StepSettles(s, ops[0]);
      OneSettledEffort(s, ops[0], s1);
      StepKeepsInvIff(s, ops[0]);
      SettlingIsBounded(s1, ops[1..]);
      SettledFromTransitive(s, s1, Run(s1, ops[1..]).state);
    }
  }

  /** What the client of a running queue does next. */
  function NextReport(q: QueueState): Op
    requires q.current.Running?
  {
    match q.current.phase
    case Starting => if q.client == ServiceTasks then OpActionReturns(q.key, false, false) else OpPlainCompleted(q.key)
    case Waiting => OpReplyBegins(q.key)
    case Replying => OpReplyEnds(q.key)
  }

  lemma SomethingSettles(s: ProcessorState) returns (op: Op)
    requires Inv(s) && !s.quitting && !AtRest(s)
    ensures Settles(op) && Legal(s, op)
  {
    if s.running != 0 {
      TotalZero(Weights(s.store));
      var u :| 0 <= u < |s.store| && Weights(s.store)[u] != 0;
      assert Shaped(s.store[u]);
      op := NextReport(s.store[u]);
    } else {
      var sid :| sid in s.sources;
      op := OpDispatch(sid);
    }
  }

  /** The processor is at rest exactly when there is nothing to dispatch and nothing to report. */
  lemma AtRestIff(s: ProcessorState)
    requires Inv(s) && !s.quitting
    ensures AtRest(s) <==> forall op | Settles(op) :: !Legal(s, op)
  {
    if AtRest(s) {
      forall op | Settles(op)
        ensures !Legal(s, op)
      {
        if Legal(s, op) {
          RunningIsPositive(s, op.key);
        }
      }
    } else {
      var op := SomethingSettles(s);
    }
  }

  /** From every state dispatches and reports alone lead to rest. */
  lemma {:induction false} ComesToRest(s: ProcessorState) returns (ops: seq<Op>)
    requires Inv(s) && !s.quitting
    ensures Settling(ops) && Run(s, ops).Done? && AtRest(Run(s, ops).state)
    decreases TotalEffort(s)
  {
    hide Inv, Legal, Step, TotalEffort, AtRest, OneSettled;
    if AtRest(s) {
      ops := [];
    } else {
      var op := SomethingSettles(s);
      CoreOf(s);
      StepSettles(s, op);
      OneSettledEffort(s, op, Step(s, op).value);
      StepKeepsInvIff(s, op);
      var rest := ComesToRest(Step(s, op).value);
      RunPrepend(s, op, rest);
      ops := [op] + rest;
    }
  }

  // ---------------------------------------------------------------------
  // Chains run to their end
  // ---------------------------------------------------------------------

  /** q has run all of adds, in order, and if it was AUTO_REMOVE is gone and has told finally FALSE. */
  ghost predicate RanAll(q: QueueState, adds: seq<Task>) {
    && Tasks(q.log, Adds) == Tasks(q.log, Starts) == Tasks(q.log, Completes) == adds
    && (q.flags.autoRemove && adds != [] ==>
          q.freed && (q.hasFinally ==> q.log != [] && q.log[|q.log| - 1] == Finally(false)))
  }

  lemma UncancelledAtRest(s: ProcessorState, u: nat)
    requires Inv(s) && !s.quitting && AtRest(s) && u < |s.store|
    requires Awake(s.store[u]) && CancelCall !in s.store[u].log
    ensures RanAll(s.store[u], Tasks(s.store[u].log, Adds))
  {
    var q := s.store[u];
    assert LogAgrees(q) && NothingDropped(q);
    if q.freed {
      UncancelledChainRanAll(q);
    } else {
      assert q.key in s.table && s.table[q.key] == u;
      RestMeansDone(s, q.key);
      assert q.current.Idle? && q.idle == 0 by {
        NothingLeft(s, u);
      }
      StartsAndCompletions(q);
      UncancelledIsFifo(q);
      assert Tasks(q.log, Completes) + [] == Tasks(q.log, Completes);
      assert Tasks(q.log, Starts) + [] == Tasks(q.log, Starts);
    }
  }

  lemma NothingLeft(s: ProcessorState, u: nat)
    requires Inv(s) && AtRest(s) && u < |s.store| && !s.store[u].freed
    ensures s.store[u].current.Idle? && s.store[u].idle == 0
  {
    NoneRunning(s, u);
  }

  /**
   However a processor settles, once it is at rest every queue that was scheduled or running
   and never cancelled has run exactly the tasks it had been given, in order; an AUTO_REMOVE
   queue is gone, and its finally callback was told FALSE.
   */
  lemma SettledQueuesRanAll(s: ProcessorState, ops: seq<Op>, u: nat)
    requires Inv(s) && !s.quitting && Settling(ops) && Run(s, ops).Done? && AtRest(Run(s, ops).state)
    requires u < |s.store| && Awake(s.store[u]) && CancelCall !in s.store[u].log
    ensures var f := Run(s, ops).state;
            u < |f.store| && f.store[u].hasFinally == s.store[u].hasFinally && f.store[u].flags == s.store[u].flags
            && RanAll(f.store[u], Tasks(s.store[u].log, Adds))
  {
    hide Inv, Run, AtRest, RanAll, Awake;
    var f := Run(s, ops).state;
    SettlingIsBounded(s, ops);
    RunsAreSafe(s, ops);
    assert SettledFrom(s.store[u], f.store[u]);
    UncancelledAtRest(f, u);
  }

  /** AUTO_START queues are awake, and so are AUTO_REMOVE queues that have begun. */
  lemma WhatIsAwake(s: ProcessorState, u: nat)
    requires Inv(s) && u < |s.store|
    requires var q := s.store[u];
             (q.flags.autoStart && !q.deferRemove) || (q.flags.autoRemove && Tasks(q.log, Starts) != [])
    ensures Awake(s.store[u])
  {
    var q := s.store[u];
    assert LogAgrees(q) && Shaped(q);
    StartsAreBooked(q);
  }

  /**
   After any run, a chain that has begun and was never cancelled can be run to its end by
   dispatches and reports alone; by SettledQueuesRanAll every way of doing so comes to this.
   */
  lemma BegunChainsRunOut(ops: seq<Op>, u: nat) returns (more: seq<Op>)
    requires Run(INITIAL, ops).Done? && u < |Run(INITIAL, ops).state.store|
    requires var q := Run(INITIAL, ops).state.store[u];
             q.flags.autoRemove && Tasks(q.log, Starts) != [] && CancelCall !in q.log
    ensures Settling(more) && Run(INITIAL, ops + more).Done? && AtRest(Run(INITIAL, ops + more).state)
    ensures var s, f := Run(INITIAL, ops).state, Run(INITIAL, ops + more).state;
            u < |f.store| && RanAll(f.store[u], Tasks(s.store[u].log, Adds))
  {
    hide Inv, AtRest, RanAll, Awake, Settling;
    InitialHolds();
    RunsAreSafe(INITIAL, ops);
    var s := Run(INITIAL, ops).state;
    WhatIsAwake(s, u);
    more := ComesToRest(s);
    RunConcat(INITIAL, ops, more);
    SettledQueuesRanAll(s, more, u);
  }

  lemma BusyIsAwake(s: ProcessorState, k: Key)
    requires Inv(s) && Busy(s, k)
    ensures Awake(Lookup(s, k))
  {
    hide Core;
  }

  lemma StartKeepsLog(s: ProcessorState, k: Key)
    requires Live(s, k) && Lookup(s, k).tasks != []
    ensures Start(s, k).table == s.table && |Start(s, k).store| == |s.store|
    ensures Start(s, k).store[s.table[k]].log == Lookup(s, k).log
  {
  }

  /** A chain set going by queue_start runs to its end, however it is scheduled. */
  lemma StartedChainsRunOut(s: ProcessorState, k: Key, more: seq<Op>)
    requires Inv(s) && !s.quitting && Legal(s, OpStart(k)) && Lookup(s, k).tasks != []
    requires !Lookup(s, k).deferRemove && CancelCall !in Lookup(s, k).log
    requires Settling(more) && Run(Start(s, k), more).Done? && AtRest(Run(Start(s, k), more).state)
    ensures var f := Run(Start(s, k), more).state;
            s.table[k] < |f.store| && RanAll(f.store[s.table[k]], Tasks(Lookup(s, k).log, Adds))
  {
    hide Inv, AtRest, RanAll, Start, Settling, Run, Awake, Busy;
    StepKeepsInvIff(s, OpStart(k));
    StartWakes(s, k);
    StartKeepsLog(s, k);
    BusyIsAwake(Start(s, k), k);
    SettledQueuesRanAll(Start(s, k), more, s.table[k]);
  }
}
