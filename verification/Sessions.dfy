/** Whole lives of a processor: a run, a call of set_quitting, and what comes after it. */
module Sessions {
  import opened Wrappers
  import opened Scheduler
  import opened Invariant
  import opened Removal
  import opened Shutdown
  import opened Runs

  /** The count of running tasks falls to zero between s and s1. */
  predicate Falls(s: ProcessorState, s1: ProcessorState) {
    s.running > 0 && s1.running <= 0
  }

  /** While quitting: tasks only end, and the quit callback is scheduled when the last one does. */
  predicate QuitOnFall(s: ProcessorState, s1: ProcessorState) {
    && s1.quitting && s1.running <= s.running
    && s1.quits == s.quits + (if Falls(s, s1) then 1 else 0)
  }

  lemma TaskCompletedQuits(s: ProcessorState, k: Key)
    requires Live(s, k) && s.quitting
    ensures QuitOnFall(s, TaskCompleted(s, k))
  {
  }

  lemma CancelQuits(s: ProcessorState, k: Key)
    requires Live(s, k) && s.quitting
    ensures QuitOnFall(s, Cancel(s, k))
  {
    if !Lookup(s, k).cancelled && IsWaiting(Lookup(s, k)) {
      TaskCompletedQuits(CutQueue(s, k), k);
      hide TaskCompleted;
    }
  }

  lemma RemoveSelectedQuits(s: ProcessorState, sel: Selector, k: Key)
    requires Live(s, k) && s.quitting
    ensures QuitOnFall(s, RemoveSelected(s, sel, k))
  {
    CancelQuits(MarkDeferred(s, k), k);
    hide Cancel;
  }

  lemma {:induction false} RemoveQueuesQuits(s: ProcessorState, sel: Selector, order: seq<Key>)
    requires s.quitting
    ensures QuitOnFall(s, RemoveQueues(s, sel, order))
    decreases |order|
  {
    hide RemoveSelected;
    if order != [] {
      if Live(s, order[0]) {
        RemoveSelectedQuits(s, sel, order[0]);
      }
      RemoveQueuesQuits(if Live(s, order[0]) then RemoveSelected(s, sel, order[0]) else s, sel, order[1..]);
    }
  }

  lemma ActionReturnsQuits(s: ProcessorState, k: Key, hasAction: bool, failed: bool)
    requires Legal(s, OpActionReturns(k, hasAction, failed)) && s.quitting
    ensures QuitOnFall(s, ActionReturns(s, k, hasAction, failed))
  {
    var s1 := Put(s, k, SetPhase(Lookup(s, k), if hasAction then Waiting else Starting));
    if !hasAction {
      var s2 := if failed then Cancel(s1, k) else s1;
      assert s2.running == s.running && s2.quits == s.quits;
      TaskCompletedQuits(s2, k);
      hide TaskCompleted, Cancel;
    }
  }

  /** One step after set_quitting. */
  lemma StepQuits(s: ProcessorState, op: Op)
    requires s.quitting && Legal(s, op) && Step(s, op).Some?
    ensures var s1 := Step(s, op).value; s1.quitting && s1.quits == s.quits + (if Falls(s, s1) then 1 else 0)
  {
    hide TaskCompleted, Cancel, RemoveQueues, ActionReturns;
    match op
    case OpActionReturns(k, hasAction, failed) => ActionReturnsQuits(s, k, hasAction, failed);
    case OpReplyEnds(k) => TaskCompletedQuits(s, k);
    case OpPlainCompleted(k) => TaskCompletedQuits(s, k);
    case OpCancel(k) => CancelQuits(s, k);
    case OpRemove(sel, order) => RemoveQueuesQuits(s, sel, order);
    case _ =>
  }

  /** How often the count of running tasks falls to zero in a run. */
  ghost function FallCount(s: ProcessorState, ops: seq<Op>): nat
    requires Run(s, ops).Done?
    decreases |ops|
  {
    if ops == [] then 0
    else
      var s1 := Step(s, ops[0]).value;
      (if Falls(s, s1) then 1 else 0) + FallCount(s1, ops[1..])
  }

  lemma {:induction false} RunQuits(s: ProcessorState, ops: seq<Op>)
    requires s.quitting && Run(s, ops).Done?
    ensures Run(s, ops).state.quits == s.quits + FallCount(s, ops)
    decreases |ops|
  {
    hide Step, Legal, Clean;
    if ops != [] {
      StepQuits(s, ops[0]);
      RunQuits(Step(s, ops[0]).value, ops[1..]);
    }
  }

  /**
   Over the whole life of a processor that is told to quit once: the quit callback is
   scheduled once for the shutdown if every running task was waiting for a reply then, and
   once more each time the running tasks of queues added later run out.
   */
  lemma QuitsOfSession(before: seq<Op>, order: seq<Key>, after: seq<Op>)
    requires Run(INITIAL, before).Done?
    requires Enumerates(order, Run(INITIAL, before).state.table)
    requires Run(SetQuitting(Run(INITIAL, before).state, order), after).Done?
    ensures var s := Run(INITIAL, before).state;
            var f := SetQuitting(s, order);
            Run(f, after).state.quits == (if Quiescent(s) then 1 else 0) + FallCount(f, after)
  {
    hide SetQuitting;
    var s := Run(INITIAL, before).state;
    InitialHolds();
    RunsAreSafe(INITIAL, before);
    ShutdownClosedForm(s, order);
    StuckMeansNotQuiescent(s);
    RunQuits(SetQuitting(s, order), after);
  }

  // ---------------------------------------------------------------------
  // Nothing is added after the shutdown
  // ---------------------------------------------------------------------

  lemma NothingLegal(s: ProcessorState, op: Op)
    requires s.table == map[] && Legal(s, op) && !op.OpAddQueue?
    ensures Step(s, op) == None || Step(s, op) == Some(s)
  {
  }

  ghost predicate AddsNoQueue(ops: seq<Op>) {
    forall i | 0 <= i < |ops| :: !ops[i].OpAddQueue?
  }

  lemma {:induction false} EmptyTableRests(s: ProcessorState, ops: seq<Op>)
    requires s.table == map[] && Run(s, ops).Done? && AddsNoQueue(ops)
    ensures Run(s, ops).state == s
    decreases |ops|
  {
    hide Step, Legal, Clean;
    if ops != [] {
      NothingLegal(s, ops[0]);
      EmptyTableRests(s, ops[1..]);
    }
  }

  /** Without sources nothing can crash either. */
  lemma {:induction false} EmptyTableIsSafe(s: ProcessorState, ops: seq<Op>)
    requires s.table == map[] && s.sources == map[] && AddsNoQueue(ops)
    ensures !Run(s, ops).Crash?
    decreases |ops|
  {
    hide Clean;
    if ops != [] && Legal(s, ops[0]) && Clean(s, ops[0]) {
      NothingLegal(s, ops[0]);
      assert Step(s, ops[0]) == Some(s);
      hide Step, Legal;
      EmptyTableIsSafe(s, ops[1..]);
    }
  }

  /** The dispatch of a source that was left behind crashes. */
  lemma LeftSourceCrashes(s: ProcessorState, sid: nat)
    requires s.table == map[] && sid in s.sources
    ensures Run(s, [OpDispatch(sid)]) == Crash
  {
  }

  /** Once all queues are freed, agreement with the main loop means that it has no sources left. */
  lemma AgreesWhenFreed(s: ProcessorState)
    requires forall u | 0 <= u < |s.store| :: s.store[u].freed
    requires s.nextSource > 0
    ensures Agrees(s) <==> s.sources == map[]
  {
    if Agrees(s) {
      forall sid
        ensures sid !in s.sources
      {
      }
    }
  }

  /**
   A shutdown with all running tasks waiting for replies schedules the quit callback
   exactly once in the whole life of the processor, unless a queue is added after it:
   nothing that can be done then changes anything, and it can crash just if the shutdown
   has left an idle source behind.
   */
  lemma QuitScheduledOnce(before: seq<Op>, order: seq<Key>, after: seq<Op>)
    requires Run(INITIAL, before).Done? && Quiescent(Run(INITIAL, before).state)
    requires Enumerates(order, Run(INITIAL, before).state.table) && AddsNoQueue(after)
    ensures var f := SetQuitting(Run(INITIAL, before).state, order);
            && f.quits == 1
            && (Run(f, after).Done? ==> Run(f, after).state == f)
            && (Agrees(f) ==> !Run(f, after).Crash?)
    ensures var f := SetQuitting(Run(INITIAL, before).state, order);
            !Agrees(f) ==> exists sid :: sid in f.sources && Run(f, [OpDispatch(sid)]) == Crash
  {
    hide SetQuitting, Agrees, Legal, Step, Run, Ended;
    var s := Run(INITIAL, before).state;
    var f := SetQuitting(s, order);
    InitialHolds();
    RunsAreSafe(INITIAL, before);
    ShutdownClosedForm(s, order);
    StuckMeansNotQuiescent(s);
    NextSourceKept(s, order);
    AgreesWhenFreed(f);
    if Run(f, after).Done? {
      EmptyTableRests(f, after);
    }
    if Agrees(f) {
      EmptyTableIsSafe(f, after);
    } else {
      var sid :| sid in f.sources;
      LeftSourceCrashes(f, sid);
    }
  }

  lemma NextSourceKept(s: ProcessorState, order: seq<Key>)
    requires Inv(s) && Quiescent(s) && Enumerates(order, s.table)
    ensures SetQuitting(s, order).nextSource > 0
  {
    hide SetQuitting, Shaped, Quiescent;
    ShutdownCleanIff(s, order);
  }

  /**
   Nothing crashes after such a shutdown, whatever order it visited the table in, if no queue
   was scheduled while it was marked cancelled, or while tasks were running.
   */
  lemma NothingCrashesAfter(before: seq<Op>, order: seq<Key>, after: seq<Op>)
    requires Run(INITIAL, before).Done? && Quiescent(Run(INITIAL, before).state)
    requires SurelyUnscheduled(Run(INITIAL, before).state)
    requires Enumerates(order, Run(INITIAL, before).state.table) && AddsNoQueue(after)
    ensures !Run(SetQuitting(Run(INITIAL, before).state, order), after).Crash?
  {
    hide SetQuitting, Agrees, Legal, Step, Run, SurelyUnscheduled, Quiescent, Enumerates;
    var s := Run(INITIAL, before).state;
    InitialHolds();
    RunsAreSafe(INITIAL, before);
    ShutdownNeverLeavesSourcesIff(s);
    QuitScheduledOnce(before, order, after);
  }
}
