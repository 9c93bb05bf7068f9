/** Runs: any sequence of operations, from any interleaving of callers, callbacks and the main loop. */
module Runs {
  import opened Scheduler
  import opened Invariant
  import opened Removal

  // ---------------------------------------------------------------------
  // Safety
  // ---------------------------------------------------------------------

  /** A removal meets no queue that was cancelled, given new work and scheduled again; see RemovalAgreesIff. */
  ghost predicate Clean(s: ProcessorState, op: Op) {
    op.OpRemove? ==> forall u | 0 <= u < |s.store| :: !Orphans(op.sel, s.store[u])
  }

  lemma StepKeepsCore(s: ProcessorState, op: Op)
    requires Inv(s) && Legal(s, op) && !s.quitting
    ensures Step(s, op).Some? && Core(Step(s, op).value)
  {
    hide Base, Agrees;
    match op
    case OpAddQueue(k, flags, client) => AddQueueKeepsCore(s, k, flags, client);
    case OpSetFinally(k, present) => SetFinallyKeepsCore(s, k, present);
    case OpAddTask(k, t) => AddTaskKeepsCore(s, k, t);
    case OpStart(k) => StartKeepsCore(s, k);
    case OpDispatch(sid) => DispatchIsSafe(s, sid);
    case OpActionReturns(k, hasAction, failed) => ActionReturnsKeepsCore(s, k, hasAction, failed);
    case OpReplyBegins(k) => ReplyBeginsKeepsCore(s, k);
    case OpReplyEnds(k) => CompletionKeepsCore(s, k);
    case OpPlainCompleted(k) => CompletionKeepsCore(s, k);
    case OpCancel(k) => CancelOpKeepsCore(s, k);
    case OpRemove(sel, order) => RemovalClosedForm(s, sel, order);
  }

  lemma CompletionKeepsCore(s: ProcessorState, k: Key)
    requires Core(s) && Live(s, k) && Lookup(s, k).current.Running?
    ensures Core(TaskCompleted(s, k))
  {
    assert Shaped(Lookup(s, k));
    TaskCompletedKeepsCore(s, k);
  }

  lemma CancelOpKeepsCore(s: ProcessorState, k: Key)
    requires Core(s) && Live(s, k)
    ensures Core(Cancel(s, k))
  {
    assert Shaped(Lookup(s, k));
    CancelKeepsCore(s, k);
  }

  /** A dispatch finds its queue, with a head to take and nothing running. */
  lemma DispatchIsSafe(s: ProcessorState, sid: nat)
    requires Inv(s) && sid in s.sources
    ensures Dispatch(s, sid).Some? && Core(Dispatch(s, sid).value) && Agrees(Dispatch(s, sid).value)
    ensures s.sources[sid] < |s.store|
    ensures var q := s.store[s.sources[sid]]; !q.freed && q.current.Idle? && q.tasks != [] && Live(s, q.key)
    ensures !s.quitting ==> !Dispatch(s, sid).value.quitting
  {
    var u := s.sources[sid];
    var k := s.store[u].key;
    assert Shaped(s.store[u]);
    DispatchKeepsCore(s, k);
    SourcesDrop(s.store, s.sources, s.nextSource, u, TakeHead(s.store[u]));
  }

  lemma PhaseAgrees(s: ProcessorState, k: Key, p: Phase)
    requires Agrees(s) && Live(s, k) && Lookup(s, k).current.Running?
    ensures Agrees(Put(s, k, SetPhase(Lookup(s, k), p)))
  {
    SourcesPut(s.store, s.sources, s.nextSource, s.table[k], SetPhase(Lookup(s, k), p));
  }

  lemma ActionReturnsAgrees(s: ProcessorState, k: Key, hasAction: bool, failed: bool)
    requires Inv(s) && Legal(s, OpActionReturns(k, hasAction, failed)) && !s.quitting
    ensures Agrees(ActionReturns(s, k, hasAction, failed))
  {
    var p := if hasAction then Waiting else Starting;
    var s1 := Put(s, k, SetPhase(Lookup(s, k), p));
    PhaseAgrees(s, k, p);
    assert Shaped(Lookup(s, k));
    TablePut(s.store, s.table, s.table[k], SetPhase(Lookup(s, k), p));
    if failed {
      CancelClosed(s1, k);
      CancelAgrees(s1, k);
      TablePut(s1.store, s1.table, s1.table[k], CancelledQueue(Lookup(s1, k)));
      TaskCompletedAgrees(Cancel(s1, k), k);
    } else if !hasAction {
      TaskCompletedAgrees(s1, k);
    }
  }

  lemma CompletionAgrees(s: ProcessorState, k: Key)
    requires Inv(s) && !s.quitting && Live(s, k) && Lookup(s, k).current.Running?
    ensures Agrees(TaskCompleted(s, k))
  {
    assert Shaped(Lookup(s, k));
    TaskCompletedAgrees(s, k);
  }

  lemma StartStepAgrees(s: ProcessorState, k: Key)
    requires Inv(s) && Live(s, k)
    ensures Agrees(Start(s, k))
  {
    assert Shaped(Lookup(s, k));
    StartAgrees(s, k);
  }

  lemma SetFinallyAgrees(s: ProcessorState, k: Key, present: bool)
    requires Agrees(s) && Live(s, k)
    ensures Agrees(SetFinally(s, k, present))
  {
    SourcesPut(s.store, s.sources, s.nextSource, s.table[k], Lookup(s, k).(hasFinally := present));
  }

  lemma AddQueueAgrees(s: ProcessorState, k: Key, flags: Flags, client: Client)
    requires Agrees(s)
    ensures Agrees(AddQueue(s, k, flags, client))
  {
  }

  lemma StepAgrees(s: ProcessorState, op: Op)
    requires Inv(s) && Legal(s, op) && !s.quitting && !op.OpRemove?
    ensures Step(s, op).Some? && Agrees(Step(s, op).value)
  {
    hide Agrees, Shaped, LogsAgree, OwnersAgree;
    match op
    case OpAddQueue(k, flags, client) => AddQueueAgrees(s, k, flags, client);
    case OpSetFinally(k, present) => SetFinallyAgrees(s, k, present);
    case OpAddTask(k, t) => AddTaskAgrees(s, k, t);
    case OpStart(k) => StartStepAgrees(s, k);
    case OpDispatch(sid) => DispatchIsSafe(s, sid);
    case OpActionReturns(k, hasAction, failed) => ActionReturnsAgrees(s, k, hasAction, failed);
    case OpReplyBegins(k) => PhaseAgrees(s, k, Replying);
    case OpReplyEnds(k) => CompletionAgrees(s, k);
    case OpPlainCompleted(k) => CompletionAgrees(s, k);
    case OpCancel(k) => CancelAgrees(s, k);
  }

  lemma StepKeepsNotQuitting(s: ProcessorState, op: Op)
    requires Inv(s) && Legal(s, op) && !s.quitting
    ensures Step(s, op).Some? ==> !Step(s, op).value.quitting && Step(s, op).value.quits == s.quits
  {
    hide Inv;
  }

  /** Every legal step keeps the invariant, except just those removals that orphan an idle source. */
  lemma StepKeepsInvIff(s: ProcessorState, op: Op)
    requires Inv(s) && Legal(s, op) && !s.quitting
    ensures Step(s, op).Some? && !Step(s, op).value.quitting && Step(s, op).value.quits == s.quits
    ensures Inv(Step(s, op).value) <==> Clean(s, op)
  {
    hide Core, Agrees;
    StepKeepsCore(s, op);
    StepKeepsNotQuitting(s, op);
    if op.OpRemove? {
      RemovalClosedForm(s, op.sel, op.order);
      RemovalAgreesIff(s, op.sel, op.order);
    } else {
      StepAgrees(s, op);
    }
  }

  datatype Outcome = Done(state: ProcessorState) | Refused | Crash

  /** Executes ops one after the other; Refused when a caller breaks the rules, Crash when the code does. */
  ghost function Run(s: ProcessorState, ops: seq<Op>): Outcome
    decreases |ops|
  {
    if ops == [] then Done(s)
    else if !Legal(s, ops[0]) || !Clean(s, ops[0]) then Refused
    else match Step(s, ops[0])
         case None => Crash
         case Some(s1) => Run(s1, ops[1..])
  }

  lemma InitialHolds()
    ensures Inv(INITIAL) && !INITIAL.quitting
  {
  }

  /** Over every run: no crash, and the invariant holds wherever the run ends. */
  lemma {:induction false} RunsAreSafe(s: ProcessorState, ops: seq<Op>)
    requires Inv(s) && !s.quitting
    ensures !Run(s, ops).Crash?
    ensures Run(s, ops).Done? ==>
              var f := Run(s, ops).state; Inv(f) && !f.quitting && f.quits == s.quits
    decreases |ops|
  {
    hide Inv, Step;
    if ops != [] && Legal(s, ops[0]) && Clean(s, ops[0]) {
      StepKeepsInvIff(s, ops[0]);
      RunsAreSafe(Step(s, ops[0]).value, ops[1..]);
    }
  }

  lemma RunPrepend(s: ProcessorState, op: Op, rest: seq<Op>)
    requires Legal(s, op) && Clean(s, op) && Step(s, op).Some?
    ensures Run(s, [op] + rest) == Run(Step(s, op).value, rest)
  {
    assert ([op] + rest)[1..] == rest;
  }

  lemma {:induction false} RunConcat(s: ProcessorState, a: seq<Op>, b: seq<Op>)
    requires Run(s, a).Done?
    ensures Run(s, a + b) == Run(Run(s, a).state, b)
    decreases |a|
  {
    hide Legal, Clean, Step;
    if a == [] {
      assert a + b == b;
    } else {
      assert (a + b)[1..] == a[1..] + b;
      RunConcat(Step(s, a[0]).value, a[1..], b);
    }
  }
}
