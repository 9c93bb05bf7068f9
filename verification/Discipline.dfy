/**
 A rule callers can keep: no task is added to a queue that was asked to be cancelled and
 has not started a task since.  Under this rule alone runs and plays are safe, removals
 of any queue at any moment included.
 */
module Discipline {
  import opened Protocol
  import opened Scheduler
  import opened Invariant
  import opened Removal
  import opened Runs
  import opened Progress
  import opened Callbacks
  import opened Settling

  ghost predicate Disciplined(s: ProcessorState, op: Op)
    requires Legal(s, op)
  {
    op.OpAddTask? ==> !CancelledSinceStart(Lookup(s, op.key).log)
  }

  /** A live queue that is marked cancelled has nothing pending. */
  predicate Emptied(q: QueueState) {
    !q.freed && q.cancelled ==> q.tasks == []
  }

  ghost predicate AllEmptied(s: ProcessorState) {
    forall u {:trigger Emptied(s.store[u])} | 0 <= u < |s.store| :: Emptied(s.store[u])
  }

  lemma EmptiedIsClean(s: ProcessorState, op: Op)
    requires Core(s) && AllEmptied(s)
    ensures Clean(s, op)
  {
    hide Base;
    forall u | 0 <= u < |s.store|
      ensures op.OpRemove? ==> !Orphans(op.sel, s.store[u])
    {
      assert Emptied(s.store[u]) && Shaped(s.store[u]);
    }
  }

  lemma SweepEmpties(q: QueueState, sel: Selector)
    requires Emptied(q)
    ensures Emptied(SweptQueue(sel, q))
  {
  }

  lemma OnlyOneChanged(s: ProcessorState, s1: ProcessorState, v: nat)
    requires AllEmptied(s) && v < |s.store| == |s1.store| && s1.store == s.store[v := s1.store[v]]
    requires Emptied(s1.store[v])
    ensures AllEmptied(s1)
  {
    forall u {:trigger Emptied(s1.store[u])} | 0 <= u < |s1.store|
      ensures Emptied(s1.store[u])
    {
      assert Emptied(s.store[u]);
    }
  }

  lemma SettlingEmpties(s: ProcessorState, op: Op)
    requires Inv(s) && Legal(s, op) && !s.quitting && Settles(op) && AllEmptied(s)
    ensures Step(s, op).Some? && AllEmptied(Step(s, op).value)
  {
    hide Inv, Step, Legal;
    StepSettles(s, op);
    assert Emptied(s.store[Target(s, op)]);
    OnlyOneChanged(s, Step(s, op).value, Target(s, op));
  }

  lemma FailureEmpties(s: ProcessorState, k: Key)
    requires Core(s) && Legal(s, OpActionReturns(k, false, true)) && !s.quitting && AllEmptied(s)
    ensures AllEmptied(ActionReturns(s, k, false, true))
  {
    FailedActionClosed(s, k);
    assert Emptied(Lookup(s, k));
    hide ActionReturns, TaskCompleted, Cancel, Core;
    OnlyOneChanged(s, ActionReturns(s, k, false, true), s.table[k]);
  }

  lemma CancelStepEmpties(s: ProcessorState, k: Key)
    requires Core(s) && Live(s, k) && !s.quitting && AllEmptied(s)
    ensures AllEmptied(Cancel(s, k))
  {
    CancelClosed(s, k);
    assert Emptied(Lookup(s, k));
    hide Cancel, Core;
    OnlyOneChanged(s, Cancel(s, k), s.table[k]);
  }

  lemma AddTaskEmpties(s: ProcessorState, k: Key, t: Task)
    requires Core(s) && Legal(s, OpAddTask(k, t)) && AllEmptied(s) && Disciplined(s, OpAddTask(k, t))
    ensures AllEmptied(AddTask(s, k, t))
  {
    var q := Lookup(s, k);
    assert LogAgrees(q);
    FlagIsHistory(q.log);
    assert !q.cancelled;
    var idle := AddTaskClosed(s, k, t);
    hide AddTask, Core, LogAgrees;
    OnlyOneChanged(s, AddTask(s, k, t), s.table[k]);
  }

  lemma StartEmpties(s: ProcessorState, k: Key, present: bool)
    requires Live(s, k) && AllEmptied(s)
    ensures AllEmptied(Start(s, k)) && AllEmptied(SetFinally(s, k, present))
  {
    assert Emptied(Lookup(s, k));
  }

  lemma AddQueueEmpties(s: ProcessorState, k: Key, flags: Flags, client: Client)
    requires AllEmptied(s)
    ensures AllEmptied(AddQueue(s, k, flags, client))
  {
    forall u {:trigger Emptied(AddQueue(s, k, flags, client).store[u])} | 0 <= u <= |s.store|
      ensures Emptied(AddQueue(s, k, flags, client).store[u])
    {
      assert u < |s.store| ==> Emptied(s.store[u]);
    }
  }

  lemma RemovalEmpties(s: ProcessorState, sel: Selector, order: seq<Key>)
    requires Core(s) && !s.quitting && Enumerates(order, s.table) && AllEmptied(s)
    ensures AllEmptied(RemoveQueues(s, sel, order))
  {
    var f := RemoveQueues(s, sel, order);
    RemovalClosedForm(s, sel, order);
    hide RemoveQueues, Core, SweptQueue;
    forall u {:trigger Emptied(f.store[u])} | 0 <= u < |f.store|
      ensures Emptied(f.store[u])
    {
      assert Emptied(s.store[u]);
      SweepEmpties(s.store[u], sel);
    }
  }

  /** Under the rule every step is clean, and leaves cancelled queues empty. */
  lemma StepKeepsEmptied(s: ProcessorState, op: Op)
    requires Inv(s) && Legal(s, op) && !s.quitting && AllEmptied(s) && Disciplined(s, op)
    ensures Clean(s, op) && Step(s, op).Some? && AllEmptied(Step(s, op).value)
  {
    hide Core, Agrees, AllEmptied, Clean;
    EmptiedIsClean(s, op);
    if Settles(op) {
      SettlingEmpties(s, op);
    } else {
      hide AddTask, RemoveQueues, Start, Cancel, ActionReturns, AddQueue, SetFinally;
      match op
      case OpAddQueue(k, flags, client) => AddQueueEmpties(s, k, flags, client);
      case OpSetFinally(k, present) => StartEmpties(s, k, present);
      case OpAddTask(k, t) => AddTaskEmpties(s, k, t);
      case OpStart(k) => StartEmpties(s, k, false);
      case OpActionReturns(k, hasAction, failed) => FailureEmpties(s, k);
      case OpCancel(k) => CancelStepEmpties(s, k);
      case OpRemove(sel, order) => RemovalEmpties(s, sel, order);
    }
  }

  // ---------------------------------------------------------------------
  // Runs and plays
  // ---------------------------------------------------------------------

  /** A run in which callers are only asked to be disciplined; Refused when one is not. */
  ghost function Perform(s: ProcessorState, ops: seq<Op>): Outcome
    decreases |ops|
  {
    if ops == [] then Done(s)
    else if !Legal(s, ops[0]) || !Disciplined(s, ops[0]) then Refused
    else match Step(s, ops[0])
         case None => Crash
         case Some(s1) => Perform(s1, ops[1..])
  }

  /** Disciplined runs never crash, and are runs in the sense of Runs. */
  lemma {:induction false} DisciplinedRunsAreSafe(s: ProcessorState, ops: seq<Op>)
    requires Inv(s) && !s.quitting && AllEmptied(s)
    ensures !Perform(s, ops).Crash?
    ensures Perform(s, ops).Done? ==>
              var f := Perform(s, ops).state; Run(s, ops) == Done(f) && Inv(f) && !f.quitting && AllEmptied(f)
    decreases |ops|
  {
    hide Inv, Step, Legal, Clean, Disciplined, AllEmptied;
    if ops != [] && Legal(s, ops[0]) && Disciplined(s, ops[0]) {
      StepKeepsEmptied(s, ops[0]);
      StepKeepsInvIff(s, ops[0]);
      DisciplinedRunsAreSafe(Step(s, ops[0]).value, ops[1..]);
    }
  }

  /** A move that keeps the rules of its client, and the rule above; removals are not restricted. */
  ghost predicate Allowed(s: ProcessorState, calls: map<Task, Call>, m: Move) {
    match m
    case Ask(op) =>
      && !op.OpActionReturns? && !op.OpReplyBegins? && !op.OpReplyEnds? && !op.OpPlainCompleted?
      && Legal(s, op) && Disciplined(s, op)
    case _ => Permitted(s, calls, m)
  }

  /** A play of allowed moves; Broken also when a removal would leave an idle source behind. */
  ghost function PlayAllowed(s: ProcessorState, calls: map<Task, Call>, moves: seq<Move>): Played
    decreases |moves|
  {
    if moves == [] then Playing(s, calls)
    else if !Allowed(s, calls, moves[0]) then NotPermitted
    else if !Permitted(s, calls, moves[0]) || !Sound(s, calls, moves[0]) then Broken
    else match Step(s, OpOf(s, calls, moves[0]))
         case None => Broken
         case Some(s1) => PlayAllowed(s1, Struck(s1, Noted(s, calls, moves[0])), moves[1..])
  }

  lemma MoveKeepsEmptied(s: ProcessorState, calls: map<Task, Call>, m: Move)
    requires Inv(s) && !s.quitting && Tracks(s, calls) && AllEmptied(s) && Allowed(s, calls, m)
    ensures Permitted(s, calls, m) && Sound(s, calls, m)
    ensures var op := OpOf(s, calls, m);
            && Step(s, op).Some?
            && var s1 := Step(s, op).value;
               Inv(s1) && !s1.quitting && AllEmptied(s1) && Tracks(s1, Struck(s1, Noted(s, calls, m)))
  {
    hide Inv, Tracks, AllEmptied, Clean, Legal, Step;
    if m.Ask? {
      StepKeepsEmptied(s, m.op);
    }
    MoveKeepsTracks(s, calls, m);
    StepKeepsEmptied(s, OpOf(s, calls, m));
  }

  /**
   Over every interleaving of calls, dispatches, reports, cancels and removals in which
   callers keep the rule: every report meets its own task, and no dispatch crashes.
   */
  lemma {:induction false} AllowedPlaysAreSound(s: ProcessorState, calls: map<Task, Call>, moves: seq<Move>)
    requires Inv(s) && !s.quitting && Tracks(s, calls) && AllEmptied(s)
    ensures var p := PlayAllowed(s, calls, moves);
            && !p.Broken?
            && (p.Playing? ==> p == Play(s, calls, moves) && Inv(p.state) && Tracks(p.state, p.calls))
    decreases |moves|
  {
    hide Inv, Tracks, AllEmptied, Permitted, Legal, Meets, Step, Allowed;
    if moves != [] && Allowed(s, calls, moves[0]) {
      MoveKeepsEmptied(s, calls, moves[0]);
      var s1 := Step(s, OpOf(s, calls, moves[0])).value;
      AllowedPlaysAreSound(s1, Struck(s1, Noted(s, calls, moves[0])), moves[1..]);
    }
  }

  lemma NothingToEmpty()
    ensures Inv(INITIAL) && !INITIAL.quitting && Tracks(INITIAL, map[]) && AllEmptied(INITIAL)
  {
  }
}
