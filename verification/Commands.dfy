/**
 What callers asked for is what happens: a queue keeps the make it was added with, its
 finally callback runs exactly if one was set, and it starts nothing that nobody asked for.
 The statements speak of the operations of a run and of callbacks made, not of fields.
 */
module Commands {
  import opened Protocol
  import opened Scheduler
  import opened Invariant
  import opened Removal
  import opened Histories
  import opened Shutdown
  import opened Runs
  import opened Progress
  import opened Settling

  // ---------------------------------------------------------------------
  // The finally callback
  // ---------------------------------------------------------------------

  ghost predicate SameFinally(s: ProcessorState, s1: ProcessorState) {
    && |s.store| <= |s1.store|
    && (forall u {:trigger s1.store[u]} | 0 <= u < |s.store| :: s1.store[u].hasFinally == s.store[u].hasFinally)
    && (forall u | |s.store| <= u < |s1.store| :: !s1.store[u].hasFinally)
  }

  lemma SettlingKeepsFinally(s: ProcessorState, op: Op)
    requires Inv(s) && Legal(s, op) && !s.quitting && Settles(op)
    ensures Step(s, op).Some? && SameFinally(s, Step(s, op).value)
  {
    hide Inv, Step, Legal;
    StepSettles(s, op);
  }

  lemma FailureKeepsFinally(s: ProcessorState, k: Key)
    requires Core(s) && Legal(s, OpActionReturns(k, false, true)) && !s.quitting
    ensures SameFinally(s, ActionReturns(s, k, false, true))
  {
    FailedActionClosed(s, k);
    hide ActionReturns, TaskCompleted, Cancel, Core;
  }

  lemma CancelKeepsFinally(s: ProcessorState, k: Key)
    requires Core(s) && Live(s, k) && !s.quitting
    ensures SameFinally(s, Cancel(s, k))
  {
    CancelClosed(s, k);
    hide Cancel, Core;
  }

  lemma AddTaskKeepsFinally(s: ProcessorState, k: Key, t: Task)
    requires Live(s, k)
    ensures SameFinally(s, AddTask(s, k, t))
  {
    var idle := AddTaskClosed(s, k, t);
    hide AddTask;
  }

  lemma SweptKeepsFinally(q: QueueState, sel: Selector)
    ensures SweptQueue(sel, q).hasFinally == q.hasFinally
  {
  }

  lemma RemovalKeepsFinally(s: ProcessorState, sel: Selector, order: seq<Key>)
    requires Core(s) && !s.quitting && Enumerates(order, s.table)
    ensures SameFinally(s, RemoveQueues(s, sel, order))
  {
    RemovalClosedForm(s, sel, order);
    hide RemoveQueues, Core, SweptQueue;
    forall u | 0 <= u < |s.store|
      ensures SweptQueue(sel, s.store[u]).hasFinally == s.store[u].hasFinally
    {
      SweptKeepsFinally(s.store[u], sel);
    }
  }

  lemma SmallKeepsFinally(s: ProcessorState, k: Key, flags: Flags, client: Client)
    ensures SameFinally(s, AddQueue(s, k, flags, client))
    ensures Live(s, k) ==> SameFinally(s, Start(s, k))
  {
  }

  /** Nothing but set_finally changes whether a queue has a finally callback, and a new queue has none. */
  lemma StepKeepsFinally(s: ProcessorState, op: Op)
    requires Inv(s) && Legal(s, op) && !s.quitting && !op.OpSetFinally?
    ensures Step(s, op).Some? && SameFinally(s, Step(s, op).value)
  {
    hide Core, Agrees, SameFinally, AddTask, Start, Cancel, RemoveQueues, ActionReturns, AddQueue;
    if Settles(op) {
      SettlingKeepsFinally(s, op);
    } else {
      match op
      case OpAddQueue(k, flags, client) => SmallKeepsFinally(s, k, flags, client);
      case OpAddTask(k, t) => AddTaskKeepsFinally(s, k, t);
      case OpStart(k) => SmallKeepsFinally(s, k, Lookup(s, k).flags, ServiceTasks);
      case OpActionReturns(k, hasAction, failed) => FailureKeepsFinally(s, k);
      case OpCancel(k) => CancelKeepsFinally(s, k);
      case OpRemove(sel, order) => RemovalKeepsFinally(s, sel, order);
    }
  }

  /** No finally callback is set on k, or taken away from it. */
  ghost predicate LeavesFinally(ops: seq<Op>, k: Key) {
    forall i | 0 <= i < |ops| && ops[i].OpSetFinally? :: ops[i].key != k
  }

  lemma StepKeepsOneFinally(s: ProcessorState, op: Op, u: nat)
    requires Inv(s) && Legal(s, op) && !s.quitting && u < |s.store|
    requires op.OpSetFinally? ==> op.key != s.store[u].key
    ensures Step(s, op).Some? && u < |Step(s, op).value.store|
    ensures Step(s, op).value.store[u].hasFinally == s.store[u].hasFinally
    ensures Step(s, op).value.store[u].key == s.store[u].key
  {
    StepEvolves(s, op);
    assert Later(s.store[u], Step(s, op).value.store[u]);
    if op.OpSetFinally? {
      assert s.table[op.key] != u;
    } else {
      StepKeepsFinally(s, op);
    }
  }

  lemma {:induction false} FinallyStays(s: ProcessorState, ops: seq<Op>, u: nat)
    requires Inv(s) && !s.quitting && Run(s, ops).Done? && u < |s.store| && LeavesFinally(ops, s.store[u].key)
    ensures u < |Run(s, ops).state.store| && Run(s, ops).state.store[u].hasFinally == s.store[u].hasFinally
    decreases |ops|
  {
    hide Inv, Step, Legal, Clean;
    if ops != [] {
      StepKeepsOneFinally(s, ops[0], u);
      StepKeepsInvIff(s, ops[0]);
      FinallyStays(Step(s, ops[0]).value, ops[1..], u);
    }
  }

  ghost predicate EndsInFinally(log: seq<Event>) {
    log != [] && log[|log| - 1].Finally?
  }

  ghost predicate HasFinally(log: seq<Event>) {
    exists i :: 0 <= i < |log| && log[i].Finally?
  }

  /** A queue's finally callback, once the queue is freed: run last, if it was set, and not at all if it was not. */
  ghost predicate FinallyAs(q: QueueState, present: bool) {
    && (q.freed && present ==> EndsInFinally(q.log))
    && (!q.freed || !present ==> !HasFinally(q.log))
  }

  lemma FinallyFollowsField(q: QueueState)
    requires LogAgrees(q)
    ensures FinallyAs(q, q.hasFinally)
  {
    FinallyRunsOnce(q);
  }

  /** Where a shutdown that delivers takes q. */
  lemma FinallyAfterShutdown(s: ProcessorState, order: seq<Key>, u: nat)
    requires Core(s) && Quiescent(s) && Enumerates(order, s.table) && u < |s.store|
    ensures var f := SetQuitting(s, order);
            u < |f.store| && f.store[u].freed && FinallyAs(f.store[u], s.store[u].hasFinally)
  {
    hide SetQuitting, Quiescent, Finished;
    ShutdownDelivers(s, order);
    ShutdownCleanIff(s, order);
    var q := SetQuitting(s, order).store[u];
    assert Finished(q);
    FinallyFollowsField(q);
  }

  /** A queue's finally callback is decided by its field now, if nobody sets it later. */
  lemma FinallyFrom(s: ProcessorState, after: seq<Op>, u: nat)
    requires Inv(s) && !s.quitting && Run(s, after).Done? && u < |s.store| && LeavesFinally(after, s.store[u].key)
    ensures var f := Run(s, after).state;
            && u < |f.store| && f.store[u].hasFinally == s.store[u].hasFinally
            && Core(f) && FinallyAs(f.store[u], s.store[u].hasFinally)
  {
    var f := Run(s, after).state;
    RunsAreSafe(s, after);
    CoreOf(f);
    hide Inv, Run, FinallyAs;
    FinallyStays(s, after, u);
    assert LogAgrees(f.store[u]);
    FinallyFollowsField(f.store[u]);
  }

  /**
   After set_finally, in every run that does not set it again on that key: the queue's
   finally callback runs when the queue is freed if one was given, else never; and so it
   does when the run ends in a shutdown.
   */
  lemma FinallyRunsAsSet(before: seq<Op>, k: Key, present: bool, after: seq<Op>)
    requires Run(INITIAL, before).Done? && Live(Run(INITIAL, before).state, k)
    requires Run(SetFinally(Run(INITIAL, before).state, k, present), after).Done? && LeavesFinally(after, k)
    ensures var u := Run(INITIAL, before).state.table[k];
            var f := Run(SetFinally(Run(INITIAL, before).state, k, present), after).state;
            && u < |f.store| && FinallyAs(f.store[u], present)
            && (Quiescent(f) ==> forall order | Enumerates(order, f.table) ::
                  var e := SetQuitting(f, order); u < |e.store| && e.store[u].freed && FinallyAs(e.store[u], present))
  {
    var s := Run(INITIAL, before).state;
    var f := Run(SetFinally(s, k, present), after).state;
    InitialHolds();
    RunsAreSafe(INITIAL, before);
    StepKeepsInvIff(s, OpSetFinally(k, present));
    hide Inv, SetFinally, Run, SetQuitting, FinallyAs, Enumerates, Quiescent;
    FinallyFrom(SetFinally(s, k, present), after, s.table[k]);
    if Quiescent(f) {
      forall order | Enumerates(order, f.table)
        ensures var e := SetQuitting(f, order);
                s.table[k] < |e.store| && e.store[s.table[k]].freed && FinallyAs(e.store[s.table[k]], present)
      {
        FinallyAfterShutdown(f, order, s.table[k]);
      }
    }
  }

  /** A queue on which no finally callback was ever set runs none. */
  lemma NoFinallyUnasked(before: seq<Op>, k: Key, flags: Flags, client: Client, after: seq<Op>)
    requires Run(INITIAL, before).Done? && k !in Run(INITIAL, before).state.table
    requires Run(AddQueue(Run(INITIAL, before).state, k, flags, client), after).Done? && LeavesFinally(after, k)
    ensures var u := |Run(INITIAL, before).state.store|;
            var f := Run(AddQueue(Run(INITIAL, before).state, k, flags, client), after).state;
            u < |f.store| && !HasFinally(f.store[u].log)
  {
    var s := Run(INITIAL, before).state;
    InitialHolds();
    RunsAreSafe(INITIAL, before);
    StepKeepsInvIff(s, OpAddQueue(k, flags, client));
    var s1 := AddQueue(s, k, flags, client);
    assert s1.store[|s.store|].key == k && !s1.store[|s.store|].hasFinally;
    hide Inv, Run, AddQueue, SetQuitting, Enumerates, Quiescent;
    FinallyFrom(s1, after, |s.store|);
  }

  // ---------------------------------------------------------------------
  // What a queue is
  // ---------------------------------------------------------------------

  /** A queue keeps the key, flags and client it was added with, in every run. */
  lemma QueueKeepsItsMake(before: seq<Op>, k: Key, flags: Flags, client: Client, after: seq<Op>)
    requires Run(INITIAL, before).Done? && k !in Run(INITIAL, before).state.table
    requires Run(AddQueue(Run(INITIAL, before).state, k, flags, client), after).Done?
    ensures var s, u := Run(INITIAL, before).state, |Run(INITIAL, before).state.store|;
            var f := Run(AddQueue(s, k, flags, client), after).state;
            && u < |f.store| && f.store[u].key == k && f.store[u].flags == flags && f.store[u].client == client
            && (f.store[u].freed || (k in f.table && f.table[k] == u))
  {
    var s, u := Run(INITIAL, before).state, |Run(INITIAL, before).state.store|;
    InitialHolds();
    RunsAreSafe(INITIAL, before);
    StepKeepsInvIff(s, OpAddQueue(k, flags, client));
    var s1 := AddQueue(s, k, flags, client);
    assert s1.store[u].key == k && s1.store[u].flags == flags && s1.store[u].client == client;
    RunEvolves(s1, after);
    RunsAreSafe(s1, after);
    var f := Run(s1, after).state;
    assert Later(s1.store[u], f.store[u]);
    hide Inv, Run, AddQueue;
  }

  // ---------------------------------------------------------------------
  // Removal by name
  // ---------------------------------------------------------------------

  /** What becomes of a queue in a removal that is, or is not, about it. */
  ghost predicate Removed(about: bool, q: QueueState, f: QueueState) {
    if q.freed || !about then f == q
    else f.freed || (f.deferRemove && f.current == q.current && q.current.Running? && !IsWaiting(q))
  }

  lemma SweptByName(q: QueueState, sel: Selector)
    requires Shaped(q)
    ensures sel.BySource? ==> Removed(q.key.source == sel.name, q, SweptQueue(sel, q))
    ensures sel.BySink? ==> Removed(q.key.sink == sel.name, q, SweptQueue(sel, q))
  {
  }

  /**
   At any point outside shutdown, and in any visiting order: a removal by source takes the
   queues with that source, a removal by sink those with that sink, and no other.  A queue
   it takes is freed, or, when its task cannot be ended at once, left to be freed with it.
   */
  lemma RemovalByName(s: ProcessorState, name: string, order: seq<Key>, u: nat)
    requires Core(s) && !s.quitting && Enumerates(order, s.table) && u < |s.store|
    ensures var f := RemoveQueues(s, BySource(name), order);
            |f.store| == |s.store| && Removed(s.store[u].key.source == name, s.store[u], f.store[u])
    ensures var f := RemoveQueues(s, BySink(name), order);
            |f.store| == |s.store| && Removed(s.store[u].key.sink == name, s.store[u], f.store[u])
  {
    assert Shaped(s.store[u]);
    RemovalClosedForm(s, BySource(name), order);
    RemovalClosedForm(s, BySink(name), order);
    SweptByName(s.store[u], BySource(name));
    SweptByName(s.store[u], BySink(name));
    hide RemoveQueues, Core, SweptQueue, Removed, Shaped;
  }

  /** When all running tasks wait for replies exactly the queues of another source, or sink, stay. */
  lemma RemovalByNameAtRest(s: ProcessorState, name: string, order: seq<Key>)
    requires Core(s) && !s.quitting && Quiescent(s) && Enumerates(order, s.table)
    ensures forall k :: k in RemoveQueues(s, BySource(name), order).table <==> k in s.table && k.source != name
    ensures forall k :: k in RemoveQueues(s, BySink(name), order).table <==> k in s.table && k.sink != name
  {
    hide RemoveQueues, Core, Quiescent;
    SelectiveRemoval(s, BySource(name), order);
    SelectiveRemoval(s, BySink(name), order);
  }

  // ---------------------------------------------------------------------
  // Cancelling
  // ---------------------------------------------------------------------

  lemma {:induction false} FlushTellsAll(ts: seq<Task>)
    ensures forall t | t in ts :: CancelCb(t) in FlushLog(ts) && DeleteCb(t) in FlushLog(ts)
  {
    if ts != [] {
      FlushTellsAll(ts[..|ts| - 1]);
      assert ts == ts[..|ts| - 1] + [ts[|ts| - 1]];
    }
  }

  /** The log of a queue after a first cancel: the call, and for each task the callbacks that tell its client. */
  ghost predicate CancelTold(q: QueueState, log: seq<Event>) {
    && |q.log| < |log| && log[..|q.log|] == q.log && log[|q.log|] == CancelCall
    && (forall t | t in q.tasks :: CancelCb(t) in log && DeleteCb(t) in log)
    && (q.current.Running? ==> CancelCb(q.current.task) in log)
  }

  lemma CutTells(q: QueueState)
    ensures CancelTold(q, Cut(q).log)
  {
    FlushTellsAll(q.tasks);
  }

  lemma ToldLater(q: QueueState, log: seq<Event>, more: seq<Event>)
    requires CancelTold(q, log)
    ensures CancelTold(q, log + more)
  {
    assert (log + more)[..|q.log|] == log[..|q.log|];
  }

  lemma CancelledTells(q: QueueState)
    requires !q.cancelled
    ensures CancelTold(q, CancelledQueue(q).log) && CancelTold(q, FreeQueue(CancelledQueue(q)).log)
  {
    CutTells(q);
    var c := CancelledQueue(q);
    if IsWaiting(q) {
      ToldLater(q, Cut(q).log, [Completed(q.current.task)]);
      ToldLater(q, Cut(q).log + [Completed(q.current.task)], [DeleteCb(q.current.task)]);
    }
    ToldLater(q, c.log, DeleteLog(c.tasks));
    ToldLater(q, c.log + DeleteLog(c.tasks), if c.hasFinally then [Finally(c.cancelled)] else []);
    hide CancelTold;
  }

  /**
   A cancel of a queue not marked cancelled tells the client of every pending task and of
   the current one, and leaves nothing pending; of a queue so marked it changes nothing but
   that the call was made.
   */
  lemma CancelTellsAll(s: ProcessorState, k: Key)
    requires TableAgrees(s.store, s.table) && Live(s, k) && !s.quitting
    ensures var q, q1 := Lookup(s, k), Cancel(s, k).store[s.table[k]];
            if q.cancelled then q1 == q.(log := q.log + [CancelCall])
            else q1.tasks == [] && q1.cancelled && CancelTold(q, q1.log)
  {
    CancelClosed(s, k);
    hide Cancel, TableAgrees;
    if !Lookup(s, k).cancelled {
      CancelledTells(Lookup(s, k));
      hide CancelTold;
    }
  }

  /** Outside shutdown a cancel takes a queue away just if it is AUTO_REMOVE, unmarked, and can end at once. */
  lemma CancelTakesIff(s: ProcessorState, k: Key)
    requires Core(s) && Live(s, k) && !s.quitting
    ensures var q := Lookup(s, k);
            k !in Cancel(s, k).table <==>
              !q.cancelled && q.flags.autoRemove && (q.current.Running? ==> q.current.phase == Waiting)
  {
    assert Shaped(Lookup(s, k));
    CancelClosed(s, k);
    hide Cancel;
  }

  /**
   A failing action on a queue of any kind, not cancelled before: every later task is told
   and deleted, the failed task is complete, nothing is pending, and the queue is gone if it
   was AUTO_REMOVE.
   */
  lemma FailureTellsAll(s: ProcessorState, k: Key)
    requires Core(s) && !s.quitting && Legal(s, OpActionReturns(k, false, true)) && !Lookup(s, k).cancelled
    ensures var q, q1 := Lookup(s, k), ActionReturns(s, k, false, true).store[s.table[k]];
            && q1.tasks == [] && q1.current.Idle? && CancelTold(q, q1.log)
            && Completed(q.current.task) in q1.log && DeleteCb(q.current.task) in q1.log
            && (q1.freed <==> q.flags.autoRemove)
  {
    var q := Lookup(s, k);
    assert Shaped(q);
    FailedActionClosed(s, k);
    hide ActionReturns, TaskCompleted, Cancel, Core;
    CancelledTells(q);
    var c := CancelledQueue(q);
    ToldLater(q, c.log, [Completed(q.current.task)]);
    ToldLater(q, c.log + [Completed(q.current.task)], [DeleteCb(q.current.task)]);
    var e := EndCurrent(c);
    ToldLater(q, e.log, DeleteLog(e.tasks));
    ToldLater(q, e.log + DeleteLog(e.tasks), if e.hasFinally then [Finally(e.cancelled)] else []);
    hide CancelTold;
  }
}
