/**
 Cancelling one queue and removing queues by source or sink, in closed form.
 The closed form does not mention the visiting order, so neither does the result.
 */
module Removal {
  import opened Protocol
  import opened Sums
  import opened Scheduler
  import opened Invariant

  // ---------------------------------------------------------------------
  // One cancel in closed form
  // ---------------------------------------------------------------------

  /** What a cancel makes of a queue that stays in the table. */
  function CancelledQueue(q: QueueState): QueueState {
    if q.cancelled then q.(log := q.log + [CancelCall])
    else if IsWaiting(q) then EndCurrent(Cut(q))
    else Cut(q)
  }

  /** Does a cancel also take the queue out of the table? */
  predicate CancelFrees(q: QueueState) {
    && !q.cancelled
    && (q.current.Idle? || IsWaiting(q))
    && (q.flags.autoRemove || (q.deferRemove && IsWaiting(q)))
  }

  function SourcesAfterCut(q: QueueState, sources: map<nat, nat>): map<nat, nat> {
    if !q.cancelled && q.idle != 0 then sources - {q.idle} else sources
  }

  /** The cancel does not report the last running task of a quitting processor. */
  predicate KeepsGoing(s: ProcessorState, q: QueueState) {
    !(s.quitting && s.running == 1 && !q.cancelled && IsWaiting(q))
  }

  lemma CancelClosed(s: ProcessorState, k: Key)
    requires TableAgrees(s.store, s.table) && Live(s, k) && KeepsGoing(s, Lookup(s, k))
    ensures var u, q := s.table[k], Lookup(s, k);
            var c := CancelledQueue(q);
            Cancel(s, k) == s.(
              store := s.store[u := if CancelFrees(q) then FreeQueue(c) else c],
              table := if CancelFrees(q) then s.table - {k} else s.table,
              running := if !q.cancelled && IsWaiting(q) then s.running - 1 else s.running,
              sources := SourcesAfterCut(q, s.sources))
  {
    var u, q := s.table[k], Lookup(s, k);
    var s1 := CutQueue(s, k);
    if !q.cancelled {
      if IsWaiting(q) {
        var s2 := EndTask(s1, k);
        assert s2.store == s.store[u := EndCurrent(Cut(q))];
        assert !(s2.quitting && s2.running == 0);
        assert s2.store[u := FreeQueue(EndCurrent(Cut(q)))] == s.store[u := FreeQueue(EndCurrent(Cut(q)))];
      } else {
        assert s1.store[u := FreeQueue(Cut(q))] == s.store[u := FreeQueue(Cut(q))];
      }
    }
  }

  // ---------------------------------------------------------------------
  // One visit of a removal sweep in closed form
  // ---------------------------------------------------------------------

  predicate Chosen(sel: Selector, q: QueueState) {
    !q.freed && Selects(sel, q.key) && !q.deferRemove
  }

  /** What a removal makes of a chosen queue: freed, unless its task has to end by itself first. */
  function RemovedQueue(q: QueueState): QueueState {
    var c := CancelledQueue(q.(deferRemove := q.current.Running?));
    if c.current.Running? then c else FreeQueue(c)
  }

  function SweptQueue(sel: Selector, q: QueueState): QueueState {
    if Chosen(sel, q) then RemovedQueue(q) else q
  }

  lemma CancelThenRemoveClosed(s: ProcessorState, k: Key)
    requires TableAgrees(s.store, s.table) && Live(s, k) && Lookup(s, k).current.Idle?
    ensures var q := Lookup(s, k);
            RemoveQueue(Cancel(s, k), k) == s.(
              store := s.store[s.table[k] := FreeQueue(CancelledQueue(q))],
              table := s.table - {k},
              sources := SourcesAfterCut(q, s.sources))
  {
    var u, q := s.table[k], Lookup(s, k);
    CancelClosed(s, k);
    if CancelFrees(q) {
      assert !Live(Cancel(s, k), k);
    } else {
      assert s.store[u := CancelledQueue(q)][u := FreeQueue(CancelledQueue(q))]
          == s.store[u := FreeQueue(CancelledQueue(q))];
    }
  }

  /** s after one visit of a removal sweep. */
  ghost predicate VisitedState(s: ProcessorState, sel: Selector, k: Key, f: ProcessorState)
    requires Live(s, k)
  {
    var u, q := s.table[k], Lookup(s, k);
    f == s.(
      store := s.store[u := SweptQueue(sel, q)],
      table := if SweptQueue(sel, q).freed then s.table - {k} else s.table,
      running := if Chosen(sel, q) && IsWaiting(q) then s.running - 1 else s.running,
      sources := if Chosen(sel, q) then SourcesAfterCut(q, s.sources) else s.sources)
  }

  lemma UpdateTwice<T>(ts: seq<T>, u: nat, a: T, b: T)
    requires u < |ts|
    ensures ts[u := a][u := b] == ts[u := b]
  {
  }

  lemma ChosenRunningClosed(s: ProcessorState, sel: Selector, k: Key)
    requires TableAgrees(s.store, s.table) && !s.quitting && Live(s, k)
    requires Chosen(sel, Lookup(s, k)) && Lookup(s, k).current.Running?
    requires IsWaiting(Lookup(s, k)) ==> !Lookup(s, k).cancelled
    ensures VisitedState(s, sel, k, Cancel(MarkDeferred(s, k), k))
  {
    var u, q := s.table[k], Lookup(s, k);
    var q1 := q.(deferRemove := true);
    TablePut(s.store, s.table, u, q1);
    UpdateTwice(s.store, u, q1, RemovedQueue(q));
    CancelClosed(MarkDeferred(s, k), k);
  }

  lemma ChosenIdleClosed(s: ProcessorState, sel: Selector, k: Key)
    requires TableAgrees(s.store, s.table) && !s.quitting && Live(s, k)
    requires Chosen(sel, Lookup(s, k)) && Lookup(s, k).current.Idle?
    ensures VisitedState(s, sel, k, RemoveQueue(Cancel(MarkDeferred(s, k), k), k))
  {
    var u, q := s.table[k], Lookup(s, k);
    var q1 := q.(deferRemove := false);
    TablePut(s.store, s.table, u, q1);
    UpdateTwice(s.store, u, q1, RemovedQueue(q));
    CancelThenRemoveClosed(MarkDeferred(s, k), k);
  }

  lemma RemoveSelectedClosed(s: ProcessorState, sel: Selector, k: Key)
    requires TableAgrees(s.store, s.table) && !s.quitting && Live(s, k)
    requires IsWaiting(Lookup(s, k)) ==> !Lookup(s, k).cancelled
    ensures VisitedState(s, sel, k, RemoveSelected(s, sel, k))
  {
    var q := Lookup(s, k);
    if !Chosen(sel, q) {
      assert s.store[s.table[k] := q] == s.store;
    } else if q.current.Running? {
      ChosenRunningClosed(s, sel, k);
    } else {
      ChosenIdleClosed(s, sel, k);
    }
  }

  lemma CancelThenRemoveKeepsCore(s: ProcessorState, k: Key)
    requires CoreExcept(s, k) && Cancellable(Lookup(s, k)) && Lookup(s, k).current.Idle?
    ensures Core(RemoveQueue(Cancel(s, k), k))
  {
    var q := Lookup(s, k);
    CancelKeepsCore(s, k);
    if Live(Cancel(s, k), k) {
      CancelClosed(s, k);
      assert LogAgrees(q);
      if q.cancelled {
        CancelCallAgrees(q);
      } else {
        CutAgrees(q);
      }
      RemoveKeepsCore(Cancel(s, k), k);
    }
  }

  lemma MarkDeferredKeeps(s: ProcessorState, k: Key)
    requires Core(s) && Live(s, k) && !Lookup(s, k).deferRemove
    ensures CoreExcept(MarkDeferred(s, k), k) && Cancellable(Lookup(MarkDeferred(s, k), k))
  {
    var q := Lookup(s, k);
    assert Shaped(q) && LogAgrees(q);
    PutKeepsBase(s, k, q.(deferRemove := q.current.Running?), s.running);
  }

  lemma RemoveSelectedKeepsCore(s: ProcessorState, sel: Selector, k: Key)
    requires Core(s) && Live(s, k)
    ensures Core(RemoveSelected(s, sel, k))
  {
    if Selects(sel, k) && !Lookup(s, k).deferRemove {
      MarkDeferredKeeps(s, k);
      if Lookup(s, k).current.Running? {
        CancelKeepsCore(MarkDeferred(s, k), k);
      } else {
        CancelThenRemoveKeepsCore(MarkDeferred(s, k), k);
      }
    }
  }

  // ---------------------------------------------------------------------
  // The whole sweep in closed form
  // ---------------------------------------------------------------------

  /** The source a sweep takes away from the main loop when it visits q. */
  predicate SweepUnschedules(sel: Selector, q: QueueState, sid: nat) {
    Chosen(sel, q) && !q.cancelled && q.idle == sid && sid != 0
  }

  ghost predicate Unscheduled(store: seq<QueueState>, sel: Selector, visited: set<Key>, sid: nat) {
    exists u :: 0 <= u < |store| && store[u].key in visited && SweepUnschedules(sel, store[u], sid)
  }

  /** s after a sweep that visits the keys in visited, in whatever order. */
  ghost predicate SweptState(s: ProcessorState, sel: Selector, visited: set<Key>, f: ProcessorState) {
    && f == s.(store := f.store, table := f.table, running := f.running, sources := f.sources)
    && |f.store| == |s.store|
    && (forall u | 0 <= u < |s.store| ::
          f.store[u] == if s.store[u].key in visited then SweptQueue(sel, s.store[u]) else s.store[u])
    && (forall sid :: sid in f.sources <==> sid in s.sources && !Unscheduled(s.store, sel, visited, sid))
    && (forall sid | sid in f.sources :: f.sources[sid] == s.sources[sid])
  }

  function KeysOf(order: seq<Key>): set<Key> {
    set k | k in order
  }

  lemma {:induction false} SweepClosed(s: ProcessorState, sel: Selector, order: seq<Key>)
    requires Core(s) && !s.quitting
    requires forall i, j | 0 <= i < j < |order| :: order[i] != order[j]
    requires forall k | k in order :: Live(s, k)
    ensures Core(RemoveQueues(s, sel, order))
    ensures SweptState(s, sel, KeysOf(order), RemoveQueues(s, sel, order))
    decreases |order|
  {
    hide RemoveSelected, SweptState, Core;
    assert KeysOf([]) == {};
    if order == [] {
      NothingSwept(s, sel);
    } else {
      var k, rest := order[0], order[1..];
      assert k in order;
      VisitSweeps(s, sel, k);
      SweepClosed(RemoveSelected(s, sel, k), sel, rest);
      SweepsCompose(s, sel, {k}, RemoveSelected(s, sel, k), KeysOf(rest), RemoveQueues(s, sel, order));
      assert KeysOf(order) == {k} + KeysOf(rest);
    }
  }

  lemma NothingSwept(s: ProcessorState, sel: Selector)
    ensures SweptState(s, sel, {}, s)
  {
  }

  lemma VisitSweeps(s: ProcessorState, sel: Selector, k: Key)
    requires Core(s) && !s.quitting && Live(s, k)
    ensures var s1 := RemoveSelected(s, sel, k);
            && Core(s1) && !s1.quitting && SweptState(s, sel, {k}, s1)
            && forall k' | k' != k && Live(s, k') :: Live(s1, k')
  {
    assert Shaped(Lookup(s, k));
    RemoveSelectedClosed(s, sel, k);
    RemoveSelectedKeepsCore(s, sel, k);
    VisitIsSweep(s, sel, k, RemoveSelected(s, sel, k));
  }

  lemma VisitIsSweep(s: ProcessorState, sel: Selector, k: Key, f: ProcessorState)
    requires TableAgrees(s.store, s.table) && Live(s, k) && VisitedState(s, sel, k, f)
    ensures SweptState(s, sel, {k}, f)
    ensures forall k' | k' != k && Live(s, k') :: Live(f, k')
  {
    var u, q := s.table[k], Lookup(s, k);
    assert forall v | 0 <= v < |s.store| && s.store[v].key == k && v != u :: s.store[v].freed;
    forall sid
      ensures Unscheduled(s.store, sel, {k}, sid) <==> SweepUnschedules(sel, q, sid)
    {
      if SweepUnschedules(sel, q, sid) {
        assert s.store[u].key in {k};
      }
    }
  }

  lemma SweepsCompose(s: ProcessorState, sel: Selector, v1: set<Key>, s1: ProcessorState,
                      v2: set<Key>, s2: ProcessorState)
    requires SweptState(s, sel, v1, s1) && SweptState(s1, sel, v2, s2) && v1 !! v2
    ensures SweptState(s, sel, v1 + v2, s2)
  {
    assert forall u | 0 <= u < |s.store| :: s1.store[u].key == s.store[u].key;
    forall sid
      ensures Unscheduled(s.store, sel, v1 + v2, sid)
              <==> Unscheduled(s.store, sel, v1, sid) || Unscheduled(s1.store, sel, v2, sid)
    {
      if u :| 0 <= u < |s.store| && s.store[u].key in v1 + v2 && SweepUnschedules(sel, s.store[u], sid) {
        assert s.store[u].key in v2 ==> s1.store[u] == s.store[u];
      }
    }
  }

  // ---------------------------------------------------------------------
  // remove_queues_for_source and remove_queues_for_sink
  // ---------------------------------------------------------------------

  /** A cancelled queue that was scheduled again: freeing it leaves its idle source with a dangling queue. */
  predicate Orphans(sel: Selector, q: QueueState) {
    Chosen(sel, q) && q.cancelled && q.idle != 0
  }

  /** f is s with every queue swept: no visiting order in sight. */
  ghost predicate RemovalResult(s: ProcessorState, sel: Selector, f: ProcessorState) {
    && f == s.(store := f.store, table := f.table, running := f.running, sources := f.sources)
    && |f.store| == |s.store|
    && (forall u | 0 <= u < |s.store| :: f.store[u] == SweptQueue(sel, s.store[u]))
    && (forall sid :: sid in f.sources <==> sid in s.sources && !UnscheduledBy(s.store, sel, sid))
    && (forall sid | sid in f.sources :: f.sources[sid] == s.sources[sid])
  }

  ghost predicate UnscheduledBy(store: seq<QueueState>, sel: Selector, sid: nat) {
    exists u :: 0 <= u < |store| && SweepUnschedules(sel, store[u], sid)
  }

  /** Whatever the visiting order, a removal does to each queue what SweptQueue says, and nothing else. */
  lemma RemovalClosedForm(s: ProcessorState, sel: Selector, order: seq<Key>)
    requires Core(s) && !s.quitting && Enumerates(order, s.table)
    ensures Core(RemoveQueues(s, sel, order)) && RemovalResult(s, sel, RemoveQueues(s, sel, order))
  {
    SweepClosed(s, sel, order);
    AllSwept(s, sel, KeysOf(order), RemoveQueues(s, sel, order));
  }

  lemma AllSwept(s: ProcessorState, sel: Selector, visited: set<Key>, f: ProcessorState)
    requires TableAgrees(s.store, s.table) && visited == s.table.Keys && SweptState(s, sel, visited, f)
    ensures RemovalResult(s, sel, f)
  {
    forall u | 0 <= u < |s.store|
      ensures s.store[u].freed || s.store[u].key in visited
    {
    }
    forall sid
      ensures Unscheduled(s.store, sel, visited, sid) <==> UnscheduledBy(s.store, sel, sid)
    {
    }
  }

  /**
   A removal keeps the agreement with the main loop exactly when it does not hit a
   queue that was cancelled, given new work, and is scheduled but not yet dispatched.
   */
  lemma RemovalAgreesIff(s: ProcessorState, sel: Selector, order: seq<Key>)
    requires Inv(s) && !s.quitting && Enumerates(order, s.table)
    ensures Inv(RemoveQueues(s, sel, order)) <==> forall u | 0 <= u < |s.store| :: !Orphans(sel, s.store[u])
  {
    RemovalClosedForm(s, sel, order);
    if u :| 0 <= u < |s.store| && Orphans(sel, s.store[u]) {
      OrphanDangles(s, sel, RemoveQueues(s, sel, order), u);
    } else {
      NoOrphansAgree(s, sel, RemoveQueues(s, sel, order));
    }
  }

  lemma OrphanDangles(s: ProcessorState, sel: Selector, f: ProcessorState, u: nat)
    requires Agrees(s) && RemovalResult(s, sel, f)
    requires u < |s.store| && Orphans(sel, s.store[u]) && Shaped(s.store[u])
    ensures var sid := s.store[u].idle; sid in f.sources && f.sources[sid] == u && f.store[u].freed
    ensures !Agrees(f)
  {
    var sid := s.store[u].idle;
    forall v | 0 <= v < |s.store|
      ensures !SweepUnschedules(sel, s.store[v], sid)
    {
    }
  }

  lemma NoOrphansAgree(s: ProcessorState, sel: Selector, f: ProcessorState)
    requires Agrees(s) && RemovalResult(s, sel, f)
    requires forall u | 0 <= u < |s.store| :: Shaped(s.store[u]) && !Orphans(sel, s.store[u])
    ensures Agrees(f)
  {
    forall sid | sid in f.sources
      ensures !f.store[f.sources[sid]].freed && f.store[f.sources[sid]].idle == sid
    {
      var u := s.sources[sid];
      assert Shaped(s.store[u]) && !Orphans(sel, s.store[u]) && !SweepUnschedules(sel, s.store[u], sid);
    }
    forall u | 0 <= u < |f.store| && !f.store[u].freed && f.store[u].idle != 0
      ensures f.store[u].idle in f.sources && f.sources[f.store[u].idle] == u
    {
      assert Shaped(s.store[u]) && !Chosen(sel, s.store[u]);
    }
  }

  /** Every running task is waiting for a reply: no process or reply callback is on the stack. */
  ghost predicate Quiescent(s: ProcessorState) {
    forall u | 0 <= u < |s.store| && !s.store[u].freed && s.store[u].current.Running? :: IsWaiting(s.store[u])
  }

  function SelectedWeights(store: seq<QueueState>, sel: Selector): seq<nat> {
    seq(|store|, i requires 0 <= i < |store| => if Selects(sel, store[i].key) then Weight(store[i]) else 0)
  }

  /** How many queues the selector picks are running. */
  function SelectedRunning(store: seq<QueueState>, sel: Selector): nat {
    Total(SelectedWeights(store, sel))
  }

  /** f keeps the queues the selector does not pick, unchanged, and has freed the others. */
  ghost predicate OnlySelectedGone(s: ProcessorState, sel: Selector, f: ProcessorState) {
    && (forall k :: k in f.table <==>
          k in s.table && if sel.BySource? then k.source != sel.name else k.sink != sel.name)
    && (forall k | k in f.table :: f.table[k] == s.table[k])
    && (forall k | k in f.table :: Live(s, k) && Live(f, k) && Lookup(f, k) == Lookup(s, k))
    && (forall k | k in s.table && k !in f.table :: s.table[k] < |f.store| && f.store[s.table[k]].freed)
  }

  /**
   At a quiescent point a removal leaves exactly the queues the selector does not pick,
   unchanged field by field, and lowers the running count by the runners it removed.
   */
  lemma SelectiveRemoval(s: ProcessorState, sel: Selector, order: seq<Key>)
    requires Core(s) && !s.quitting && Quiescent(s) && Enumerates(order, s.table)
    ensures OnlySelectedGone(s, sel, RemoveQueues(s, sel, order))
    ensures RemoveQueues(s, sel, order).running + SelectedRunning(s.store, sel) == s.running
  {
    RemovalClosedForm(s, sel, order);
    forall u | 0 <= u < |s.store|
      ensures Shaped(s.store[u])
    {
    }
    QuiescentResult(s, sel, RemoveQueues(s, sel, order));
  }

  lemma SweptQuiescent(q: QueueState, sel: Selector)
    requires Shaped(q) && (!q.freed && q.current.Running? ==> IsWaiting(q))
    ensures var w := SweptQueue(sel, q);
            && w.key == q.key
            && w.freed == (q.freed || Selects(sel, q.key))
            && (!w.freed ==> w == q)
            && Weight(w) == if Selects(sel, q.key) then 0 else Weight(q)
  {
  }

  lemma QuiescentResult(s: ProcessorState, sel: Selector, f: ProcessorState)
    requires TableAgrees(s.store, s.table) && TableAgrees(f.store, f.table)
    requires RemovalResult(s, sel, f) && Quiescent(s)
    requires forall u | 0 <= u < |s.store| :: Shaped(s.store[u])
    ensures OnlySelectedGone(s, sel, f)
    ensures RunningCount(f.store) + SelectedRunning(s.store, sel) == RunningCount(s.store)
  {
    hide Shaped, SweptQueue;
    forall u | 0 <= u < |s.store|
      ensures f.store[u].key == s.store[u].key
      ensures f.store[u].freed == (s.store[u].freed || Selects(sel, s.store[u].key))
      ensures !f.store[u].freed ==> f.store[u] == s.store[u]
      ensures Weight(f.store[u]) == if Selects(sel, s.store[u].key) then 0 else Weight(s.store[u])
    {
      assert Shaped(s.store[u]);
      SweptQuiescent(s.store[u], sel);
    }
    TotalSum(Weights(f.store), SelectedWeights(s.store, sel), Weights(s.store));
    TableFiltered(s, sel, f);
  }

  lemma TableFiltered(s: ProcessorState, sel: Selector, f: ProcessorState)
    requires TableAgrees(s.store, s.table) && TableAgrees(f.store, f.table) && |f.store| == |s.store|
    requires forall u | 0 <= u < |s.store| ::
               && f.store[u].key == s.store[u].key
               && f.store[u].freed == (s.store[u].freed || Selects(sel, s.store[u].key))
               && (!f.store[u].freed ==> f.store[u] == s.store[u])
    ensures OnlySelectedGone(s, sel, f)
  {
    forall k
      ensures k in f.table <==> k in s.table && !Selects(sel, k)
      ensures k in f.table ==> k in s.table && f.table[k] == s.table[k]
    {
      if k in f.table {
        assert s.store[f.table[k]].key == k;
      }
      if k in s.table && !Selects(sel, k) {
        assert f.store[s.table[k]].key == k;
      }
    }
  }

  /** Two removals commute on the whole state, whatever orders the four sweeps use. */
  lemma RemovalsCommute(s: ProcessorState, a: Selector, b: Selector,
                        a1: seq<Key>, b2: seq<Key>, b1: seq<Key>, a2: seq<Key>)
    requires Core(s) && !s.quitting
    requires Enumerates(a1, s.table) && Enumerates(b2, RemoveQueues(s, a, a1).table)
    requires Enumerates(b1, s.table) && Enumerates(a2, RemoveQueues(s, b, b1).table)
    ensures RemoveQueues(RemoveQueues(s, a, a1), b, b2) == RemoveQueues(RemoveQueues(s, b, b1), a, a2)
  {
    hide RemoveQueues;
    var ma, mb := RemoveQueues(s, a, a1), RemoveQueues(s, b, b1);
    RemovalClosedForm(s, a, a1);
    RemovalClosedForm(ma, b, b2);
    RemovalClosedForm(s, b, b1);
    RemovalClosedForm(mb, a, a2);
    forall u | 0 <= u < |s.store|
      ensures Shaped(s.store[u])
    {
    }
    SweptByBoth(s, a, b, ma, RemoveQueues(ma, b, b2));
    SweptByBoth(s, b, a, mb, RemoveQueues(mb, a, a2));
    SameTable(RemoveQueues(ma, b, b2), RemoveQueues(mb, a, a2));
  }

  /** The result of two removals, in a form that does not say which came first. */
  lemma SweptByBoth(s: ProcessorState, a: Selector, b: Selector, m: ProcessorState, f: ProcessorState)
    requires RemovalResult(s, a, m) && RemovalResult(m, b, f)
    requires forall u | 0 <= u < |s.store| :: Shaped(s.store[u])
    ensures |f.store| == |s.store|
    ensures forall u | 0 <= u < |s.store| ::
              f.store[u] == if Chosen(a, s.store[u]) || Chosen(b, s.store[u])
                            then RemovedQueue(s.store[u]) else s.store[u]
    ensures forall sid :: sid in f.sources <==>
              sid in s.sources && !(UnscheduledBy(s.store, a, sid) || UnscheduledBy(s.store, b, sid))
    ensures forall sid | sid in f.sources :: f.sources[sid] == s.sources[sid]
  {
    forall u | 0 <= u < |s.store|
      ensures f.store[u] == if Chosen(a, s.store[u]) || Chosen(b, s.store[u])
                            then RemovedQueue(s.store[u]) else s.store[u]
    {
      assert Shaped(s.store[u]);
    }
    forall sid
      ensures sid in f.sources <==>
              sid in s.sources && !(UnscheduledBy(s.store, a, sid) || UnscheduledBy(s.store, b, sid))
    {
      if !UnscheduledBy(s.store, a, sid) {
        SecondSweepUnschedules(s, a, b, m, sid);
      }
    }
  }

  lemma SecondSweepUnschedules(s: ProcessorState, a: Selector, b: Selector, m: ProcessorState, sid: nat)
    requires RemovalResult(s, a, m) && !UnscheduledBy(s.store, a, sid)
    ensures UnscheduledBy(m.store, b, sid) <==> UnscheduledBy(s.store, b, sid)
  {
    forall u | 0 <= u < |s.store|
      ensures SweepUnschedules(b, m.store[u], sid) <==> SweepUnschedules(b, s.store[u], sid)
    {
      assert !SweepUnschedules(a, s.store[u], sid);
      assert m.store[u] == SweptQueue(a, s.store[u]);
    }
  }

  lemma SameTable(f: ProcessorState, g: ProcessorState)
    requires TableAgrees(f.store, f.table) && TableAgrees(g.store, g.table) && f.store == g.store
    ensures f.table == g.table
  {
    forall k
      ensures k in f.table <==> k in g.table
      ensures k in f.table ==> f.table[k] == g.table[k]
    {
      if k in f.table {
        assert g.store[f.table[k]].key == k;
      }
      if k in g.table {
        assert f.store[g.table[k]].key == k;
      }
    }
  }
}
