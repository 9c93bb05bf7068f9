/**
 dleyna_task_processor_set_quitting: a sweep that cancels every queue while the
 completions it provokes may empty the table under it.
 */
module Shutdown {
  import opened Protocol
  import opened Sums
  import opened Scheduler
  import opened Invariant
  import opened Removal
  import opened Histories

  function StuckWeights(store: seq<QueueState>): seq<nat> {
    seq(|store|, i requires 0 <= i < |store| => if IsWaiting(store[i]) then 0 else Weight(store[i]))
  }

  function WaitingWeights(store: seq<QueueState>): seq<nat> {
    seq(|store|, i requires 0 <= i < |store| => if IsWaiting(store[i]) then Weight(store[i]) else 0)
  }

  /** Running tasks that will not complete when they are cancelled. */
  function StuckCount(store: seq<QueueState>): nat {
    Total(StuckWeights(store))
  }

  lemma RunnersSplit(store: seq<QueueState>)
    ensures RunningCount(store) == StuckCount(store) + Total(WaitingWeights(store))
  {
    TotalSum(StuckWeights(store), WaitingWeights(store), Weights(store));
  }

  predicate WaitsAt(s: ProcessorState, k: Key) {
    Live(s, k) && IsWaiting(Lookup(s, k))
  }

  ghost predicate WaiterFrom(s: ProcessorState, order: seq<Key>, i: nat) {
    exists j :: i <= j < |order| && WaitsAt(s, order[j])
  }

  /** The sweep will bring the running count down to zero, and so empty the table early. */
  predicate EndsEarly(s: ProcessorState) {
    s.running > 0 && StuckCount(s.store) == 0
  }

  /** The sweep gets to k before the table is emptied: some task it completes comes no earlier than k. */
  ghost predicate Reached(s: ProcessorState, order: seq<Key>, k: Key) {
    exists i {:trigger order[i]} :: 0 <= i < |order| && order[i] == k && (EndsEarly(s) ==> WaiterFrom(s, order, i))
  }

  function EndedQueue(q: QueueState, reached: bool): QueueState {
    if q.freed then q else FreeQueue(if reached then CancelledQueue(q) else q)
  }

  predicate Unschedules(q: QueueState, sid: nat) {
    !q.freed && !q.cancelled && q.idle == sid && sid != 0
  }

  ghost predicate UnscheduledInSweep(s: ProcessorState, order: seq<Key>, sid: nat) {
    exists u :: 0 <= u < |s.store| && Reached(s, order, s.store[u].key) && Unschedules(s.store[u], sid)
  }

  /** The end of a shutdown sweep over order, in closed form. */
  ghost predicate Ended(s: ProcessorState, order: seq<Key>, f: ProcessorState) {
    && f == s.(store := f.store, table := map[], running := StuckCount(s.store), sources := f.sources, quits := f.quits)
    && f.quits == s.quits + (if EndsEarly(s) then 1 else 0)
    && |f.store| == |s.store|
    && (forall u | 0 <= u < |s.store| ::
          f.store[u] == EndedQueue(s.store[u], Reached(s, order, s.store[u].key)))
    && (forall sid :: sid in f.sources <==> sid in s.sources && !UnscheduledInSweep(s, order, sid))
    && (forall sid | sid in f.sources :: f.sources[sid] == s.sources[sid])
  }

  lemma NothingToSweep(s: ProcessorState)
    requires s.running == RunningCount(s.store)
    requires forall u | 0 <= u < |s.store| && !s.store[u].freed :: !IsWaiting(s.store[u])
    ensures Ended(s, [], RemoveAllQueues(s))
  {
    RunnersSplit(s.store);
    TotalZero(WaitingWeights(s.store));
  }

  /** What CancelClosed says about a visit that does not empty the table. */
  ghost predicate Visited(s: ProcessorState, k: Key, s1: ProcessorState)
    requires Live(s, k)
  {
    var u, q := s.table[k], Lookup(s, k);
    var c := CancelledQueue(q);
    s1 == s.(
      store := s.store[u := if CancelFrees(q) then FreeQueue(c) else c],
      table := if CancelFrees(q) then s.table - {k} else s.table,
      running := if IsWaiting(q) then s.running - 1 else s.running,
      sources := SourcesAfterCut(q, s.sources))
  }

  /** Every waiting queue is still ahead of the sweep. */
  ghost predicate WaitersAhead(s: ProcessorState, order: seq<Key>) {
    && (forall i, j | 0 <= i < j < |order| :: order[i] != order[j])
    && (forall k | k in order :: Live(s, k))
    && (forall u | 0 <= u < |s.store| && !s.store[u].freed && IsWaiting(s.store[u]) :: s.store[u].key in order)
  }

  lemma {:induction false} EmptyTableSweep(s: ProcessorState, order: seq<Key>)
    requires s.table == map[]
    ensures CancelAll(s, order) == s
    decreases |order|
  {
    if order != [] {
      EmptyTableSweep(s, order[1..]);
    }
  }

  lemma FreeAllTwice(store: seq<QueueState>)
    ensures FreeAll(FreeAll(store)) == FreeAll(store)
  {
  }

  /** The state just after the completion that empties the table. */
  function Cleared(s: ProcessorState, k: Key): ProcessorState
    requires Live(s, k)
  {
    var u, q := s.table[k], Lookup(s, k);
    s.(store := FreeAll(s.store[u := CancelledQueue(q)]), table := map[], running := s.running - 1,
       sources := SourcesAfterCut(q, s.sources), quits := s.quits + 1)
  }

  lemma CancelClears(s: ProcessorState, k: Key)
    requires TableAgrees(s.store, s.table) && WaitsAt(s, k) && !Lookup(s, k).cancelled
    requires s.quitting && s.running == 1
    ensures Cancel(s, k) == Cleared(s, k)
  {
    var u, q := s.table[k], Lookup(s, k);
    UpdateTwice(s.store, u, Cut(q), EndCurrent(Cut(q)));
  }

  /** The only runner is the one under k. */
  lemma OnlyRunner(s: ProcessorState, k: Key)
    requires TableAgrees(s.store, s.table) && s.running == RunningCount(s.store) == 1 && WaitsAt(s, k)
    ensures StuckCount(s.store) == 0
    ensures forall v | 0 <= v < |s.store| && v != s.table[k] && !s.store[v].freed :: !IsWaiting(s.store[v])
  {
    var u, ws := s.table[k], WaitingWeights(s.store);
    RunnersSplit(s.store);
    TotalUpdate(ws, u, 0);
    TotalZero(ws[u := 0]);
    forall v | 0 <= v < |s.store| && v != u && !s.store[v].freed
      ensures !IsWaiting(s.store[v])
    {
      assert ws[u := 0][v] == 0;
    }
  }

  lemma LastReached(s: ProcessorState, k: Key, order: seq<Key>)
    requires TableAgrees(s.store, s.table) && s.running == RunningCount(s.store) == 1
    requires WaitersAhead(s, order) && order != [] && order[0] == k && WaitsAt(s, k)
    ensures forall v | 0 <= v < |s.store| && !s.store[v].freed :: Reached(s, order, s.store[v].key) <==> v == s.table[k]
  {
    var u := s.table[k];
    OnlyRunner(s, k);
    assert WaiterFrom(s, order, 0);
    forall j | 0 <= j < |order| && WaitsAt(s, order[j])
      ensures j == 0
    {
      assert s.table[order[j]] == u;
    }
  }

  lemma LastVisit(s: ProcessorState, k: Key, order: seq<Key>)
    requires TableAgrees(s.store, s.table) && s.running == RunningCount(s.store) == 1
    requires WaitersAhead(s, order) && order != [] && order[0] == k && WaitsAt(s, k)
    ensures Ended(s, order, Cleared(s, k))
  {
    hide Reached, WaitersAhead;
    var u, q := s.table[k], Lookup(s, k);
    OnlyRunner(s, k);
    LastReached(s, k, order);
    forall sid
      ensures UnscheduledInSweep(s, order, sid) <==> Unschedules(q, sid)
    {
      if Unschedules(q, sid) {
        assert s.store[u] == q;
      }
    }
  }

  // ---------------------------------------------------------------------
  // A visit that leaves the table in place
  // ---------------------------------------------------------------------

  /** What VisitedState keeps, and what it changes, seen from the rest of the sweep. */
  ghost predicate OthersUntouched(s: ProcessorState, k: Key, s1: ProcessorState)
    requires Live(s, k)
  {
    && |s1.store| == |s.store|
    && (forall v | 0 <= v < |s.store| && v != s.table[k] :: s1.store[v] == s.store[v])
    && (forall k' | k' != k :: Live(s1, k') == Live(s, k') && (Live(s, k') ==> s1.table[k'] == s.table[k']))
  }

  lemma VisitTouchesOne(s: ProcessorState, k: Key, s1: ProcessorState)
    requires Live(s, k) && Visited(s, k, s1)
    ensures OthersUntouched(s, k, s1)
  {
  }

  lemma StuckUnchanged(s: ProcessorState, k: Key, s1: ProcessorState)
    requires TableAgrees(s.store, s.table) && s.running == RunningCount(s.store)
    requires Live(s, k) && KeepsGoing(s, Lookup(s, k)) && s.quitting && Visited(s, k, s1)
    requires IsWaiting(Lookup(s, k)) ==> !Lookup(s, k).cancelled
    ensures StuckCount(s1.store) == StuckCount(s.store)
    ensures EndsEarly(s1) <==> EndsEarly(s)
  {
    var u, q := s.table[k], Lookup(s, k);
    assert StuckWeights(s1.store) == StuckWeights(s.store);
    RunnersSplit(s.store);
    if IsWaiting(q) {
      TotalZero(WaitingWeights(s.store));
      assert WaitingWeights(s.store)[u] == 1;
    }
  }

  /** When the sweep is to end early some waiting queue is ahead. */
  lemma FirstIsReached(s: ProcessorState, order: seq<Key>)
    requires TableAgrees(s.store, s.table) && s.running == RunningCount(s.store)
    requires order != [] && WaitersAhead(s, order)
    ensures Reached(s, order, order[0])
  {
    if EndsEarly(s) {
      RunnersSplit(s.store);
      TotalZero(WaitingWeights(s.store));
      var u :| 0 <= u < |s.store| && WaitingWeights(s.store)[u] != 0;
      var j :| 0 <= j < |order| && order[j] == s.store[u].key;
      assert WaitsAt(s, order[j]);
      assert WaiterFrom(s, order, 0);
    }
    assert order[0] == order[0];
  }

  lemma WaiterLater(s: ProcessorState, order: seq<Key>, s1: ProcessorState, i: nat)
    requires TableAgrees(s.store, s.table)
    requires order != [] && WaitersAhead(s, order) && Live(s, order[0]) && OthersUntouched(s, order[0], s1)
    ensures WaiterFrom(s1, order[1..], i) <==> WaiterFrom(s, order, i + 1)
  {
    var rest := order[1..];
    forall j | 0 <= j < |rest|
      ensures WaitsAt(s1, rest[j]) <==> WaitsAt(s, order[j + 1])
    {
      assert rest[j] in order && rest[j] != order[0];
      assert s.table[rest[j]] != s.table[order[0]];
    }
    if WaiterFrom(s1, rest, i) {
      var j :| i <= j < |rest| && WaitsAt(s1, rest[j]);
      assert WaitsAt(s, order[j + 1]);
    }
    if WaiterFrom(s, order, i + 1) {
      var j :| i + 1 <= j < |order| && WaitsAt(s, order[j]);
      assert WaitsAt(s1, rest[j - 1]);
    }
  }

  lemma ReachedLater(s: ProcessorState, order: seq<Key>, s1: ProcessorState, k: Key)
    requires TableAgrees(s.store, s.table)
    requires order != [] && WaitersAhead(s, order) && Live(s, order[0]) && OthersUntouched(s, order[0], s1)
    requires EndsEarly(s1) <==> EndsEarly(s)
    requires k != order[0]
    ensures Reached(s, order, k) <==> Reached(s1, order[1..], k)
  {
    hide WaiterFrom, EndsEarly, WaitersAhead, OthersUntouched, TableAgrees;
    var rest := order[1..];
    if Reached(s, order, k) {
      var i :| 0 <= i < |order| && order[i] == k && (EndsEarly(s) ==> WaiterFrom(s, order, i));
      WaiterLater(s, order, s1, i - 1);
      assert rest[i - 1] == k;
    }
    if Reached(s1, rest, k) {
      var i :| 0 <= i < |rest| && rest[i] == k && (EndsEarly(s1) ==> WaiterFrom(s1, rest, i));
      WaiterLater(s, order, s1, i);
      assert order[i + 1] == k;
    }
  }

  lemma StepStore(s: ProcessorState, k: Key, s1: ProcessorState)
    requires TableAgrees(s.store, s.table) && Live(s, k) && Visited(s, k, s1)
    ensures OthersUntouched(s, k, s1)
    ensures var q, q1 := Lookup(s, k), s1.store[s.table[k]];
            && (q1.freed || q1.cancelled) && q1.key == q.key == k
            && EndedQueue(q1, false) == EndedQueue(q, true)
    ensures forall v | 0 <= v < |s.store| && v != s.table[k] ::
              s.store[v].key != k || EndedQueue(s.store[v], true) == EndedQueue(s.store[v], false)
  {
  }

  lemma StepEnded(s: ProcessorState, order: seq<Key>, s1: ProcessorState, f: ProcessorState)
    requires TableAgrees(s.store, s.table) && order != [] && Live(s, order[0])
    requires Visited(s, order[0], s1) && Ended(s1, order[1..], f)
    requires !Lookup(s, order[0]).freed
    requires StuckCount(s1.store) == StuckCount(s.store) && (EndsEarly(s1) <==> EndsEarly(s))
    requires Reached(s, order, order[0]) && !Reached(s1, order[1..], order[0])
    requires forall k | k != order[0] :: Reached(s, order, k) <==> Reached(s1, order[1..], k)
    ensures Ended(s, order, f)
  {
    hide Reached, EndedQueue, CancelledQueue, CancelFrees, TableAgrees;
    StepStore(s, order[0], s1);
    forall v | 0 <= v < |s.store|
      ensures f.store[v] == EndedQueue(s.store[v], Reached(s, order, s.store[v].key))
    {
      if s.store[v].key == order[0] && v != s.table[order[0]] {
        assert EndedQueue(s.store[v], true) == EndedQueue(s.store[v], false);
      }
    }
    UnscheduledStep(s, order, s1);
  }

  lemma UnscheduledStep(s: ProcessorState, order: seq<Key>, s1: ProcessorState)
    requires TableAgrees(s.store, s.table) && order != [] && Live(s, order[0]) && OthersUntouched(s, order[0], s1)
    requires var q1 := s1.store[s.table[order[0]]]; q1.freed || q1.cancelled
    requires Reached(s, order, order[0])
    requires forall k | k != order[0] :: Reached(s, order, k) <==> Reached(s1, order[1..], k)
    ensures forall sid :: UnscheduledInSweep(s, order, sid)
              <==> Unschedules(Lookup(s, order[0]), sid) || UnscheduledInSweep(s1, order[1..], sid)
  {
    hide Reached;
    var u, k, rest := s.table[order[0]], order[0], order[1..];
    forall sid
      ensures UnscheduledInSweep(s, order, sid)
              <==> Unschedules(Lookup(s, k), sid) || UnscheduledInSweep(s1, rest, sid)
    {
      if UnscheduledInSweep(s, order, sid) {
        var v :| 0 <= v < |s.store| && Reached(s, order, s.store[v].key) && Unschedules(s.store[v], sid);
        if v != u {
          assert Reached(s1, rest, s1.store[v].key) && Unschedules(s1.store[v], sid);
        }
      }
      if Unschedules(Lookup(s, k), sid) {
        assert Reached(s, order, s.store[u].key) && Unschedules(s.store[u], sid);
      }
      if UnscheduledInSweep(s1, rest, sid) {
        var v :| 0 <= v < |s.store| && Reached(s1, rest, s1.store[v].key) && Unschedules(s1.store[v], sid);
        assert Reached(s, order, s.store[v].key) && Unschedules(s.store[v], sid);
      }
    }
  }

  lemma {:induction false} SweepEnds(s: ProcessorState, order: seq<Key>)
    requires Core(s) && s.quitting && WaitersAhead(s, order)
    ensures Ended(s, order, RemoveAllQueues(CancelAll(s, order)))
    decreases |order|
  {
    hide Ended, Reached, Visited;
    if order == [] {
      NothingToSweep(s);
    } else {
      var k := order[0];
      assert k in order;
      assert Shaped(Lookup(s, k));
      if KeepsGoing(s, Lookup(s, k)) {
        KeepGoing(s, order);
        SweepEnds(Cancel(s, k), order[1..]);
        StepEnded(s, order, Cancel(s, k), RemoveAllQueues(CancelAll(s, order)));
      } else {
        CancelClears(s, k);
        LastVisit(s, k, order);
        EmptyTableSweep(Cleared(s, k), order[1..]);
        FreeAllTwice(s.store[s.table[k] := CancelledQueue(Lookup(s, k))]);
      }
    }
  }

  lemma KeepGoing(s: ProcessorState, order: seq<Key>)
    requires Core(s) && s.quitting && WaitersAhead(s, order) && order != [] && Live(s, order[0])
    requires KeepsGoing(s, Lookup(s, order[0]))
    ensures var s1 := Cancel(s, order[0]);
            && Core(s1) && s1.quitting && WaitersAhead(s1, order[1..])
            && Visited(s, order[0], s1)
            && StuckCount(s1.store) == StuckCount(s.store) && (EndsEarly(s1) <==> EndsEarly(s))
            && Reached(s, order, order[0]) && !Reached(s1, order[1..], order[0])
            && (forall k | k != order[0] :: Reached(s, order, k) <==> Reached(s1, order[1..], k))
  {
    hide Reached, Cancel;
    var k := order[0];
    var s1 := Cancel(s, k);
    assert Shaped(Lookup(s, k));
    CancelClosed(s, k);
    CancelKeepsCore(s, k);
    assert Visited(s, k, s1);
    VisitTouchesOne(s, k, s1);
    StuckUnchanged(s, k, s1);
    FirstIsReached(s, order);
    StillAhead(s, order, s1);
    assert !Reached(s1, order[1..], k) by {
      NotListed(s1, order[1..], k);
    }
    forall k' | k' != k
      ensures Reached(s, order, k') <==> Reached(s1, order[1..], k')
    {
      ReachedLater(s, order, s1, k');
    }
  }

  lemma NotListed(s: ProcessorState, order: seq<Key>, k: Key)
    requires k !in order
    ensures !Reached(s, order, k)
  {
  }

  lemma StillAhead(s: ProcessorState, order: seq<Key>, s1: ProcessorState)
    requires TableAgrees(s.store, s.table) && WaitersAhead(s, order) && order != [] && Live(s, order[0])
    requires Visited(s, order[0], s1) && (IsWaiting(Lookup(s, order[0])) ==> !Lookup(s, order[0]).cancelled)
    ensures WaitersAhead(s1, order[1..]) && order[0] !in order[1..]
  {
    VisitTouchesOne(s, order[0], s1);
    forall u | 0 <= u < |s1.store| && !s1.store[u].freed && IsWaiting(s1.store[u])
      ensures s1.store[u].key in order[1..]
    {
      if u == s.table[order[0]] {
        assert false;
      }
      assert s.store[u].key in order && s.store[u].key != order[0];
    }
  }

  // ---------------------------------------------------------------------
  // dleyna_task_processor_set_quitting
  // ---------------------------------------------------------------------

  function QuitFlagged(s: ProcessorState): ProcessorState {
    s.(quitting := true, quits := if s.running == 0 then s.quits + 1 else s.quits)
  }

  lemma QuitFlaggedIsReady(s: ProcessorState, order: seq<Key>)
    requires Core(s) && Enumerates(order, s.table)
    ensures Core(QuitFlagged(s)) && WaitersAhead(QuitFlagged(s), order)
  {
  }

  lemma SetQuittingIsSweep(s: ProcessorState, order: seq<Key>)
    ensures SetQuitting(s, order) == RemoveAllQueues(CancelAll(QuitFlagged(s), order))
  {
  }

  lemma EndedIsFreed(q: QueueState, reached: bool)
    ensures EndedQueue(q, reached).freed
  {
  }

  /**
   One set_quitting, for every iteration order: the table ends empty, every queue is
   freed, the running count ends at the number of tasks that were not waiting for a
   reply, and the quit callback is scheduled once if that number is zero, else never.
   */
  lemma ShutdownClosedForm(s: ProcessorState, order: seq<Key>)
    requires Core(s) && Enumerates(order, s.table)
    ensures Ended(QuitFlagged(s), order, SetQuitting(s, order))
    ensures var f := SetQuitting(s, order);
            && f.table == map[] && f.quitting
            && |f.store| == |s.store| && (forall u | 0 <= u < |f.store| :: f.store[u].freed)
            && f.running == StuckCount(s.store)
            && f.quits == s.quits + (if StuckCount(s.store) == 0 then 1 else 0)
  {
    assert s.running == RunningCount(s.store);
    hide Core, SetQuitting, Reached, EndedQueue, CancelledQueue, CancelAll, RemoveAllQueues;
    QuitFlaggedIsReady(s, order);
    SweepEnds(QuitFlagged(s), order);
    SetQuittingIsSweep(s, order);
    var f := SetQuitting(s, order);
    forall u | 0 <= u < |f.store|
      ensures f.store[u].freed
    {
      EndedIsFreed(s.store[u], Reached(QuitFlagged(s), order, s.store[u].key));
    }
    RunnersSplit(s.store);
  }

  lemma StuckMeansNotQuiescent(s: ProcessorState)
    ensures StuckCount(s.store) == 0 <==> Quiescent(s)
  {
    TotalZero(StuckWeights(s.store));
    forall u | 0 <= u < |s.store|
      ensures StuckWeights(s.store)[u] == 0
              <==> !(!s.store[u].freed && s.store[u].current.Running? && !IsWaiting(s.store[u]))
    {
    }
  }

  lemma {:induction false} CancelAllKeepsCore(s: ProcessorState, order: seq<Key>)
    requires Core(s)
    ensures Core(CancelAll(s, order))
    decreases |order|
  {
    hide Cancel, Base;
    if order != [] {
      if Live(s, order[0]) {
        assert Shaped(Lookup(s, order[0]));
        CoreIsCancellable(s, order[0]);
        CancelKeepsCore(s, order[0]);
        CancelAllKeepsCore(Cancel(s, order[0]), order[1..]);
      } else {
        CancelAllKeepsCore(s, order[1..]);
      }
    }
  }

  lemma CoreIsCancellable(s: ProcessorState, k: Key)
    requires Core(s) && Live(s, k)
    ensures CoreExcept(s, k) && (k in s.table ==> Cancellable(Lookup(s, k)))
  {
    assert Shaped(Lookup(s, k));
  }

  /**
   The shutdown leaves every queue's history complete (every task deleted, every
   finally run) exactly when it happens at a quiescent point.
   */
  lemma ShutdownCleanIff(s: ProcessorState, order: seq<Key>)
    requires Core(s) && Enumerates(order, s.table)
    ensures Core(SetQuitting(s, order)) <==> Quiescent(s)
  {
    var s1, f := QuitFlagged(s), SetQuitting(s, order);
    ShutdownClosedForm(s, order);
    StuckMeansNotQuiescent(s);
    if Quiescent(s) {
      QuitFlaggedIsReady(s, order);
      CancelAllKeepsCore(s1, order);
      RemoveAllKeepsCore(CancelAll(s1, order));
    } else {
      var u :| 0 <= u < |s.store| && !s.store[u].freed && s.store[u].current.Running? && !IsWaiting(s.store[u]);
      assert f.store[u].freed && f.store[u].current.Running?;
      assert !LogAgrees(f.store[u]);
    }
  }

  /**
   Idle sources left behind by a shutdown, to be dispatched on a freed queue: those of
   scheduled queues that the sweep did not reach, or that had been cancelled before.
   */
  lemma ShutdownLeavesSourcesIff(s: ProcessorState, order: seq<Key>)
    requires Inv(s) && Enumerates(order, s.table)
    ensures Agrees(SetQuitting(s, order)) <==>
            forall u | 0 <= u < |s.store| ::
              !Abandoned(s.store[u], Reached(QuitFlagged(s), order, s.store[u].key))
  {
    ShutdownClosedForm(s, order);
    SourcesLeft(QuitFlagged(s), order, SetQuitting(s, order));
  }

  /** q's idle source survives a sweep that does or does not reach q. */
  predicate Abandoned(q: QueueState, reached: bool) {
    !q.freed && q.idle != 0 && (q.cancelled || !reached)
  }

  lemma SourcesLeft(s: ProcessorState, order: seq<Key>, f: ProcessorState)
    requires Agrees(s) && Ended(s, order, f) && forall u | 0 <= u < |f.store| :: f.store[u].freed
    ensures Agrees(f) <==> forall u | 0 <= u < |s.store| :: !Abandoned(s.store[u], Reached(s, order, s.store[u].key))
  {
    hide Reached, EndedQueue;
    forall sid | sid in s.sources
      ensures sid in f.sources <==> Abandoned(s.store[s.sources[sid]], Reached(s, order, s.store[s.sources[sid]].key))
    {
      SourceLeft(s, order, sid);
    }
    forall u | 0 <= u < |s.store| && Abandoned(s.store[u], Reached(s, order, s.store[u].key))
      ensures s.store[u].idle in f.sources && f.sources[s.store[u].idle] == u
    {
      assert s.sources[s.store[u].idle] == u;
    }
  }

  lemma SourceLeft(s: ProcessorState, order: seq<Key>, sid: nat)
    requires Agrees(s) && sid in s.sources
    ensures var q := s.store[s.sources[sid]];
            UnscheduledInSweep(s, order, sid) <==> !Abandoned(q, Reached(s, order, q.key))
  {
    hide Reached;
    var u := s.sources[sid];
    if UnscheduledInSweep(s, order, sid) {
      var v :| 0 <= v < |s.store| && Reached(s, order, s.store[v].key) && Unschedules(s.store[v], sid);
      assert s.sources[s.store[v].idle] == v;
    }
  }

  /** Every scheduled queue is not marked cancelled, and the sweep will not be cut short before it. */
  ghost predicate SurelyUnscheduled(s: ProcessorState) {
    forall u | 0 <= u < |s.store| && !s.store[u].freed && s.store[u].idle != 0 ::
      !s.store[u].cancelled && !(s.running > 0 && Quiescent(s))
  }

  lemma {:induction false} Listing(keys: set<Key>) returns (order: seq<Key>)
    ensures forall i, j | 0 <= i < j < |order| :: order[i] != order[j]
    ensures forall k :: k in order <==> k in keys
    decreases |keys|
  {
    if keys == {} {
      order := [];
    } else {
      var k :| k in keys;
      var rest := Listing(keys - {k});
      order := rest + [k];
    }
  }

  lemma ListingWithLast(table: map<Key, nat>, k: Key) returns (order: seq<Key>)
    requires k in table
    ensures Enumerates(order, table) && order[|order| - 1] == k
  {
    var rest := Listing(table.Keys - {k});
    order := rest + [k];
  }

  lemma AllReached(s: ProcessorState, order: seq<Key>, k: Key)
    requires Enumerates(order, s.table) && k in s.table && !EndsEarly(s)
    ensures Reached(s, order, k)
  {
    var i :| 0 <= i < |order| && order[i] == k;
    assert order[i] == k;
  }

  lemma EndsEarlyIff(s: ProcessorState)
    ensures EndsEarly(QuitFlagged(s)) <==> s.running > 0 && Quiescent(s)
  {
    StuckMeansNotQuiescent(s);
  }

  lemma UnsureIsAbandoned(s: ProcessorState, u: nat) returns (order: seq<Key>)
    requires Inv(s) && u < |s.store| && !s.store[u].freed && s.store[u].idle != 0
    requires s.store[u].cancelled || (s.running > 0 && Quiescent(s))
    ensures Enumerates(order, s.table) && !Agrees(SetQuitting(s, order))
  {
    var q, s1 := s.store[u], QuitFlagged(s);
    assert Shaped(q) && q.key in s.table && s.table[q.key] == u;
    hide Core, Agrees, Reached, SetQuitting, EndsEarly;
    order := ListingWithLast(s.table, q.key);
    EndsEarlyIff(s);
    ShutdownLeavesSourcesIff(s, order);
    assert Abandoned(q, Reached(s1, order, q.key));
  }

  /**
   Whatever order the table is visited in, a shutdown leaves no idle source behind, exactly
   if no queue is scheduled while it is marked cancelled, or while tasks are running and all
   of them wait for a reply.
   */
  lemma ShutdownNeverLeavesSourcesIff(s: ProcessorState)
    requires Inv(s)
    ensures (forall order | Enumerates(order, s.table) :: Agrees(SetQuitting(s, order))) <==> SurelyUnscheduled(s)
  {
    hide Inv, Agrees, SetQuitting, Enumerates;
    if SurelyUnscheduled(s) {
      forall order | Enumerates(order, s.table)
        ensures Agrees(SetQuitting(s, order))
      {
        SureIsUnscheduled(s, order);
      }
    } else {
      var u :| 0 <= u < |s.store| && !s.store[u].freed && s.store[u].idle != 0
               && (s.store[u].cancelled || (s.running > 0 && Quiescent(s)));
      var order := UnsureIsAbandoned(s, u);
    }
  }

  lemma SureIsUnscheduled(s: ProcessorState, order: seq<Key>)
    requires Inv(s) && Enumerates(order, s.table) && SurelyUnscheduled(s)
    ensures Agrees(SetQuitting(s, order))
  {
    assert TableAgrees(s.store, s.table);
    hide Core, Agrees, Reached, SetQuitting, EndsEarly, Enumerates;
    EndsEarlyIff(s);
    forall u | 0 <= u < |s.store|
      ensures !Abandoned(s.store[u], Reached(QuitFlagged(s), order, s.store[u].key))
    {
      var q := s.store[u];
      if !q.freed && q.idle != 0 {
        AllReached(QuitFlagged(s), order, q.key);
      }
    }
    ShutdownLeavesSourcesIff(s, order);
  }

  // ---------------------------------------------------------------------
  // The promise of a shutdown
  // ---------------------------------------------------------------------

  /** Every task q was given has been deleted, once, and finally has run once, last, if it was set. */
  ghost predicate Finished(q: QueueState) {
    && q.freed
    && multiset(Tasks(q.log, Deletes)) == multiset(Tasks(q.log, Adds))
    && (forall t :: multiset(Tasks(q.log, Adds))[t] <= 1)
    && Tasks(q.log, Completes) == Tasks(q.log, Starts)
    && (forall i | 0 <= i < |q.log| - 1 :: !q.log[i].Finally?)
    && (q.log != [] && q.log[|q.log| - 1].Finally? <==> q.hasFinally)
  }

  /**
   set_quitting at a quiescent point, whatever order the table is visited in and although
   a completion on the way may empty it: nothing is left, every queue is finished, and the
   quit callback is scheduled exactly once.
   */
  lemma ShutdownDelivers(s: ProcessorState, order: seq<Key>)
    requires Core(s) && Quiescent(s) && Enumerates(order, s.table)
    ensures var f := SetQuitting(s, order);
            && f.table == map[] && f.running == 0 && f.quits == s.quits + 1
            && |f.store| == |s.store|
            && forall u | 0 <= u < |f.store| :: Finished(f.store[u]) && f.store[u].hasFinally == s.store[u].hasFinally
  {
    hide Finished, Reached, SetQuitting;
    var f := SetQuitting(s, order);
    ShutdownClosedForm(s, order);
    ShutdownCleanIff(s, order);
    StuckMeansNotQuiescent(s);
    forall u | 0 <= u < |f.store|
      ensures Finished(f.store[u])
    {
      assert LogAgrees(f.store[u]);
      FreedIsFinished(f.store[u]);
    }
  }

  lemma FreedIsFinished(q: QueueState)
    requires LogAgrees(q) && q.freed
    ensures Finished(q)
  {
    FinallyRunsOnce(q);
    StartsAndCompletions(q);
    DeletedAtMostOnce(q.log);
    assert Tasks(q.log, Completes) + [] == Tasks(q.log, Completes);
    if !q.hasFinally && q.log != [] {
      assert !q.log[|q.log| - 1].Finally?;
    }
  }
}
