/**
 The processor's invariant and the proof that every operation keeps it.
 Base is the bookkeeping shared by all queues, Shaped what each live queue's
 fields say about one another, SourcesAgree the agreement with the main loop.
 */
module Invariant {
  import opened Protocol
  import opened Sums
  import opened Scheduler

  // ---------------------------------------------------------------------
  // Definitions
  // ---------------------------------------------------------------------

  function SlotOf(c: Current): Slot {
    match c
    case Idle => Empty
    case Running(t, _) => Active(t)
  }

  /** The log is one the protocol accepts, and it explains the fields. */
  ghost predicate LogAgrees(q: QueueState) {
    && Replay(q.log).Some?
    && var r := Replay(q.log).value;
       && r.pending == q.tasks
       && r.slot == SlotOf(q.current)
       && r.flag == q.cancelled
       && r.closed == (q.freed && q.hasFinally)
       && (forall t | t in q.tasks :: t !in r.cancelled)
       && (q.current.Running? && q.current.task in r.cancelled ==> q.cancelled)
       && (q.freed ==> q.tasks == [] && q.current.Idle?)
  }

  function Books(q: QueueState): Replayed {
    if Replay(q.log).Some? then Replay(q.log).value else FRESH
  }

  /** Without a cancel call, tasks leave the pending list only by being started. */
  ghost predicate NothingDropped(q: QueueState) {
    !Books(q).cut ==> Books(q).popped == Books(q).started
  }

  ghost predicate Shaped(q: QueueState) {
    !q.freed ==>
      // an idle source means work and a free slot
      && (q.idle != 0 ==> q.current.Idle? && q.tasks != [])
      // a deferred removal is waiting for a cancelled task to end by itself
      && (q.deferRemove ==> q.current.Running? && q.cancelled && !IsWaiting(q))
      && (IsWaiting(q) ==> !q.cancelled)
      && (q.client == PlainTasks && q.current.Running? ==> q.current.phase == Starting)
      // no lost wake-up
      && (q.flags.autoStart && q.tasks != [] && !q.deferRemove ==> q.idle != 0 || q.current.Running?)
      // an AUTO_REMOVE queue that has begun goes on until it is freed
      && (q.flags.autoRemove && Books(q).started != [] ==> q.idle != 0 || q.current.Running?)
  }

  /** The table files every live queue, and nothing else, under its key. */
  ghost predicate TableAgrees(store: seq<QueueState>, table: map<Key, nat>) {
    && (forall k | k in table :: table[k] < |store| && !store[table[k]].freed && store[table[k]].key == k)
    && (forall u | 0 <= u < |store| && !store[u].freed :: store[u].key in table && table[store[u].key] == u)
  }

  function Weight(q: QueueState): nat {
    if !q.freed && q.current.Running? then 1 else 0
  }

  function Weights(store: seq<QueueState>): seq<nat> {
    seq(|store|, i requires 0 <= i < |store| => Weight(store[i]))
  }

  /** How many live queues have a current task. */
  function RunningCount(store: seq<QueueState>): nat {
    Total(Weights(store))
  }

  /** Every task ever added was added to exactly one queue, the one recorded in the task. */
  ghost predicate OwnersAgree(store: seq<QueueState>, owner: map<Task, nat>) {
    && (forall t | t in owner :: owner[t] < |store|)
    && (forall u {:trigger OwnsExactly(store[u], owner, u)} | 0 <= u < |store| :: OwnsExactly(store[u], owner, u))
  }

  ghost predicate OwnsExactly(q: QueueState, owner: map<Task, nat>, u: nat) {
    forall t :: t in Tasks(q.log, Adds) <==> t in owner && owner[t] == u
  }

  ghost predicate LogsAgree(store: seq<QueueState>, quitting: bool) {
    forall u {:trigger LogAgrees(store[u])} | 0 <= u < |store| ::
      LogAgrees(store[u]) && (quitting || NothingDropped(store[u]))
  }

  ghost predicate Base(s: ProcessorState) {
    && s.nextSource > 0
    && TableAgrees(s.store, s.table)
    && LogsAgree(s.store, s.quitting)
    && s.running == RunningCount(s.store)
    && OwnersAgree(s.store, s.owner)
  }

  ghost predicate Core(s: ProcessorState) {
    Base(s) && forall u {:trigger Shaped(s.store[u])} | 0 <= u < |s.store| :: Shaped(s.store[u])
  }

  /** Core, except that the fields of the queue under k may be in transit. */
  ghost predicate CoreExcept(s: ProcessorState, k: Key) {
    && Base(s) && Live(s, k)
    && forall u {:trigger Shaped(s.store[u])} | 0 <= u < |s.store| && u != s.table[k] :: Shaped(s.store[u])
  }

  /** Pending idle sources and non-zero idle_id fields of live queues are in bijection. */
  ghost predicate SourcesAgree(store: seq<QueueState>, sources: map<nat, nat>, nextSource: nat) {
    && (forall sid | sid in sources ::
          && 0 < sid < nextSource && sources[sid] < |store|
          && !store[sources[sid]].freed && store[sources[sid]].idle == sid)
    && (forall u | 0 <= u < |store| && !store[u].freed && store[u].idle != 0 ::
          store[u].idle in sources && sources[store[u].idle] == u)
  }

  ghost predicate Agrees(s: ProcessorState) {
    SourcesAgree(s.store, s.sources, s.nextSource)
  }

  ghost predicate Inv(s: ProcessorState) {
    Core(s) && Agrees(s)
  }

  lemma CoreOf(s: ProcessorState)
    requires Inv(s)
    ensures Core(s) && Agrees(s)
  {
  }

  // ---------------------------------------------------------------------
  // One queue: each step extends the log by something the protocol accepts
  // ---------------------------------------------------------------------

  lemma EnqueueAgrees(q: QueueState, t: Task)
    requires LogAgrees(q) && !q.freed && t !in Tasks(q.log, Adds)
    ensures LogAgrees(Enqueue(q, t))
    ensures var r := Books(q); Books(Enqueue(q, t)) == r.(added := r.added + [t], pending := r.pending + [t])
    ensures Tasks(Enqueue(q, t).log, Adds) == Tasks(q.log, Adds) + [t]
  {
    BooksMatchLog(q.log);
    AcceptedIsLawful(q.log);
    ReplayAppend(q.log, Added(t));
    TasksAppend(q.log, Added(t), Adds);
  }

  lemma TakeHeadAgrees(q: QueueState)
    requires LogAgrees(q) && !q.freed && q.current.Idle? && q.tasks != []
    ensures LogAgrees(TakeHead(q))
    ensures var r, t := Books(q), q.tasks[0];
            Books(TakeHead(q)) == r.(pending := q.tasks[1..], popped := r.popped + [t], started := r.started + [t],
                                     slot := Active(t), flag := false)
    ensures Tasks(TakeHead(q).log, Adds) == Tasks(q.log, Adds)
  {
    ReplayAppend(q.log, Started(q.tasks[0]));
    TasksAppend(q.log, Started(q.tasks[0]), Adds);
  }

  lemma EndCurrentAgrees(q: QueueState)
    requires LogAgrees(q) && q.current.Running?
    ensures LogAgrees(EndCurrent(q))
    ensures var r, t := Books(q), q.current.task;
            Books(EndCurrent(q)) == r.(slot := Empty, completed := r.completed + [t], deleted := r.deleted + [t])
    ensures Tasks(EndCurrent(q).log, Adds) == Tasks(q.log, Adds)
  {
    var t := q.current.task;
    ReplayAppend(q.log, Completed(t));
    ReplayAppend(q.log + [Completed(t)], DeleteCb(t));
    TasksAppend(q.log, Completed(t), Adds);
    TasksAppend(q.log + [Completed(t)], DeleteCb(t), Adds);
  }

  lemma CancelCallAgrees(q: QueueState)
    requires LogAgrees(q) && !q.freed && q.cancelled
    ensures var q' := q.(log := q.log + [CancelCall]);
            LogAgrees(q') && Books(q') == Books(q).(cut := true) && Tasks(q'.log, Adds) == Tasks(q.log, Adds)
  {
    ReplayAppend(q.log, CancelCall);
    TasksAppend(q.log, CancelCall, Adds);
  }

  lemma {:induction false} FlushAddsNothing(log: seq<Event>, ts: seq<Task>)
    ensures Tasks(log + FlushLog(ts), Adds) == Tasks(log, Adds)
    decreases |ts|
  {
    if ts == [] {
      assert log + FlushLog(ts) == log;
    } else {
      var front, x := ts[..|ts| - 1], ts[|ts| - 1];
      var l1 := log + FlushLog(front);
      FlushAddsNothing(log, front);
      TasksAppend(l1, CancelCb(x), Adds);
      TasksAppend(l1 + [CancelCb(x)], DeleteCb(x), Adds);
      assert l1 + [CancelCb(x)] + [DeleteCb(x)] == log + FlushLog(ts);
    }
  }

  lemma {:induction false} DeletesAddNothing(log: seq<Event>, ts: seq<Task>)
    ensures Tasks(log + DeleteLog(ts), Adds) == Tasks(log, Adds)
    decreases |ts|
  {
    if ts == [] {
      assert log + DeleteLog(ts) == log;
    } else {
      var front, x := ts[..|ts| - 1], ts[|ts| - 1];
      DeletesAddNothing(log, front);
      TasksAppend(log + DeleteLog(front), DeleteCb(x), Adds);
      assert log + DeleteLog(front) + [DeleteCb(x)] == log + DeleteLog(ts);
    }
  }

  lemma CurrentIsNotPending(q: QueueState)
    requires LogAgrees(q) && q.current.Running?
    ensures q.current.task !in q.tasks
  {
    AcceptedIsLawful(q.log);
    DeletedAtMostOnce(q.log);
    var t := q.current.task;
    assert multiset(InSlot(Books(q).slot))[t] == 1;
    assert multiset(q.tasks)[t] == 0;
  }

  /** The books after a first cancel has dropped the pending tasks. */
  function CutBooks(r: Replayed, current: seq<Task>): Replayed {
    r.(flag := true, cut := true, pending := [], popped := r.popped + r.pending, deleted := r.deleted + r.pending,
       cancelled := r.cancelled + r.pending + current)
  }

  lemma CutAgrees(q: QueueState)
    requires LogAgrees(q) && !q.freed && !q.cancelled
    ensures LogAgrees(Cut(q))
    ensures Books(Cut(q)) == CutBooks(Books(q), InSlot(SlotOf(q.current)))
    ensures Tasks(Cut(q).log, Adds) == Tasks(q.log, Adds)
  {
    var r := Books(q);
    var l1 := q.log + [CancelCall];
    ReplayAppend(q.log, CancelCall);
    TasksAppend(q.log, CancelCall, Adds);
    assert q.tasks == q.tasks + [];
    ReplayFlush(l1, q.tasks, []);
    FlushAddsNothing(l1, q.tasks);
    var l2 := l1 + FlushLog(q.tasks);
    assert l2 + [] == l2;
    if q.current.Running? {
      CurrentIsNotPending(q);
      ReplayAppend(l2, CancelCb(q.current.task));
      TasksAppend(l2, CancelCb(q.current.task), Adds);
    }
  }

  lemma FreeQueueAgrees(q: QueueState)
    requires LogAgrees(q) && !q.freed && q.current.Idle?
    ensures LogAgrees(FreeQueue(q))
    ensures Books(FreeQueue(q)).cut == Books(q).cut
    ensures Books(FreeQueue(q)).started == Books(q).started
    ensures Books(FreeQueue(q)).popped == Books(q).popped + q.tasks
    ensures Tasks(FreeQueue(q).log, Adds) == Tasks(q.log, Adds)
  {
    assert q.tasks == q.tasks + [];
    ReplayDeletes(q.log, q.tasks, []);
    DeletesAddNothing(q.log, q.tasks);
    var l1 := q.log + DeleteLog(q.tasks);
    assert l1 + [] == l1;
    ReplayAppend(l1, Finally(q.cancelled));
    TasksAppend(l1, Finally(q.cancelled), Adds);
  }

  // ---------------------------------------------------------------------
  // The shared bookkeeping
  // ---------------------------------------------------------------------

  lemma RunningCountPut(store: seq<QueueState>, u: nat, q: QueueState)
    requires u < |store|
    ensures RunningCount(store[u := q]) + Weight(store[u]) == RunningCount(store) + Weight(q)
  {
    TotalUpdate(Weights(store), u, Weight(q));
    assert Weights(store[u := q]) == Weights(store)[u := Weight(q)];
  }

  lemma RunningCountGrow(store: seq<QueueState>, q: QueueState)
    requires Weight(q) == 0
    ensures RunningCount(store + [q]) == RunningCount(store)
  {
    assert Weights(store + [q]) == Weights(store) + [0];
    TotalAppend(Weights(store), 0);
  }

  lemma OwnersPut(store: seq<QueueState>, owner: map<Task, nat>, u: nat, q: QueueState)
    requires OwnersAgree(store, owner) && u < |store| && Tasks(q.log, Adds) == Tasks(store[u].log, Adds)
    ensures OwnersAgree(store[u := q], owner)
  {
    assert OwnsExactly(store[u], owner, u);
  }

  lemma OwnersAdd(store: seq<QueueState>, owner: map<Task, nat>, u: nat, q: QueueState, t: Task)
    requires OwnersAgree(store, owner) && u < |store| && t !in owner
    requires Tasks(q.log, Adds) == Tasks(store[u].log, Adds) + [t]
    ensures OwnersAgree(store[u := q], owner[t := u])
  {
    assert OwnsExactly(store[u], owner, u);
    forall v {:trigger OwnsExactly(store[u := q][v], owner[t := u], v)} | 0 <= v < |store|
      ensures OwnsExactly(store[u := q][v], owner[t := u], v)
    {
      assert OwnsExactly(store[v], owner, v);
    }
  }

  lemma TableRemove(store: seq<QueueState>, table: map<Key, nat>, k: Key, q: QueueState)
    requires TableAgrees(store, table) && k in table && q.freed
    ensures TableAgrees(store[table[k] := q], table - {k})
  {
  }

  lemma LogsPut(store: seq<QueueState>, u: nat, q: QueueState, quitting: bool)
    requires LogsAgree(store, quitting) && u < |store| && LogAgrees(q) && (quitting || NothingDropped(q))
    ensures LogsAgree(store[u := q], quitting)
  {
    hide LogAgrees, NothingDropped;
    forall v {:trigger LogAgrees(store[u := q][v])} | 0 <= v < |store|
      ensures LogAgrees(store[u := q][v]) && (quitting || NothingDropped(store[u := q][v]))
    {
      assert v != u ==> LogAgrees(store[v]);
    }
  }

  lemma PutBase(s: ProcessorState, k: Key, q: QueueState, running: int, owner: map<Task, nat>)
    requires Base(s) && Live(s, k)
    requires q.key == k && !q.freed && LogAgrees(q)
    requires s.quitting || NothingDropped(q)
    requires OwnersAgree(s.store[s.table[k] := q], owner)
    requires running + Weight(Lookup(s, k)) == s.running + Weight(q)
    ensures Base(Put(s, k, q).(running := running, owner := owner))
  {
    var u, store := s.table[k], s.store[s.table[k] := q];
    RunningCountPut(s.store, u, q);
    TablePut(s.store, s.table, u, q);
    LogsPut(s.store, u, q, s.quitting);
    hide LogsAgree, RunningCount, OwnersAgree, TableAgrees;
    assert Put(s, k, q).store == store;
  }

  /** Replacing one queue by a later version of itself. */
  lemma PutKeepsBase(s: ProcessorState, k: Key, q: QueueState, running: int)
    requires Base(s) && Live(s, k)
    requires q.key == k && !q.freed && LogAgrees(q)
    requires s.quitting || NothingDropped(q)
    requires Tasks(q.log, Adds) == Tasks(Lookup(s, k).log, Adds)
    requires running + Weight(Lookup(s, k)) == s.running + Weight(q)
    ensures Base(Put(s, k, q).(running := running))
  {
    OwnersPut(s.store, s.owner, s.table[k], q);
    PutBase(s, k, q, running, s.owner);
  }

  lemma RemoveKeepsBase(s: ProcessorState, k: Key)
    requires Base(s) && Live(s, k) && Lookup(s, k).current.Idle?
    requires s.quitting || Books(Lookup(s, k)).cut || Lookup(s, k).tasks == []
    ensures Base(RemoveQueue(s, k))
  {
    var u, q := s.table[k], Lookup(s, k);
    var q' := FreeQueue(q);
    FreeQueueAgrees(q);
    RunningCountPut(s.store, u, q');
    OwnersPut(s.store, s.owner, u, q');
    TableRemove(s.store, s.table, k, q');
    assert Books(q).popped + [] == Books(q).popped;
  }

  lemma NoneRunning(s: ProcessorState, u: nat)
    requires Base(s) && s.running == 0 && u < |s.store| && !s.store[u].freed
    ensures s.store[u].current.Idle?
  {
    TotalZero(Weights(s.store));
    assert Weights(s.store)[u] == 0;
  }

  lemma FreeAllAgrees(store: seq<QueueState>, owner: map<Task, nat>, u: nat)
    requires LogsAgree(store, true) && OwnersAgree(store, owner) && u < |store|
    requires !store[u].freed ==> store[u].current.Idle?
    ensures LogAgrees(FreeLive(store[u])) && OwnsExactly(FreeLive(store[u]), owner, u)
  {
    assert LogAgrees(store[u]) && OwnsExactly(store[u], owner, u);
    if !store[u].freed {
      FreeQueueAgrees(store[u]);
    }
  }

  lemma RemoveAllKeepsCore(s: ProcessorState)
    requires Base(s) && s.running == 0 && s.quitting
    ensures Core(RemoveAllQueues(s))
  {
    forall u | 0 <= u < |s.store|
      ensures LogAgrees(FreeLive(s.store[u])) && OwnsExactly(FreeLive(s.store[u]), s.owner, u)
    {
      if !s.store[u].freed {
        NoneRunning(s, u);
      }
      FreeAllAgrees(s.store, s.owner, u);
    }
    TotalZero(Weights(FreeAll(s.store)));
  }

  lemma PutKeepsCore(s: ProcessorState, k: Key, q: QueueState, running: int)
    requires CoreExcept(s, k)
    requires q.key == k && !q.freed && LogAgrees(q) && Shaped(q)
    requires s.quitting || NothingDropped(q)
    requires Tasks(q.log, Adds) == Tasks(Lookup(s, k).log, Adds)
    requires running + Weight(Lookup(s, k)) == s.running + Weight(q)
    ensures Core(Put(s, k, q).(running := running))
  {
    PutKeepsBase(s, k, q, running);
  }

  lemma RemoveKeepsCore(s: ProcessorState, k: Key)
    requires CoreExcept(s, k) && Lookup(s, k).current.Idle?
    requires s.quitting || Books(Lookup(s, k)).cut || Lookup(s, k).tasks == []
    ensures Core(RemoveQueue(s, k))
  {
    FreeQueueAgrees(Lookup(s, k));
    RemoveKeepsBase(s, k);
  }

  lemma SourcesPut(store: seq<QueueState>, sources: map<nat, nat>, nextSource: nat, u: nat, q: QueueState)
    requires SourcesAgree(store, sources, nextSource) && u < |store|
    requires q.freed == store[u].freed && q.idle == store[u].idle
    ensures SourcesAgree(store[u := q], sources, nextSource)
  {
  }

  lemma SourcesDrop(store: seq<QueueState>, sources: map<nat, nat>, nextSource: nat, u: nat, q: QueueState)
    requires SourcesAgree(store, sources, nextSource) && u < |store|
    requires !store[u].freed && !q.freed && q.idle == 0
    ensures SourcesAgree(store[u := q], if store[u].idle != 0 then sources - {store[u].idle} else sources, nextSource)
  {
  }

  /** Freeing a queue leaves its idle source behind: agreement survives just when there is none. */
  lemma SourcesFree(store: seq<QueueState>, sources: map<nat, nat>, nextSource: nat, u: nat, q: QueueState)
    requires SourcesAgree(store, sources, nextSource) && u < |store|
    requires !store[u].freed && q.freed
    ensures SourcesAgree(store[u := q], sources, nextSource) <==> store[u].idle == 0
  {
    if store[u].idle != 0 {
      assert sources[store[u].idle] == u && store[u := q][u].freed;
    }
  }

  lemma TableGrow(store: seq<QueueState>, table: map<Key, nat>, q: QueueState)
    requires TableAgrees(store, table) && !q.freed && q.key !in table
    ensures TableAgrees(store + [q], table[q.key := |store|])
  {
  }

  // ---------------------------------------------------------------------
  // Operations keep Core
  // ---------------------------------------------------------------------

  lemma LogsGrow(store: seq<QueueState>, quitting: bool, q: QueueState)
    requires LogsAgree(store, quitting) && LogAgrees(q) && NothingDropped(q)
    ensures LogsAgree(store + [q], quitting)
  {
    hide LogAgrees, NothingDropped;
    forall u {:trigger LogAgrees((store + [q])[u])} | 0 <= u < |store| + 1
      ensures LogAgrees((store + [q])[u]) && (quitting || NothingDropped((store + [q])[u]))
    {
      assert u < |store| ==> LogAgrees(store[u]);
    }
  }

  lemma AddQueueKeepsCore(s: ProcessorState, k: Key, flags: Flags, client: Client)
    requires Core(s) && k !in s.table
    ensures Core(AddQueue(s, k, flags, client))
  {
    var q, s1 := NewQueue(k, flags, client), AddQueue(s, k, flags, client);
    TableGrow(s.store, s.table, q);
    RunningCountGrow(s.store, q);
    hide LogAgrees, Shaped, NothingDropped, OwnersAgree, TableAgrees, RunningCount;
    LogsGrow(s.store, s.quitting, q);
    hide LogsAgree;
    forall u {:trigger Shaped(s1.store[u])} | 0 <= u < |s1.store|
      ensures Shaped(s1.store[u])
    {
      assert u < |s.store| ==> Shaped(s.store[u]);
    }
  }

  lemma ScheduleKeepsCore(s: ProcessorState, k: Key)
    requires CoreExcept(s, k)
    requires var q := Lookup(s, k); q.current.Idle? && q.tasks != [] && !q.deferRemove
    ensures Core(Schedule(s, k))
  {
    assert LogAgrees(Lookup(s, k));
    PutKeepsCore(s, k, Lookup(s, k).(idle := s.nextSource), s.running);
  }

  lemma SetFinallyKeepsCore(s: ProcessorState, k: Key, present: bool)
    requires Core(s) && Live(s, k)
    ensures Core(SetFinally(s, k, present))
  {
    assert LogAgrees(Lookup(s, k)) && Shaped(Lookup(s, k));
    PutKeepsCore(s, k, Lookup(s, k).(hasFinally := present), s.running);
  }

  lemma AppendKeeps(s: ProcessorState, k: Key, t: Task)
    requires Core(s) && Live(s, k) && t !in s.owner
    ensures CoreExcept(Append(s, k, t), k)
  {
    var u, q := s.table[k], Lookup(s, k);
    assert LogAgrees(q) && OwnsExactly(q, s.owner, u);
    EnqueueAgrees(q, t);
    OwnersAdd(s.store, s.owner, u, Enqueue(q, t), t);
    PutBase(s, k, Enqueue(q, t), s.running, s.owner[t := u]);
  }

  lemma AddTaskKeepsCore(s: ProcessorState, k: Key, t: Task)
    requires Core(s) && Live(s, k) && t !in s.owner
    ensures Core(AddTask(s, k, t))
  {
    var q := Lookup(s, k);
    assert LogAgrees(q) && Shaped(q) && OwnsExactly(q, s.owner, s.table[k]);
    AppendKeeps(s, k, t);
    if AddTask(s, k, t) != Append(s, k, t) {
      ScheduleKeepsCore(Append(s, k, t), k);
    } else {
      EnqueueAgrees(q, t);
      assert Shaped(Enqueue(q, t));
    }
  }

  lemma StartKeepsCore(s: ProcessorState, k: Key)
    requires Core(s) && Legal(s, OpStart(k))
    ensures Core(Start(s, k))
  {
    var q := Lookup(s, k);
    if !s.quitting && !q.deferRemove {
      if q.tasks != [] {
        if q.current.Idle? && q.idle == 0 {
          ScheduleKeepsCore(s, k);
        }
      } else if q.flags.autoRemove {
        RemoveKeepsCore(s, k);
      }
    }
  }

  lemma EndTaskKeeps(s: ProcessorState, k: Key)
    requires CoreExcept(s, k) && Lookup(s, k).current.Running?
    ensures CoreExcept(EndTask(s, k), k)
  {
    assert LogAgrees(Lookup(s, k));
    EndCurrentAgrees(Lookup(s, k));
    PutKeepsBase(s, k, EndCurrent(Lookup(s, k)), s.running - 1);
  }

  lemma GoOnKeepsCore(s: ProcessorState, k: Key)
    requires CoreExcept(s, k)
    requires var q := Lookup(s, k); q.current.Idle? && q.idle == 0 && (q.deferRemove ==> q.cancelled)
    ensures Core(GoOn(s, k))
  {
    var q := Lookup(s, k);
    assert LogAgrees(q);
    if s.quitting && s.running == 0 {
      RemoveAllKeepsCore(s.(quits := s.quits + 1));
    } else if q.deferRemove {
      AcceptedIsLawful(q.log);
      RemoveKeepsCore(s, k);
    } else if q.tasks != [] {
      ScheduleKeepsCore(s, k);
    } else if q.flags.autoRemove {
      RemoveKeepsCore(s, k);
    } else {
      assert Shaped(q);
    }
  }

  lemma TaskCompletedKeepsCore(s: ProcessorState, k: Key)
    requires CoreExcept(s, k)
    requires var q := Lookup(s, k); q.current.Running? && q.idle == 0 && (q.deferRemove ==> q.cancelled)
    ensures Core(TaskCompleted(s, k))
  {
    EndTaskKeeps(s, k);
    GoOnKeepsCore(EndTask(s, k), k);
  }

  /** Shaped, except that removal may just have been deferred. */
  ghost predicate Cancellable(q: QueueState) {
    && !q.freed
    && Shaped(q.(deferRemove := false))
    && (q.deferRemove ==> q.current.Running?)
  }

  lemma CutQueueKeeps(s: ProcessorState, k: Key)
    requires CoreExcept(s, k) && !Lookup(s, k).cancelled
    ensures CoreExcept(CutQueue(s, k), k)
    ensures Books(Lookup(CutQueue(s, k), k)).cut
  {
    assert LogAgrees(Lookup(s, k));
    CutAgrees(Lookup(s, k));
    PutKeepsBase(s, k, Cut(Lookup(s, k)), s.running);
  }

  lemma CancelKeepsCore(s: ProcessorState, k: Key)
    requires CoreExcept(s, k) && Cancellable(Lookup(s, k))
    ensures Core(Cancel(s, k))
  {
    var q := Lookup(s, k);
    if q.cancelled {
      assert LogAgrees(q);
      CancelCallAgrees(q);
      PutKeepsCore(s, k, q.(log := q.log + [CancelCall]), s.running);
    } else {
      CutQueueKeeps(s, k);
      if IsWaiting(q) {
        TaskCompletedKeepsCore(CutQueue(s, k), k);
      } else if CancelRemoves(q) {
        RemoveKeepsCore(CutQueue(s, k), k);
      } else {
        assert Shaped(Cut(q));
      }
    }
  }

  lemma SetPhaseKeepsCore(s: ProcessorState, k: Key, p: Phase)
    requires Core(s) && Live(s, k) && Lookup(s, k).current.Running? && Lookup(s, k).client == ServiceTasks
    requires p == Waiting ==> !Lookup(s, k).cancelled
    ensures Core(Put(s, k, SetPhase(Lookup(s, k), p)))
  {
    assert LogAgrees(Lookup(s, k)) && Shaped(Lookup(s, k));
    PutKeepsCore(s, k, SetPhase(Lookup(s, k), p), s.running);
  }

  lemma ActionReturnsKeepsCore(s: ProcessorState, k: Key, hasAction: bool, failed: bool)
    requires Core(s) && Legal(s, OpActionReturns(k, hasAction, failed))
    ensures Core(ActionReturns(s, k, hasAction, failed))
  {
    SetPhaseKeepsCore(s, k, if hasAction then Waiting else Starting);
    var s1 := Put(s, k, SetPhase(Lookup(s, k), if hasAction then Waiting else Starting));
    assert Shaped(Lookup(s1, k));
    if failed {
      CancelKeepsCore(s1, k);
      assert Shaped(Lookup(Cancel(s1, k), k));
      TaskCompletedKeepsCore(Cancel(s1, k), k);
    } else if !hasAction {
      TaskCompletedKeepsCore(s1, k);
    }
  }

  lemma ReplyBeginsKeepsCore(s: ProcessorState, k: Key)
    requires Core(s) && Legal(s, OpReplyBegins(k))
    ensures Core(ReplyBegins(s, k))
  {
    SetPhaseKeepsCore(s, k, Replying);
  }

  lemma DispatchKeepsCore(s: ProcessorState, k: Key)
    requires Core(s) && Live(s, k) && Lookup(s, k).current.Idle? && Lookup(s, k).tasks != []
    ensures Core(Put(s, k, TakeHead(Lookup(s, k))).(running := s.running + 1))
  {
    var q := Lookup(s, k);
    assert LogAgrees(q) && Shaped(q);
    TakeHeadAgrees(q);
    PutKeepsCore(s, k, TakeHead(q), s.running + 1);
  }

  // ---------------------------------------------------------------------
  // Operations keep the agreement with the main loop
  // ---------------------------------------------------------------------

  lemma ScheduleAgrees(s: ProcessorState, k: Key)
    requires TableAgrees(s.store, s.table) && Agrees(s) && s.nextSource > 0
    requires Live(s, k) && Lookup(s, k).idle == 0
    ensures Agrees(Schedule(s, k))
  {
  }

  lemma RemoveAgrees(s: ProcessorState, k: Key)
    requires TableAgrees(s.store, s.table) && Agrees(s) && Live(s, k)
    ensures Agrees(RemoveQueue(s, k)) <==> Lookup(s, k).idle == 0
  {
    SourcesFree(s.store, s.sources, s.nextSource, s.table[k], FreeQueue(Lookup(s, k)));
  }

  lemma TablePut(store: seq<QueueState>, table: map<Key, nat>, u: nat, q: QueueState)
    requires TableAgrees(store, table) && u < |store| && q.key == store[u].key && q.freed == store[u].freed
    ensures TableAgrees(store[u := q], table)
  {
  }

  lemma AddTaskAgrees(s: ProcessorState, k: Key, t: Task)
    requires TableAgrees(s.store, s.table) && Agrees(s) && s.nextSource > 0 && Live(s, k)
    ensures Agrees(AddTask(s, k, t))
  {
    TablePut(s.store, s.table, s.table[k], Enqueue(Lookup(s, k), t));
    SourcesPut(s.store, s.sources, s.nextSource, s.table[k], Enqueue(Lookup(s, k), t));
    if AddTask(s, k, t) != Append(s, k, t) {
      ScheduleAgrees(Append(s, k, t), k);
    }
  }

  lemma StartAgrees(s: ProcessorState, k: Key)
    requires TableAgrees(s.store, s.table) && Agrees(s) && s.nextSource > 0 && Live(s, k)
    requires Lookup(s, k).idle != 0 ==> Lookup(s, k).tasks != []
    ensures Agrees(Start(s, k))
  {
    if Start(s, k) != s {
      if Lookup(s, k).tasks != [] {
        ScheduleAgrees(s, k);
      } else {
        RemoveAgrees(s, k);
      }
    }
  }

  lemma GoOnAgrees(s: ProcessorState, k: Key)
    requires TableAgrees(s.store, s.table) && Agrees(s) && s.nextSource > 0
    requires Live(s, k) && Lookup(s, k).idle == 0 && !s.quitting
    ensures Agrees(GoOn(s, k))
  {
    var q := Lookup(s, k);
    if !q.deferRemove && q.tasks != [] {
      ScheduleAgrees(s, k);
    } else {
      RemoveAgrees(s, k);
    }
  }

  lemma TaskCompletedAgrees(s: ProcessorState, k: Key)
    requires TableAgrees(s.store, s.table) && Agrees(s) && s.nextSource > 0
    requires Live(s, k) && Lookup(s, k).idle == 0 && !s.quitting
    ensures Agrees(TaskCompleted(s, k))
  {
    var q' := EndCurrent(Lookup(s, k));
    TablePut(s.store, s.table, s.table[k], q');
    SourcesPut(s.store, s.sources, s.nextSource, s.table[k], q');
    GoOnAgrees(EndTask(s, k), k);
  }

  lemma CancelAgrees(s: ProcessorState, k: Key)
    requires TableAgrees(s.store, s.table) && Agrees(s) && s.nextSource > 0 && Live(s, k) && !s.quitting
    ensures Agrees(Cancel(s, k))
  {
    var u, q := s.table[k], Lookup(s, k);
    if q.cancelled {
      SourcesPut(s.store, s.sources, s.nextSource, u, q.(log := q.log + [CancelCall]));
    } else {
      TablePut(s.store, s.table, u, Cut(q));
      SourcesDrop(s.store, s.sources, s.nextSource, u, Cut(q));
      if IsWaiting(q) {
        TaskCompletedAgrees(CutQueue(s, k), k);
      } else if CancelRemoves(q) {
        RemoveAgrees(CutQueue(s, k), k);
      }
    }
  }
}
