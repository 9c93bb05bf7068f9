/**
 The processor as the program has it: objects updated in place.  Every method is
 proved to take the abstract state where the function of the same name in
 Scheduler takes it, re-entrant completions included.
 */
module Processors {
  import opened Wrappers
  import opened Protocol
  import opened Scheduler
  import opened Invariant
  import opened Tables
  import opened Queues
  import opened Removal
  import opened Shutdown
  import opened Callbacks

  /** The main loop's sources are for the queues the abstract state says. */
  ghost predicate SourcesFit(sources: map<nat, Queue>, at: map<nat, nat>, queues: set<Queue>) {
    sources.Keys == at.Keys && forall n | n in sources :: sources[n] in queues && sources[n].uid == at[n]
  }

  /** The table files known queues under their keys, where the abstract state says. */
  ghost predicate TableFits(table: map<Key, Queue>, at: map<Key, nat>, queues: set<Queue>) {
    table.Keys == at.Keys && forall k | k in table :: table[k] in queues && table[k].key == k && table[k].uid == at[k]
  }

  /** Queues are numbered below n, each with a number of its own. */
  ghost predicate Numbered(queues: set<Queue>, n: nat) {
    && (forall q {:trigger q.uid} | q in queues :: q.uid < n)
    && (forall q, r {:trigger q.uid, r.uid} | q in queues && r in queues && q.uid == r.uid :: q == r)
  }

  /** Every known task has an owner on record, and an id of its own. */
  ghost predicate AtomsFit(atoms: set<ServiceTask>, owner: map<Task, nat>) {
    && (forall t | t in atoms :: t.id in owner)
    && (forall t, t1 | t in atoms && t1 in atoms && t.id == t1.id :: t == t1)
  }

  lemma DispatchTakesHead(s: ProcessorState, sid: nat, k: Key)
    requires sid in s.sources && Scheduler.Dispatch(s, sid).Some?
    requires s.sources[sid] < |s.store| && s.store[s.sources[sid]].key == k
    ensures Live(s, k) && Lookup(s, k).tasks != []
    ensures Scheduler.Dispatch(s, sid).value
            == Put(s, k, TakeHead(Lookup(s, k))).(running := s.running + 1, sources := s.sources - {sid})
  {
  }

  /** Completion does not depend on how far the client had come. */
  lemma CompletedFromAnyPhase(s: ProcessorState, k: Key)
    requires Live(s, k) && Lookup(s, k).current.Running?
    ensures Live(Scheduler.ReplyBegins(s, k), k)
    ensures Scheduler.TaskCompleted(Scheduler.ReplyBegins(s, k), k) == Scheduler.TaskCompleted(s, k)
  {
    assert Scheduler.EndTask(Scheduler.ReplyBegins(s, k), k) == Scheduler.EndTask(s, k);
  }

  /** A cancel does not remove a queue whose current task is not awaited. */
  lemma StillThere(s: ProcessorState, k: Key)
    requires Live(s, k) && Lookup(s, k).current.Running? && !IsWaiting(Lookup(s, k))
    ensures Live(Scheduler.Cancel(s, k), k)
  {
  }

  class Processor {
    var table: map<Key, Queue>
    var running: int
    var quitting: bool
    /** The main loop's sources for prv_process_task, the next source id, and how often on_quit_cb was scheduled. */
    var sources: map<nat, Queue>
    var nextSource: nat
    var quits: nat
    /** The abstract state the objects stand for, every task ever added and every queue ever created. */
    ghost var state: ProcessorState
    ghost var atoms: set<ServiceTask>
    ghost var queues: set<Queue>

    ghost predicate CountersMatch()
      reads this
    {
      running == state.running && quitting == state.quitting && nextSource == state.nextSource && quits == state.quits
    }

    /** The store has a faithful record of q. */
    ghost predicate OnRecord(q: Queue)
      reads this, q, atoms
    {
      q.uid < |state.store| && q.view == state.store[q.uid] && q.Valid(atoms)
    }

    ghost predicate Valid()
      reads this, queues, atoms
    {
      && CountersMatch()
      && SourcesFit(sources, state.sources, queues)
      && TableFits(table, state.table, queues)
      && Numbered(queues, |state.store|)
      && AtomsFit(atoms, state.owner)
      && forall q {:trigger OnRecord(q)} | q in queues :: OnRecord(q)
    }

    /** dleyna_task_processor_new. */
    constructor ()
      ensures Valid() && state == INITIAL && table == map[] && atoms == {}
    {
      table, running, quitting := map[], 0, false;
      sources, nextSource, quits := map[], 1, 0;
      state, atoms, queues := INITIAL, {}, {};
    }

    // ---------------------------------------------------------------------
    // Framing
    // ---------------------------------------------------------------------

    /** What the table says about one of its queues. */
    lemma Known(k: Key)
      requires Valid() && k in table
      ensures Live(state, k) && table[k] in queues
      ensures table[k].key == k && table[k].uid == state.table[k]
      ensures table[k].view == Lookup(state, k) && table[k].view.key == k && table[k].Valid(atoms)
    {
      assert OnRecord(table[k]);
    }

    lemma Same()
      requires Valid()
      ensures CountersMatch() && SourcesFit(sources, state.sources, queues) && TableFits(table, state.table, queues)
      ensures AtomsFit(atoms, state.owner)
      ensures forall k :: k in table <==> Live(state, k)
    {
      forall k | k in table
        ensures Live(state, k)
      {
        Known(k);
      }
    }

    /** What the main loop says about one of its sources. */
    lemma SourceKnown(sid: nat)
      requires Valid() && sid in sources
      ensures sid in state.sources && sources[sid].uid == state.sources[sid] < |state.store|
      ensures sources[sid].key == state.store[state.sources[sid]].key
    {
      assert OnRecord(sources[sid]);
    }

    lemma LogsRecorded()
      requires Valid()
      ensures forall q | q in queues :: q.uid < |state.store| && q.view == state.store[q.uid] && q.log == q.view.log
    {
      forall q | q in queues
        ensures q.uid < |state.store| && q.view == state.store[q.uid] && q.log == q.view.log
      {
        assert OnRecord(q);
      }
    }

    /** When only selected queues have gone, the others are the same objects in the same state. */
    twostate lemma OthersStay(sel: Selector)
      requires old(Valid()) && Valid() && queues == old(queues) && OnlySelectedGone(old(state), sel, state)
      ensures forall k | k in old(table) ::
                && (k in table <==> if sel.BySource? then k.source != sel.name else k.sink != sel.name)
                && (k in table ==> table[k] == old(table[k]) && table[k].view == old(table[k].view))
    {
      hide Queue.Valid;
      forall k | k in table
        ensures k in old(table) && table[k] == old(table[k]) && table[k].view == old(table[k].view)
      {
        assert OnRecord(table[k]) && old(OnRecord(table[k]));
      }
    }

    /** One queue has changed, and the abstract state with it. */
    twostate lemma QueueMoved(q: Queue)
      requires old(Valid()) && q in queues && queues == old(queues) && atoms == old(atoms)
      requires forall r | r in queues && r != q :: unchanged(r)
      requires forall t | t in atoms && old(t.queueId) != q :: unchanged(t)
      requires q.Valid(atoms) && q.uid < |old(state).store| && state.store == old(state).store[q.uid := q.view]
      requires CountersMatch() && SourcesFit(sources, state.sources, queues) && TableFits(table, state.table, queues)
      requires AtomsFit(atoms, state.owner)
      ensures Valid()
    {
      hide Queue.Valid, SourcesFit, TableFits, AtomsFit, CountersMatch;
      forall r | r in queues && r != q
        ensures OnRecord(r)
      {
        assert old(OnRecord(r));
        r.Undisturbed(atoms);
      }
      assert OnRecord(q);
    }

    /** A new queue has joined. */
    twostate lemma QueueJoined(new q: Queue)
      requires old(Valid()) && queues == old(queues) + {q} && atoms == old(atoms) && q !in old(queues)
      requires forall r | r in old(queues) :: unchanged(r)
      requires forall t | t in atoms :: unchanged(t)
      requires q.Valid(atoms) && q.uid == |old(state).store| && state.store == old(state).store + [q.view]
      requires CountersMatch() && SourcesFit(sources, state.sources, queues) && TableFits(table, state.table, queues)
      requires AtomsFit(atoms, state.owner)
      ensures Valid()
    {
      hide Queue.Valid, SourcesFit, TableFits, AtomsFit, CountersMatch;
      forall r | r in old(queues)
        ensures OnRecord(r)
      {
        assert old(OnRecord(r));
        r.Undisturbed(atoms);
      }
      assert OnRecord(q);
    }

    /** Only counters have changed. */
    twostate lemma CountersMoved()
      requires old(Valid())
      requires table == old(table) && queues == old(queues) && atoms == old(atoms) && sources == old(sources)
      requires forall r | r in queues :: unchanged(r)
      requires forall t | t in atoms :: unchanged(t)
      requires state.table == old(state.table) && state.store == old(state.store)
      requires state.sources == old(state.sources) && state.owner == old(state.owner) && CountersMatch()
      ensures Valid()
    {
      hide Queue.Valid, SourcesFit, TableFits;
      forall r | r in queues
        ensures OnRecord(r)
      {
        assert old(OnRecord(r));
        r.Undisturbed(atoms);
      }
    }

    /** A task has become known, and its owner is on record. */
    twostate lemma TaskJoined(t: ServiceTask)
      requires old(Valid()) && t !in old(atoms) && atoms == old(atoms) + {t} && t.id !in old(state.owner)
      requires table == old(table) && queues == old(queues) && sources == old(sources)
      requires state == old(state).(owner := state.owner) && state.owner.Keys == old(state.owner.Keys) + {t.id}
      requires running == old(running) && quitting == old(quitting)
      requires nextSource == old(nextSource) && quits == old(quits)
      requires forall r | r in queues :: unchanged(r)
      requires forall a | a in old(atoms) :: unchanged(a)
      ensures Valid()
      ensures forall q | q in queues :: t !in q.tasks && t != q.current
    {
      hide SourcesFit, TableFits, Numbered;
      forall r | r in queues
        ensures OnRecord(r) && t !in r.tasks && t != r.current
      {
        assert old(OnRecord(r));
        r.Undisturbed(old(atoms));
        r.MoreAtoms(old(atoms), atoms);
      }
    }

    /** t is the current task of the queue it was added to. */
    ghost predicate Runs(t: ServiceTask)
      reads this, queues, t
    {
      && t.queueId != null && t.queueId in queues
      && t.queueId.key in table && table[t.queueId.key] == t.queueId && t.queueId.current == t
    }

    /** What a client's books say of a task holds of the object: see Callbacks.ReportsMeetTheirTask. */
    lemma CalledRuns(t: ServiceTask, c: Call)
      requires Valid() && t in atoms && Meets(state, t.id, c)
      ensures Runs(t) && t.queueId.uid == c.queue && t.queueId.key == c.queueId
      ensures t.hasAction <==> c.phase == Waiting
    {
      Known(c.queueId);
      table[c.queueId].Reads(atoms);
    }

    // ---------------------------------------------------------------------
    // The hash table and the main loop
    // ---------------------------------------------------------------------

    /** g_hash_table_remove. */
    method RemoveQueue(k: Key)
      requires Valid()
      modifies this`table, this`state, queues
      ensures Valid() && state == Scheduler.RemoveQueue(old(state), k) && table == old(table) - {k}
    {
      hide Valid, Queue.Valid, AtomsFit, SourcesFit;
      Same();
      if k in table {
        Known(k);
        var q := table[k];
        q.Free(atoms);
        table := table - {k};
        state := Scheduler.RemoveQueue(state, k);
        QueueMoved(q);
      }
    }

    /** g_hash_table_remove_all, in whatever order it finds the queues. */
    method RemoveAllQueues()
      requires Valid() && Filed(state)
      modifies this`table, this`state, queues
      ensures Valid() && state == Scheduler.RemoveAllQueues(old(state)) && table == map[]
    {
      hide Valid, Filed, Scheduler.RemoveAllQueues, Scheduler.RemoveQueue;
      while table.Keys != {}
        invariant Valid() && Filed(state)
        invariant Scheduler.RemoveAllQueues(state) == Scheduler.RemoveAllQueues(old(state))
        decreases |table|
      {
        var k :| k in table.Keys;
        Same();
        RemovedAnyway(state, k);
        RemoveFiled(state, k);
        RemoveQueue(k);
      }
      Same();
      NothingToRemove(state);
    }

    /** g_idle_add of prv_process_task. */
    method Schedule(k: Key)
      requires Valid() && k in table
      modifies this`sources, this`nextSource, this`state, queues
      ensures Valid() && state == Scheduler.Schedule(old(state), k)
    {
      hide Valid, Queue.Valid, AtomsFit;
      Same();
      Known(k);
      var q := table[k];
      q.SetIdle(nextSource, atoms);
      sources := sources[nextSource := q];
      nextSource := nextSource + 1;
      state := Scheduler.Schedule(state, k);
      QueueMoved(q);
    }

    /** g_idle_add of the quit callback. */
    method ScheduleQuit()
      requires Valid()
      modifies this`quits, this`state
      ensures Valid() && state == old(state).(quits := old(state).quits + 1)
    {
      hide Valid, AtomsFit, SourcesFit;
      Same();
      quits := quits + 1;
      state := state.(quits := state.quits + 1);
      CountersMoved();
    }

    // ---------------------------------------------------------------------
    // task-processor.c
    // ---------------------------------------------------------------------

    method AddQueue(k: Key, flags: Flags, client: Client)
      requires Valid() && k !in table
      modifies this`table, this`queues, this`state
      ensures Valid() && state == Scheduler.AddQueue(old(state), k, flags, client)
      ensures table.Keys == old(table.Keys) + {k} && fresh(queues - old(queues))
    {
      hide Valid, Queue.Valid, AtomsFit;
      Same();
      var q := new Queue(|state.store|, k, flags, client);
      table := table[k := q];
      queues := queues + {q};
      state := Scheduler.AddQueue(state, k, flags, client);
      QueueJoined(q);
    }

    method SetFinally(k: Key, present: bool)
      requires Valid() && k in table
      modifies this`state, queues
      ensures Valid() && state == Scheduler.SetFinally(old(state), k, present)
    {
      hide Valid, Queue.Valid, AtomsFit, SourcesFit;
      Same();
      Known(k);
      var q := table[k];
      q.SetFinally(present, atoms);
      state := Scheduler.SetFinally(state, k, present);
      QueueMoved(q);
    }

    method Start(k: Key)
      requires Valid() && k in table
      modifies this`table, this`sources, this`nextSource, this`state, queues
      ensures Valid() && state == Scheduler.Start(old(state), k)
    {
      hide Valid, Queue.Valid, AtomsFit, SourcesFit, Scheduler.Schedule, Scheduler.RemoveQueue;
      Same();
      Known(k);
      var q := table[k];
      q.Reads(atoms);
      if quitting || q.deferRemove {
        return;
      }
      if q.tasks != [] {
        if q.current == null && q.idle == 0 {
          Schedule(k);
        }
      } else if q.flags.autoRemove {
        RemoveQueue(k);
      }
    }

    /** prv_process_task, up to the call of the process callback. */
    method ProcessTask(sid: nat)
      requires Valid() && sid in sources && sid in state.sources && Scheduler.Dispatch(state, sid).Some?
      modifies this`sources, this`running, this`state, queues
      ensures Valid() && Some(state) == Scheduler.Dispatch(old(state), sid)
    {
      hide Valid, Queue.Valid, AtomsFit;
      Same();
      SourceKnown(sid);
      var k := sources[sid].key;
      Known(k);
      var q := table[k];
      q.Reads(atoms);
      DispatchTakesHead(state, sid, k);
      hide Scheduler.Dispatch, Scheduler.TakeHead;
      q.TakeHead(atoms);
      running := running + 1;
      sources := sources - {sid};
      state := Scheduler.Dispatch(state, sid).value;
      QueueMoved(q);
    }

    /** task_completed as far as the current task goes. */
    method EndTask(k: Key)
      requires Valid() && k in table
      modifies this`running, this`state, queues
      ensures Valid() && state == Scheduler.EndTask(old(state), k)
    {
      hide Valid, Queue.Valid, AtomsFit, SourcesFit;
      Same();
      Known(k);
      var q := table[k];
      q.EndCurrent(atoms);
      running := running - 1;
      state := Scheduler.EndTask(state, k);
      QueueMoved(q);
    }

    method TaskCompleted(k: Key)
      requires Valid() && Filed(state) && k in table
      modifies this`table, this`running, this`sources, this`nextSource, this`quits, this`state, queues
      ensures Valid() && state == Scheduler.TaskCompleted(old(state), k)
    {
      hide Valid, Queue.Valid, AtomsFit, SourcesFit, TableAgrees;
      hide Scheduler.EndTask, Scheduler.Schedule, Scheduler.RemoveQueue, Scheduler.RemoveAllQueues;
      Same();
      TaskCompletedFiled(state, k);
      EndTask(k);
      Same();
      Known(k);
      var q := table[k];
      q.Reads(atoms);
      if quitting && running == 0 {
        ScheduleQuit();
        RemoveAllQueues();
      } else if q.deferRemove {
        RemoveQueue(k);
      } else if q.tasks != [] {
        Schedule(k);
      } else if q.flags.autoRemove {
        RemoveQueue(k);
      }
    }

    method NoteCancel(k: Key)
      requires Valid() && k in table
      modifies this`state, queues
      ensures Valid()
      ensures var q := Lookup(old(state), k); state == Put(old(state), k, q.(log := q.log + [CancelCall]))
    {
      hide Valid, Queue.Valid, AtomsFit, SourcesFit;
      Same();
      Known(k);
      var q := table[k];
      state := Put(state, k, q.view.(log := q.view.log + [CancelCall]));
      q.NoteCancel(atoms);
      QueueMoved(q);
    }

    /** The part of prv_cancel_only that concerns the queue itself. */
    method CutQueue(k: Key)
      requires Valid() && k in table
      modifies this`sources, this`state, queues
      ensures Valid() && state == Scheduler.CutQueue(old(state), k)
      ensures table[k].current == old(table[k].current)
    {
      hide Valid, Queue.Valid, AtomsFit;
      Same();
      Known(k);
      var q := table[k];
      var source := q.Cut(atoms);
      if source != 0 {
        sources := sources - {source};
      }
      state := Scheduler.CutQueue(state, k);
      QueueMoved(q);
    }

    /** prv_cancel_only; the result tells the caller whether to remove the queue. */
    method CancelOnly(k: Key) returns (remove: bool)
      requires Valid() && Filed(state) && k in table
      modifies this`table, this`running, this`sources, this`nextSource, this`quits, this`state, queues, atoms
      ensures Valid() && state == Scheduler.CancelOnly(old(state), k)
      ensures remove == CancelRemoves(Lookup(old(state), k))
    {
      hide Valid, Queue.Valid, AtomsFit, SourcesFit, TableAgrees;
      hide Scheduler.CutQueue, Scheduler.TaskCompleted;
      Same();
      Known(k);
      var q := table[k];
      q.Reads(atoms);
      if q.cancelled {
        NoteCancel(k);
        return false;
      }
      CutFiled(state, k);
      CutQueue(k);
      if q.current != null {
        CancelTask(q.current);
        return false;
      }
      return q.flags.autoRemove;
    }

    /**
     dleyna_service_task_cancel_cb, on any task: one whose action is awaited is ended here
     and now, through the queue it noted; for all others nothing happens.
     */
    method CancelTask(t: ServiceTask)
      requires Valid() && Filed(state) && (t.hasAction ==> Runs(t))
      modifies this`table, this`running, this`sources, this`nextSource, this`quits, this`state, queues, atoms
      ensures Valid()
      ensures state == if old(t.hasAction) then Scheduler.TaskCompleted(old(state), old(t.queueId.key)) else old(state)
    {
      hide Valid, Queue.Valid, AtomsFit, SourcesFit, TableAgrees;
      hide Scheduler.TaskCompleted;
      if t.hasAction {
        var k := t.queueId.key;
        Known(k);
        t.queueId.Reads(atoms);
        CompletedFromAnyPhase(state, k);
        SetPhaseFiled(state, k, Replying);
        ReplyBegins(t);
        TaskCompleted(k);
      }
    }

    /** prv_cancel. */
    method Cancel(k: Key)
      requires Valid() && Filed(state) && k in table
      modifies this`table, this`running, this`sources, this`nextSource, this`quits, this`state, queues, atoms
      ensures Valid() && state == Scheduler.Cancel(old(state), k)
    {
      hide Valid, TableAgrees, Scheduler.CancelOnly, Scheduler.RemoveQueue;
      Same();
      var remove := CancelOnly(k);
      if remove {
        RemoveQueue(k);
      }
    }

    /** prv_cancel_all_queues; order is the one in which the table finds its keys. */
    method CancelAll(order: seq<Key>)
      requires Valid() && Filed(state)
      modifies this`table, this`running, this`sources, this`nextSource, this`quits, this`state, queues, atoms
      ensures Valid() && Filed(state) && state == Scheduler.CancelAll(old(state), order)
    {
      hide Valid, Filed, Scheduler.Cancel;
      var i := 0;
      while i < |order|
        invariant i <= |order|
        invariant Valid() && Filed(state)
        invariant Scheduler.CancelAll(state, order[i..]) == Scheduler.CancelAll(old(state), order)
      {
        Same();
        assert order[i..][1..] == order[i + 1..];
        if order[i] in table {
          CancelFiled(state, order[i]);
          Cancel(order[i]);
        }
        i := i + 1;
      }
    }

    method BeginQuitting()
      requires Valid()
      modifies this`quitting, this`quits, this`state
      ensures Valid()
      ensures var s := old(state);
              state == s.(quitting := true, quits := if s.running == 0 then s.quits + 1 else s.quits)
    {
      hide Valid, AtomsFit, SourcesFit;
      Same();
      quitting := true;
      if running == 0 {
        quits := quits + 1;
      }
      state := state.(quitting := true, quits := quits);
      CountersMoved();
    }

    method SetQuitting(order: seq<Key>)
      requires Valid() && Filed(state)
      modifies this`table, this`running, this`sources, this`nextSource, this`quits, this`quitting, this`state
      modifies queues, atoms
      ensures Valid() && state == Scheduler.SetQuitting(old(state), order) && table == map[]
      ensures old(Core(state) && Quiescent(state)) && Enumerates(order, old(state.table)) ==>
                && running == 0 && quits == old(quits) + 1
                && forall q | q in queues :: q.log == q.view.log && Finished(q.view)
    {
      hide Valid, TableAgrees, Scheduler.CancelAll, Scheduler.RemoveAllQueues, Quiescent, Core, Enumerates, Finished;
      Same();
      BeginQuitting();
      CancelAll(order);
      RemoveAllQueues();
      assert state == Scheduler.SetQuitting(old(state), order);
      hide Scheduler.SetQuitting;
      Same();
      LogsRecorded();
      if old(Core(state) && Quiescent(state)) && Enumerates(order, old(state.table)) {
        ShutdownDelivers(old(state), order);
      }
    }

    method MarkDeferred(k: Key)
      requires Valid() && k in table
      modifies this`state, queues
      ensures Valid() && state == Scheduler.MarkDeferred(old(state), k)
    {
      hide Valid, Queue.Valid, AtomsFit, SourcesFit;
      Same();
      Known(k);
      var q := table[k];
      q.Reads(atoms);
      q.SetDeferRemove(q.current != null, atoms);
      state := Scheduler.MarkDeferred(state, k);
      QueueMoved(q);
    }

    /** prv_free_queue_for_source and prv_free_queue_for_sink, with the removal their result asks for. */
    method RemoveSelected(sel: Selector, k: Key)
      requires Valid() && Filed(state) && k in table
      modifies this`table, this`running, this`sources, this`nextSource, this`quits, this`state, queues, atoms
      ensures Valid() && state == Scheduler.RemoveSelected(old(state), sel, k)
    {
      hide Valid, Queue.Valid, Filed, Scheduler.MarkDeferred, Scheduler.Cancel, Scheduler.RemoveQueue;
      Same();
      Known(k);
      var q := table[k];
      q.Reads(atoms);
      if Selects(sel, k) && !q.deferRemove {
        var running := q.current != null;
        MarkDeferredFiled(state, k);
        MarkDeferred(k);
        Cancel(k);
        if !running {
          RemoveQueue(k);
        }
      }
    }

    /** remove_queues_for_source and remove_queues_for_sink. */
    method RemoveQueues(sel: Selector, order: seq<Key>)
      requires Valid() && Filed(state)
      modifies this`table, this`running, this`sources, this`nextSource, this`quits, this`state, queues, atoms
      ensures Valid() && state == Scheduler.RemoveQueues(old(state), sel, order)
      ensures old(Core(state) && !state.quitting && Quiescent(state)) && Enumerates(order, old(state.table)) ==>
                forall k | k in old(table) ::
                  && (k in table <==> if sel.BySource? then k.source != sel.name else k.sink != sel.name)
                  && (k in table ==> table[k] == old(table[k]) && table[k].view == old(table[k].view))
    {
      hide Valid, Filed, Scheduler.RemoveSelected, Core, Quiescent, Enumerates, OnlySelectedGone;
      var i := 0;
      while i < |order|
        invariant i <= |order|
        invariant Valid() && Filed(state)
        invariant Scheduler.RemoveQueues(state, sel, order[i..]) == Scheduler.RemoveQueues(old(state), sel, order)
      {
        Same();
        assert order[i..][1..] == order[i + 1..];
        if order[i] in table {
          RemoveSelectedFiled(state, sel, order[i]);
          RemoveSelected(sel, order[i]);
        }
        i := i + 1;
      }
      if old(Core(state) && !state.quitting && Quiescent(state)) && Enumerates(order, old(state.table)) {
        SelectiveRemoval(old(state), sel, order);
        OthersStay(sel);
      }
    }

    /** The queue takes a new task, and the task notes its queue. */
    method Append(k: Key, t: ServiceTask)
      requires Valid() && k in table && t !in atoms && t.id !in state.owner && !t.hasAction
      modifies this`atoms, this`state, queues, t
      ensures Valid() && state == Scheduler.Append(old(state), k, t.id)
      ensures atoms == old(atoms) + {t} && t.queueId == table[k]
    {
      hide Valid, Queue.Valid, AtomsFit, SourcesFit;
      Admit(k, t);
      label Admitted:
      Same();
      Known(k);
      var q := table[k];
      q.Enqueue(t, atoms);
      state := Scheduler.Append(old(state), k, t.id);
      QueueMoved@Admitted(q);
    }

    method Admit(k: Key, t: ServiceTask)
      requires Valid() && k in table && t !in atoms && t.id !in state.owner && !t.hasAction
      modifies this`atoms, this`state, t
      ensures Valid() && atoms == old(atoms) + {t}
      ensures k in state.table && state == old(state).(owner := old(state).owner[t.id := state.table[k]])
      ensures t.queueId == table[k] && !t.hasAction
      ensures t !in table[k].tasks && t != table[k].current
    {
      Known(k);
      t.queueId := table[k];
      atoms := atoms + {t};
      state := state.(owner := state.owner[t.id := state.table[k]]);
      TaskJoined(t);
    }

    method AddTask(k: Key, t: ServiceTask)
      requires Valid() && k in table && t !in atoms && t.id !in state.owner && !t.hasAction
      modifies this`atoms, this`sources, this`nextSource, this`state, queues, t
      ensures Valid() && state == Scheduler.AddTask(old(state), k, t.id)
      ensures atoms == old(atoms) + {t} && t.queueId == table[k]
    {
      hide Valid, Queue.Valid, AtomsFit, SourcesFit, Scheduler.Schedule;
      Same();
      Append(k, t);
      Same();
      Known(k);
      var q := table[k];
      q.Reads(atoms);
      if q.deferRemove {
        return;
      }
      if q.flags.autoStart && q.current == null && q.idle == 0 {
        Schedule(k);
      }
    }

    // ---------------------------------------------------------------------
    // service-task.c
    // ---------------------------------------------------------------------

    /** The reply callback up to the call of the client's callback: p_action is cleared. */
    method ReplyBegins(t: ServiceTask)
      requires Valid() && Runs(t)
      modifies this`state, queues, t
      ensures Valid() && Runs(t) && t.queueId == old(t.queueId)
      ensures var k := t.queueId.key;
              && Live(old(state), k) && Lookup(old(state), k).current.Running?
              && state == Scheduler.ReplyBegins(old(state), k)
    {
      hide Valid, Queue.Valid, AtomsFit, SourcesFit;
      Same();
      var q := t.queueId;
      Known(q.key);
      q.Reads(atoms);
      q.SetAction(false, Replying, atoms);
      state := Scheduler.ReplyBegins(state, q.key);
      QueueMoved(q);
    }

    /** dleyna_service_task_add. */
    method AddServiceTask(k: Key, id: Task) returns (t: ServiceTask)
      requires Valid() && k in table && id !in state.owner
      modifies this`atoms, this`sources, this`nextSource, this`state, queues
      ensures Valid() && state == Scheduler.AddTask(old(state), k, id)
      ensures fresh(t) && t.id == id && t.queueId == table[k] && atoms == old(atoms) + {t}
    {
      hide Valid, Scheduler.AddTask;
      t := new ServiceTask(id);
      AddTask(k, t);
    }

    method StoreAction(t: ServiceTask, present: bool)
      requires Valid() && Runs(t)
      modifies this`state, queues, t
      ensures Valid() && Runs(t) && t.queueId == old(t.queueId) && t.hasAction == present
      ensures var k := t.queueId.key;
              && Live(old(state), k) && Lookup(old(state), k).current.Running?
              && state == Put(old(state), k, SetPhase(Lookup(old(state), k), if present then Waiting else Starting))
    {
      hide Valid, Queue.Valid, AtomsFit, SourcesFit;
      Same();
      var q := t.queueId;
      Known(q.key);
      q.Reads(atoms);
      q.SetAction(present, if present then Waiting else Starting, atoms);
      state := Put(state, q.key, q.view);
      QueueMoved(q);
    }

    /** The process callback from the return of the client's action on. */
    method ActionReturns(t: ServiceTask, hasAction: bool, failed: bool)
      requires Valid() && Filed(state) && Runs(t) && !(hasAction && failed)
      modifies this`table, this`running, this`sources, this`nextSource, this`quits, this`state, queues, atoms
      ensures Valid()
      ensures var k := old(t.queueId.key);
              && Live(old(state), k) && Lookup(old(state), k).current.Running?
              && state == Scheduler.ActionReturns(old(state), k, hasAction, failed)
    {
      hide Valid, Queue.Valid, Filed, Scheduler.Cancel, Scheduler.TaskCompleted;
      var k := t.queueId.key;
      Known(k);
      t.queueId.Reads(atoms);
      SetPhaseFiled(state, k, if hasAction then Waiting else Starting);
      StoreAction(t, hasAction);
      if failed {
        CancelFiled(state, k);
        StillThere(state, k);
        Cancel(k);
      }
      Same();
      if !hasAction {
        TaskCompleted(k);
      }
    }
  }
}
