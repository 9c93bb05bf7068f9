/** The table files exactly the live queues, whatever the operation. */
module Tables {
  import opened Protocol
  import opened Scheduler
  import opened Invariant

  ghost predicate Filed(s: ProcessorState) {
    TableAgrees(s.store, s.table)
  }

  lemma PutFiled(s: ProcessorState, k: Key, q: QueueState)
    requires Filed(s) && Live(s, k) && q.key == k && !q.freed
    ensures Filed(Put(s, k, q)) && Lookup(Put(s, k, q), k) == q
  {
    TablePut(s.store, s.table, s.table[k], q);
  }

  lemma RemoveFiled(s: ProcessorState, k: Key)
    requires Filed(s)
    ensures Filed(RemoveQueue(s, k)) && k !in RemoveQueue(s, k).table
  {
    if k in s.table {
      TableRemove(s.store, s.table, k, FreeQueue(Lookup(s, k)));
    }
  }

  lemma TaskCompletedFiled(s: ProcessorState, k: Key)
    requires Filed(s) && Live(s, k)
    ensures Filed(EndTask(s, k)) && Filed(TaskCompleted(s, k))
  {
    PutFiled(s, k, EndCurrent(Lookup(s, k)));
    var s1 := EndTask(s, k);
    assert Filed(s1);
    RemoveFiled(s1, k);
    PutFiled(s1, k, Lookup(s1, k).(idle := s.nextSource));
  }

  lemma CutFiled(s: ProcessorState, k: Key)
    requires Filed(s) && Live(s, k)
    ensures Filed(CutQueue(s, k)) && Live(CutQueue(s, k), k)
  {
    PutFiled(s, k, Cut(Lookup(s, k)));
  }

  lemma SetPhaseFiled(s: ProcessorState, k: Key, p: Phase)
    requires Filed(s) && Live(s, k) && Lookup(s, k).current.Running?
    ensures Filed(Put(s, k, SetPhase(Lookup(s, k), p)))
  {
    PutFiled(s, k, SetPhase(Lookup(s, k), p));
  }

  lemma MarkDeferredFiled(s: ProcessorState, k: Key)
    requires Filed(s) && Live(s, k)
    ensures Filed(MarkDeferred(s, k)) && Live(MarkDeferred(s, k), k)
  {
    PutFiled(s, k, Lookup(s, k).(deferRemove := Lookup(s, k).current.Running?));
  }

  lemma CancelFiled(s: ProcessorState, k: Key)
    requires Filed(s) && Live(s, k)
    ensures Filed(CancelOnly(s, k)) && Filed(Cancel(s, k))
  {
    var q := Lookup(s, k);
    if q.cancelled {
      PutFiled(s, k, q.(log := q.log + [CancelCall]));
    } else {
      CutFiled(s, k);
      if IsWaiting(q) {
        TaskCompletedFiled(CutQueue(s, k), k);
      }
    }
    RemoveFiled(CancelOnly(s, k), k);
  }

  lemma RemoveSelectedFiled(s: ProcessorState, sel: Selector, k: Key)
    requires Filed(s) && Live(s, k)
    ensures Filed(RemoveSelected(s, sel, k))
  {
    MarkDeferredFiled(s, k);
    CancelFiled(MarkDeferred(s, k), k);
    RemoveFiled(Cancel(MarkDeferred(s, k), k), k);
  }

  /** Removing one queue first makes no difference to removing all of them. */
  lemma RemovedAnyway(s: ProcessorState, k: Key)
    requires Filed(s) && k in s.table
    ensures RemoveAllQueues(RemoveQueue(s, k)) == RemoveAllQueues(s)
  {
    assert FreeAll(RemoveQueue(s, k).store) == FreeAll(s.store);
  }

  lemma NothingToRemove(s: ProcessorState)
    requires Filed(s) && s.table == map[]
    ensures RemoveAllQueues(s) == s
  {
    assert FreeAll(s.store) == s.store;
  }
}
