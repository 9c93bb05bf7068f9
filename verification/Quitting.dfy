/** Completions and removals at any time, also while the processor is quitting. */
module Quitting {
  import opened Scheduler
  import opened Tables

  /**
   A completion while quitting: the last one empties the table and schedules the quit
   callback; any other leaves its queue scheduled, resting or removed as it always does.
   */
  lemma CompletionWhileQuitting(s: ProcessorState, k: Key)
    requires Live(s, k) && Lookup(s, k).current.Running? && s.quitting
    ensures var q, u, f := Lookup(s, k), s.table[k], TaskCompleted(s, k);
            && f.running == s.running - 1
            && if s.running == 1 then f.table == map[] && f.quits == s.quits + 1
               else
                 && f.quits == s.quits
                 && (k in f.table <==> !q.deferRemove && (q.tasks != [] || !q.flags.autoRemove))
                 && (k in f.table && q.tasks != [] ==>
                       var idle := Lookup(f, k).idle; idle in f.sources && f.sources[idle] == u)
  {
  }

  /** k is gone, or waits to go with its task. */
  predicate Taken(s: ProcessorState, k: Key) {
    Live(s, k) ==> Lookup(s, k).deferRemove
  }

  lemma TaskCompletedTakes(s: ProcessorState, k: Key, other: Key)
    requires Filed(s) && Live(s, k) && Taken(s, other)
    ensures Taken(TaskCompleted(s, k), other)
    ensures Lookup(s, k).deferRemove ==> k !in TaskCompleted(s, k).table
  {
  }

  lemma CancelTakes(s: ProcessorState, k: Key, other: Key)
    requires Filed(s) && Live(s, k) && Taken(s, other)
    ensures Taken(Cancel(s, k), other)
  {
    CutFiled(s, k);
    assert Taken(CutQueue(s, k), other);
    if IsWaiting(Lookup(s, k)) {
      TaskCompletedTakes(CutQueue(s, k), k, other);
      hide TaskCompleted;
    }
    hide Filed;
  }

  lemma VisitTakes(s: ProcessorState, sel: Selector, k: Key, other: Key)
    requires Filed(s) && Live(s, k)
    requires Taken(s, other) || (k == other && Selects(sel, k))
    ensures Taken(RemoveSelected(s, sel, k), other)
  {
    var q, m := Lookup(s, k), MarkDeferred(s, k);
    if Selects(sel, k) && !q.deferRemove {
      MarkDeferredFiled(s, k);
      if q.current.Running? || k != other {
        assert Taken(m, other);
        CancelTakes(m, k, other);
      }
      hide Cancel, Filed;
    }
  }

  lemma {:induction false} RemovalTakes(s: ProcessorState, sel: Selector, order: seq<Key>, k: Key)
    requires Filed(s) && Selects(sel, k) && (Taken(s, k) || k in order)
    ensures Taken(RemoveQueues(s, sel, order), k)
    decreases |order|
  {
    hide RemoveSelected, Filed;
    if order != [] {
      var s1 := s;
      if Live(s, order[0]) {
        s1 := RemoveSelected(s, sel, order[0]);
        RemoveSelectedFiled(s, sel, order[0]);
        if Taken(s, k) || k == order[0] {
          VisitTakes(s, sel, order[0], k);
        }
      }
      RemovalTakes(s1, sel, order[1..], k);
    }
  }

  /** Queue u is as it was, unless the table has been emptied. */
  ghost predicate Spared(s: ProcessorState, s1: ProcessorState, u: nat) {
    s1.table == map[] || (u < |s1.store| == |s.store| && s1.store[u] == s.store[u])
  }

  /** From s to s1 keys are only removed, and k stays where it was as long as it is there. */
  ghost predicate OnlyRemoves(s: ProcessorState, s1: ProcessorState, k: Key) {
    Live(s1, k) ==> Live(s, k) && s1.table[k] == s.table[k]
  }

  lemma CompletionSpares(s: ProcessorState, k: Key, u: nat)
    requires Live(s, k) && u < |s.store| && s.table[k] != u
    ensures Spared(s, TaskCompleted(s, k), u) && OnlyRemoves(s, TaskCompleted(s, k), k)
  {
  }

  lemma CancelSpares(s: ProcessorState, k: Key, u: nat)
    requires Live(s, k) && u < |s.store| && s.table[k] != u
    ensures Spared(s, Cancel(s, k), u) && OnlyRemoves(s, Cancel(s, k), k)
  {
    CompletionSpares(CutQueue(s, k), k, u);
    hide TaskCompleted;
  }

  lemma VisitSpares(s: ProcessorState, sel: Selector, k: Key, u: nat)
    requires Live(s, k) && u < |s.store| && s.table[k] != u
    ensures Spared(s, RemoveSelected(s, sel, k), u)
  {
    var m := MarkDeferred(s, k);
    assert m.table == s.table && |m.store| == |s.store| && m.store[u] == s.store[u];
    CancelSpares(m, k, u);
    hide Cancel, MarkDeferred;
  }

  lemma {:induction false} EmptyTableKept(s: ProcessorState, sel: Selector, order: seq<Key>)
    requires s.table == map[]
    ensures RemoveQueues(s, sel, order) == s
    decreases |order|
  {
    if order != [] {
      EmptyTableKept(s, sel, order[1..]);
    }
  }

  lemma {:induction false} RemovalSpares(s: ProcessorState, sel: Selector, order: seq<Key>, u: nat)
    requires Filed(s) && u < |s.store| && !Selects(sel, s.store[u].key)
    ensures Spared(s, RemoveQueues(s, sel, order), u)
    decreases |order|
  {
    if order != [] {
      var k := order[0];
      if !Live(s, k) {
        RemovalSpares(s, sel, order[1..], u);
      } else {
        var s1 := RemoveSelected(s, sel, k);
        RemoveSelectedFiled(s, sel, k);
        if Selects(sel, k) {
          assert s.table[k] != u;
          VisitSpares(s, sel, k, u);
        }
        hide RemoveSelected, Filed;
        if s1.table == map[] {
          EmptyTableKept(s1, sel, order[1..]);
        } else {
          RemovalSpares(s1, sel, order[1..], u);
        }
      }
    }
  }

  /**
   A removal at any time, quitting or not: every queue with the source, or sink, asked for is
   gone or waits to go with its task; every other queue is as it was, unless the completion
   of the last task of a quitting processor has emptied the table.
   */
  lemma RemovalAtAnyTime(s: ProcessorState, name: string, order: seq<Key>)
    requires Filed(s) && Enumerates(order, s.table)
    ensures var f := RemoveQueues(s, BySource(name), order);
            && (forall k: Key | k.source == name :: Taken(f, k))
            && (forall u | 0 <= u < |s.store| && s.store[u].key.source != name :: Spared(s, f, u))
    ensures var f := RemoveQueues(s, BySink(name), order);
            && (forall k: Key | k.sink == name :: Taken(f, k))
            && (forall u | 0 <= u < |s.store| && s.store[u].key.sink != name :: Spared(s, f, u))
  {
    hide RemoveQueues, Taken, Spared, Filed;
    RemovalTakesAndSpares(s, BySource(name), order);
    RemovalTakesAndSpares(s, BySink(name), order);
  }

  lemma RemovalTakesAndSpares(s: ProcessorState, sel: Selector, order: seq<Key>)
    requires Filed(s) && Enumerates(order, s.table)
    ensures var f := RemoveQueues(s, sel, order);
            && (forall k | Selects(sel, k) :: Taken(f, k))
            && (forall u | 0 <= u < |s.store| && !Selects(sel, s.store[u].key) :: Spared(s, f, u))
  {
    hide RemoveQueues, Filed, Spared;
    forall k | Selects(sel, k)
      ensures Taken(RemoveQueues(s, sel, order), k)
    {
      RemovalTakes(s, sel, order, k);
    }
    forall u | 0 <= u < |s.store| && !Selects(sel, s.store[u].key)
      ensures Spared(s, RemoveQueues(s, sel, order), u)
    {
      RemovalSpares(s, sel, order, u);
    }
  }
}
