/** What the invariant says about one queue's whole history. */
module Histories {
  import opened Protocol
  import opened Sums
  import opened Scheduler
  import opened Invariant

  function CurrentTask(q: QueueState): seq<Task> {
    if q.current.Running? then [q.current.task] else []
  }

  /** Exactly-once completion, and FIFO over the whole life of a queue. */
  lemma StartsAndCompletions(q: QueueState)
    requires LogAgrees(q)
    ensures Tasks(q.log, Starts) == Tasks(q.log, Completes) + CurrentTask(q)
    ensures Subsequence(Tasks(q.log, Starts), Tasks(q.log, Adds))
    ensures Distinct(Tasks(q.log, Starts)) && Distinct(Tasks(q.log, Cancels))
    ensures Spurious !in q.log
  {
    CompletionsAreStarts(q.log);
    AcceptedIsLawful(q.log);
    BooksMatchLog(q.log);
    NeverSpurious(q.log);
  }

  lemma {:induction false} NeverSpurious(log: seq<Event>)
    requires Replay(log).Some?
    ensures Spurious !in log
  {
    if log != [] {
      NeverSpurious(log[..|log| - 1]);
      assert log == log[..|log| - 1] + [log[|log| - 1]];
    }
  }

  /** A queue that was never cancelled has dropped nothing: what was added is what was started, then what is pending. */
  lemma UncancelledIsFifo(q: QueueState)
    requires LogAgrees(q) && NothingDropped(q) && CancelCall !in q.log
    ensures Tasks(q.log, Adds) == Tasks(q.log, Starts) + q.tasks
  {
    AcceptedIsLawful(q.log);
    BooksMatchLog(q.log);
  }

  lemma {:induction false} ClosedByFinally(log: seq<Event>)
    requires Replay(log).Some?
    ensures Replay(log).value.closed <==> log != [] && log[|log| - 1].Finally?
    ensures forall i | 0 <= i < |log| - 1 :: !log[i].Finally?
  {
    forall i | 0 <= i < |log| && log[i].Finally?
      ensures i == |log| - 1
    {
      FinallyIsLast(log, i);
    }
  }

  /**
   The finally callback: never while the queue lives; when the queue is freed, once, last,
   after every task was deleted, with TRUE exactly if a cancel came after the last start.
   */
  lemma FinallyRunsOnce(q: QueueState)
    requires LogAgrees(q)
    ensures !q.freed || !q.hasFinally ==> forall i | 0 <= i < |q.log| :: !q.log[i].Finally?
    ensures q.freed && q.hasFinally ==>
              && q.log != [] && q.log[|q.log| - 1] == Finally(q.cancelled)
              && (q.cancelled <==> CancelledSinceStart(q.log[..|q.log| - 1]))
              && (forall i | 0 <= i < |q.log| - 1 :: !q.log[i].Finally?)
    ensures q.freed ==> multiset(Tasks(q.log, Deletes)) == multiset(Tasks(q.log, Adds))
  {
    ClosedByFinally(q.log);
    AllDeletedWhenEmpty(q.log);
    if q.freed && q.hasFinally {
      FinallyArgument(q.log);
    }
  }

  lemma AllDeletedWhenEmpty(log: seq<Event>)
    requires Replay(log).Some?
    ensures var r := Replay(log).value;
            r.pending == [] && r.slot == Empty ==> multiset(Tasks(log, Deletes)) == multiset(Tasks(log, Adds))
  {
    AcceptedIsLawful(log);
    BooksMatchLog(log);
  }

  lemma FinallyArgument(log: seq<Event>)
    requires Replay(log).Some? && log != [] && log[|log| - 1].Finally?
    ensures log[|log| - 1] == Finally(Replay(log).value.flag)
    ensures Replay(log).value.flag <==> CancelledSinceStart(log[..|log| - 1])
  {
    FlagIsHistory(log[..|log| - 1]);
  }

  /** A freed queue that nobody cancelled ran every task it was given, in order, and said so. */
  lemma UncancelledChainRanAll(q: QueueState)
    requires LogAgrees(q) && NothingDropped(q) && q.freed && CancelCall !in q.log
    ensures Tasks(q.log, Completes) == Tasks(q.log, Starts) == Tasks(q.log, Adds)
    ensures q.hasFinally ==> q.log != [] && q.log[|q.log| - 1] == Finally(false)
  {
    StartsAndCompletions(q);
    UncancelledIsFifo(q);
    FinallyRunsOnce(q);
    assert Tasks(q.log, Completes) + [] == Tasks(q.log, Completes);
  }

  /**
   Conservation: a task that was ever added belongs to one queue instance, and is there
   pending, current or deleted: one of the three, once.
   */
  lemma TaskConservation(s: ProcessorState, t: Task)
    requires Base(s)
    ensures t in s.owner ==> s.owner[t] < |s.store|
    ensures forall u | 0 <= u < |s.store| ::
              var q := s.store[u];
              multiset(Tasks(q.log, Deletes))[t] + multiset(q.tasks)[t] + multiset(CurrentTask(q))[t]
              == (if t in s.owner && s.owner[t] == u then 1 else 0)
  {
    forall u | 0 <= u < |s.store|
      ensures var q := s.store[u];
              multiset(Tasks(q.log, Deletes))[t] + multiset(q.tasks)[t] + multiset(CurrentTask(q))[t]
              == (if t in s.owner && s.owner[t] == u then 1 else 0)
    {
      var q := s.store[u];
      assert LogAgrees(q) && OwnsExactly(q, s.owner, u);
      DeletedAtMostOnce(q.log);
      assert InSlot(Books(q).slot) == CurrentTask(q);
    }
  }

  /** running_tasks is the number of live queues with a current task; in particular it cannot underflow. */
  lemma RunningIsPositive(s: ProcessorState, k: Key)
    requires Base(s) && Live(s, k) && Lookup(s, k).current.Running?
    ensures s.running == RunningCount(s.store) >= 1
  {
    TotalZero(Weights(s.store));
    assert Weights(s.store)[s.table[k]] == 1;
  }
}
