/**
 The callback protocol of one task queue, stated without reference to how the
 processor is written.  A queue's log lists, in order, what happened to it and
 which callbacks it made.  Replay accepts a log or rejects it; the lemmas say
 what every accepted log guarantees.
 */
module Protocol {
  import opened Wrappers

  /** A task atom; the processor never looks inside one. */
  type Task = nat

  datatype Event =
    | Added(task: Task)       // the task was appended to the queue
    | Started(task: Task)     // the process callback ran
    | CancelCall              // somebody asked for the queue to be cancelled
    | CancelCb(task: Task)    // the cancel callback ran
    | Completed(task: Task)   // completion was reported while the task was current
    | Spurious                // completion was reported with no current task
    | DeleteCb(task: Task)    // the delete callback ran
    | Finally(cancelled: bool)

  /** The running slot: Ended is the moment between completion and deletion. */
  datatype Slot = Empty | Active(task: Task) | Ended(task: Task)

  /**
   What a log amounts to.  `popped` lists the tasks that left the pending list,
   whether they were started or dropped; `cut` says that a cancel was ever asked for.
   */
  datatype Replayed = Replayed(
    added: seq<Task>, popped: seq<Task>, started: seq<Task>, completed: seq<Task>,
    deleted: seq<Task>, cancelled: seq<Task>,
    pending: seq<Task>, slot: Slot, flag: bool, cut: bool, closed: bool)

  const FRESH := Replayed([], [], [], [], [], [], [], Empty, false, false, false)

  predicate IsHead(t: Task, pending: seq<Task>) {
    pending != [] && pending[0] == t
  }

  /** One event; None when the protocol forbids it. */
  function Next(r: Replayed, e: Event): Option<Replayed> {
    if r.closed then None else
    match e
    case Added(t) =>
      if t in r.added then None
      else Some(r.(added := r.added + [t], pending := r.pending + [t]))
    case Started(t) =>
      if r.slot == Empty && IsHead(t, r.pending) && t !in r.cancelled
      then Some(r.(pending := r.pending[1..], popped := r.popped + [t], started := r.started + [t],
                   slot := Active(t), flag := false))
      else None
    case CancelCall => Some(r.(flag := true, cut := true))
    case CancelCb(t) =>
      if r.flag && t !in r.cancelled && (IsHead(t, r.pending) || r.slot == Active(t))
      then Some(r.(cancelled := r.cancelled + [t]))
      else None
    case Completed(t) =>
      if r.slot == Active(t) then Some(r.(slot := Ended(t), completed := r.completed + [t])) else None
    case Spurious => None
    case DeleteCb(t) =>
      if r.slot == Ended(t) then Some(r.(slot := Empty, deleted := r.deleted + [t]))
      else if IsHead(t, r.pending)
      then Some(r.(pending := r.pending[1..], popped := r.popped + [t], deleted := r.deleted + [t]))
      else None
    case Finally(c) =>
      if r.pending == [] && r.slot == Empty && c == r.flag then Some(r.(closed := true)) else None
  }

  function Replay(log: seq<Event>): Option<Replayed> {
    if log == [] then Some(FRESH) else
    match Replay(log[..|log| - 1])
    case None => None
    case Some(r) => Next(r, log[|log| - 1])
  }

  lemma ReplayAppend(log: seq<Event>, e: Event)
    ensures Replay(log + [e]) == match Replay(log) case None => None case Some(r) => Next(r, e)
  {
    assert (log + [e])[..|log|] == log;
  }

  /** A prefix of an accepted log is accepted. */
  lemma {:induction false} ReplayPrefix(log: seq<Event>, n: nat)
    requires n <= |log| && Replay(log).Some?
    ensures Replay(log[..n]).Some?
    decreases |log|
  {
    if n == |log| {
      assert log[..n] == log;
    } else {
      ReplayPrefix(log[..|log| - 1], n);
      assert log[..|log| - 1][..n] == log[..n];
    }
  }

  // ---------------------------------------------------------------------
  // What an accepted log guarantees
  // ---------------------------------------------------------------------

  ghost predicate Distinct(s: seq<Task>) {
    forall i, j | 0 <= i < j < |s| :: s[i] != s[j]
  }

  /** s can be obtained from w by deleting elements. */
  ghost predicate Subsequence(s: seq<Task>, w: seq<Task>) {
    if s == [] then true
    else if w == [] then false
    else if s[|s| - 1] == w[|w| - 1] && Subsequence(s[..|s| - 1], w[..|w| - 1]) then true
    else Subsequence(s, w[..|w| - 1])
  }

  function InSlot(slot: Slot): seq<Task> {
    if slot == Empty then [] else [slot.task]
  }

  function ActiveTask(slot: Slot): seq<Task> {
    if slot.Active? then [slot.task] else []
  }

  /** Tasks leave the pending list in the order they joined it, and completions follow starts. */
  ghost predicate InOrder(r: Replayed) {
    && r.added == r.popped + r.pending
    && r.started == r.completed + ActiveTask(r.slot)
    && Subsequence(r.started, r.popped)
  }

  /** Every task is deleted, pending or in the slot. */
  ghost predicate Balanced(r: Replayed) {
    multiset(r.added) == multiset(r.deleted) + multiset(r.pending) + multiset(InSlot(r.slot))
  }

  ghost predicate Lawful(r: Replayed) {
    && Recorded(r)
    && InOrder(r)
    && Balanced(r)
    && (r.closed ==> r.pending == [] && r.slot == Empty)
    && (r.flag ==> r.cut)
  }

  lemma DistinctCounts(s: seq<Task>)
    requires Distinct(s)
    ensures forall t :: multiset(s)[t] <= 1
  {
    if s != [] {
      var front, last := s[..|s| - 1], s[|s| - 1];
      assert s == front + [last];
      DistinctCounts(front);
      assert last !in front;
      assert last !in multiset(front);
    }
  }

  lemma HeadSplits(pending: seq<Task>)
    requires pending != []
    ensures pending == [pending[0]] + pending[1..]
    ensures multiset(pending) == multiset{pending[0]} + multiset(pending[1..])
  {
  }

  lemma SubsequenceAppend(s: seq<Task>, w: seq<Task>, t: Task)
    requires Subsequence(s, w)
    ensures Subsequence(s, w + [t])
    ensures Subsequence(s + [t], w + [t])
  {
    assert (w + [t])[..|w|] == w;
    assert (s + [t])[..|s|] == s;
  }

  lemma OrderNext(r: Replayed, e: Event)
    requires InOrder(r) && Next(r, e).Some?
    ensures InOrder(Next(r, e).value)
  {
    hide Subsequence;
    var n := Next(r, e).value;
    match e
    case Added(t) =>
      assert n.added == n.popped + n.pending;
    case Started(t) =>
      HeadSplits(r.pending);
      assert n.added == n.popped + n.pending;
      SubsequenceAppend(r.started, r.popped, t);
    case DeleteCb(t) =>
      if r.slot != Ended(t) {
        HeadSplits(r.pending);
        assert n.added == n.popped + n.pending;
        SubsequenceAppend(r.started, r.popped, t);
      }
    case _ =>
  }

  lemma BalanceNext(r: Replayed, e: Event)
    requires Balanced(r) && Next(r, e).Some?
    ensures Balanced(Next(r, e).value)
  {
    if e.Started? || (e.DeleteCb? && r.slot != Ended(e.task)) {
      HeadBalance(r, e);
    }
  }

  /** The head of the pending list goes to the slot or to the deleted tasks. */
  lemma HeadBalance(r: Replayed, e: Event)
    requires Balanced(r) && Next(r, e).Some?
    requires e.Started? || (e.DeleteCb? && r.slot != Ended(e.task))
    ensures Balanced(Next(r, e).value)
  {
    var n, x := Next(r, e).value, multiset{e.task};
    HeadSplits(r.pending);
    assert multiset(r.pending) == x + multiset(n.pending);
    assert multiset(n.deleted) + multiset(InSlot(n.slot)) == multiset(r.deleted) + multiset(InSlot(r.slot)) + x;
  }

  /** Only known tasks are pending, in the slot or cancelled, and none is recorded twice. */
  ghost predicate Recorded(r: Replayed) {
    && Distinct(r.added)
    && Distinct(r.cancelled)
    && (forall t | t in r.cancelled :: t in r.added)
    && (forall t | t in r.pending :: t in r.added)
    && (r.slot != Empty ==> r.slot.task in r.added)
  }

  lemma RecordedNext(r: Replayed, e: Event)
    requires Recorded(r) && Next(r, e).Some?
    ensures Recorded(Next(r, e).value)
  {
  }

  lemma LawfulNext(r: Replayed, e: Event)
    requires Lawful(r) && Next(r, e).Some?
    ensures Lawful(Next(r, e).value)
  {
    hide InOrder, Balanced, Recorded;
    OrderNext(r, e);
    BalanceNext(r, e);
    RecordedNext(r, e);
  }

  /** Every accepted log is lawful: the conservation, FIFO and exactly-once laws below all rest on it. */
  lemma {:induction false} AcceptedIsLawful(log: seq<Event>)
    requires Replay(log).Some?
    ensures Lawful(Replay(log).value)
  {
    if log != [] {
      AcceptedIsLawful(log[..|log| - 1]);
      LawfulNext(Replay(log[..|log| - 1]).value, log[|log| - 1]);
    }
  }

  datatype Kind = Adds | Starts | Completes | Deletes | Cancels

  predicate HasKind(e: Event, k: Kind) {
    match k
    case Adds => e.Added?
    case Starts => e.Started?
    case Completes => e.Completed?
    case Deletes => e.DeleteCb?
    case Cancels => e.CancelCb?
  }

  /** The tasks of the events of one kind, read off the log alone. */
  function Tasks(log: seq<Event>, k: Kind): seq<Task> {
    if log == [] then [] else
    Tasks(log[..|log| - 1], k) + (if HasKind(log[|log| - 1], k) then [log[|log| - 1].task] else [])
  }

  lemma TasksAppend(log: seq<Event>, e: Event, k: Kind)
    ensures Tasks(log + [e], k) == Tasks(log, k) + (if HasKind(e, k) then [e.task] else [])
  {
    assert (log + [e])[..|log|] == log;
  }

  ghost predicate BooksMatch(log: seq<Event>, r: Replayed) {
    && r.added == Tasks(log, Adds) && r.started == Tasks(log, Starts) && r.completed == Tasks(log, Completes)
    && r.deleted == Tasks(log, Deletes) && r.cancelled == Tasks(log, Cancels)
    && r.cut == (CancelCall in log)
  }

  lemma BooksNext(front: seq<Event>, r: Replayed, e: Event)
    requires BooksMatch(front, r) && Next(r, e).Some?
    ensures BooksMatch(front + [e], Next(r, e).value)
  {
    forall k: Kind {
      TasksAppend(front, e, k);
    }
  }

  /** The replay's books are the log's own projections. */
  lemma {:induction false} BooksMatchLog(log: seq<Event>)
    requires Replay(log).Some?
    ensures BooksMatch(log, Replay(log).value)
  {
    if log != [] {
      BooksMatchLog(log[..|log| - 1]);
      BooksNext(log[..|log| - 1], Replay(log[..|log| - 1]).value, log[|log| - 1]);
      assert log == log[..|log| - 1] + [log[|log| - 1]];
    }
  }

  /** A task is accounted for at most once. */
  lemma DeletedAtMostOnce(log: seq<Event>)
    requires Replay(log).Some?
    ensures var r := Replay(log).value;
            forall t :: multiset(Tasks(log, Deletes))[t] + multiset(r.pending)[t] + multiset(InSlot(r.slot))[t]
                        == (if t in Tasks(log, Adds) then 1 else 0)
  {
    AcceptedIsLawful(log);
    BooksMatchLog(log);
    var r := Replay(log).value;
    DistinctCounts(r.added);
    forall t
      ensures multiset(r.deleted)[t] + multiset(r.pending)[t] + multiset(InSlot(r.slot))[t]
              == (if t in r.added then 1 else 0)
    {
      assert multiset(r.added)[t] == multiset(r.deleted)[t] + multiset(r.pending)[t] + multiset(InSlot(r.slot))[t];
      assert t in r.added <==> t in multiset(r.added);
    }
  }

  /**
   Exactly-once completion: the completions are the starts, in the same order,
   except for the task still in the slot; a task never started is never completed.
   */
  lemma CompletionsAreStarts(log: seq<Event>)
    requires Replay(log).Some?
    ensures Tasks(log, Starts) == Tasks(log, Completes) + ActiveTask(Replay(log).value.slot)
    ensures Subsequence(Tasks(log, Starts), Tasks(log, Adds))
    ensures Distinct(Tasks(log, Starts))
  {
    AcceptedIsLawful(log);
    BooksMatchLog(log);
    var r := Replay(log).value;
    SubsequenceExtend(r.started, r.popped, r.pending);
    SubsequenceDistinct(r.started, r.added);
  }

  lemma {:induction false} SubsequenceExtend(s: seq<Task>, w: seq<Task>, more: seq<Task>)
    requires Subsequence(s, w)
    ensures Subsequence(s, w + more)
    decreases |more|
  {
    if more == [] {
      assert w + more == w;
    } else {
      var front := more[..|more| - 1];
      SubsequenceExtend(s, w, front);
      SubsequenceAppend(s, w + front, more[|more| - 1]);
      assert w + front + [more[|more| - 1]] == w + more;
    }
  }

  lemma {:induction false} SubsequenceMembers(s: seq<Task>, w: seq<Task>)
    requires Subsequence(s, w)
    ensures forall t | t in s :: t in w
    decreases |w|
  {
    if s != [] {
      if s[|s| - 1] == w[|w| - 1] && Subsequence(s[..|s| - 1], w[..|w| - 1]) {
        SubsequenceMembers(s[..|s| - 1], w[..|w| - 1]);
        assert s == s[..|s| - 1] + [s[|s| - 1]];
      } else {
        SubsequenceMembers(s, w[..|w| - 1]);
      }
    }
  }

  lemma {:induction false} SubsequenceDistinct(s: seq<Task>, w: seq<Task>)
    requires Subsequence(s, w) && Distinct(w)
    ensures Distinct(s)
    decreases |w|
  {
    if s != [] {
      if s[|s| - 1] == w[|w| - 1] && Subsequence(s[..|s| - 1], w[..|w| - 1]) {
        SubsequenceDistinct(s[..|s| - 1], w[..|w| - 1]);
        SubsequenceMembers(s[..|s| - 1], w[..|w| - 1]);
        assert w[|w| - 1] !in w[..|w| - 1];
      } else {
        SubsequenceDistinct(s, w[..|w| - 1]);
      }
    }
  }

  predicate IsAbout(e: Event, t: Task) {
    (e.Added? || e.Started? || e.CancelCb? || e.Completed? || e.DeleteCb?) && e.task == t
  }

  lemma DeletedIsDone(r: Replayed, e: Event, t: Task)
    requires Lawful(r) && Next(r, e).Some? && t in r.deleted
    ensures !IsAbout(e, t)
  {
    DistinctCounts(r.added);
    assert multiset(r.added)[t] == multiset(r.deleted)[t] + multiset(r.pending)[t] + multiset(InSlot(r.slot))[t];
    assert t in multiset(r.deleted);
    assert t !in multiset(r.pending) && t !in multiset(InSlot(r.slot));
    assert t in multiset(r.added);
  }

  /** Once a task is deleted nothing happens to it any more. */
  lemma NothingAfterDelete(log: seq<Event>, i: nat, j: nat)
    requires Replay(log).Some? && i < j < |log| && log[i].DeleteCb?
    ensures !IsAbout(log[j], log[i].task)
  {
    hide Next, Lawful, Replay, IsAbout;
    var before := log[..j];
    ReplayPrefix(log, j);
    ReplayPrefix(log, j + 1);
    assert log[..j + 1] == before + [log[j]];
    ReplayAppend(before, log[j]);
    DeletedRecorded(before, i);
    AcceptedIsLawful(before);
    BooksMatchLog(before);
    DeletedIsDone(Replay(before).value, log[j], log[i].task);
  }

  lemma {:induction false} DeletedRecorded(log: seq<Event>, i: nat)
    requires i < |log| && log[i].DeleteCb?
    ensures log[i].task in Tasks(log, Deletes)
    decreases |log|
  {
    if i < |log| - 1 {
      DeletedRecorded(log[..|log| - 1], i);
    }
  }

  /** A cancel was asked for after the most recent start, or since creation when nothing was started. */
  ghost predicate CancelledSinceStart(log: seq<Event>) {
    exists i :: 0 <= i < |log| && log[i] == CancelCall && forall j | i < j < |log| :: !log[j].Started?
  }

  lemma {:induction false} FlagIsHistory(log: seq<Event>)
    requires Replay(log).Some?
    ensures Replay(log).value.flag <==> CancelledSinceStart(log)
  {
    if log != [] {
      var front, last := log[..|log| - 1], log[|log| - 1];
      FlagIsHistory(front);
      if last == CancelCall {
        assert log[|log| - 1] == CancelCall;
      } else if !last.Started? {
        if CancelledSinceStart(front) {
          var i :| 0 <= i < |front| && front[i] == CancelCall && forall j | i < j < |front| :: !front[j].Started?;
          assert log[i] == CancelCall && forall j | i < j < |log| :: !log[j].Started?;
        }
        if CancelledSinceStart(log) {
          var i :| 0 <= i < |log| && log[i] == CancelCall && forall j | i < j < |log| :: !log[j].Started?;
          assert front[i] == CancelCall && forall j | i < j < |front| :: front[j] == log[j];
        }
      }
    }
  }

  lemma ClosedIsEnd(log: seq<Event>, n: nat)
    requires Replay(log).Some? && n <= |log|
    requires Replay(log[..n]).Some? && Replay(log[..n]).value.closed
    ensures n == |log|
  {
    if n < |log| {
      ReplayPrefix(log, n + 1);
    }
  }

  lemma ClosedLeavesNothing(log: seq<Event>)
    requires Replay(log).Some? && Replay(log).value.closed
    ensures multiset(Tasks(log, Deletes)) == multiset(Tasks(log, Adds))
  {
    AcceptedIsLawful(log);
    BooksMatchLog(log);
    hide Replay, Tasks;
  }

  /** Replay passes through every prefix. */
  lemma ReplayAt(log: seq<Event>, i: nat)
    requires Replay(log).Some? && i < |log|
    ensures Replay(log[..i]).Some? && Next(Replay(log[..i]).value, log[i]).Some?
    ensures Replay(log[..i + 1]) == Next(Replay(log[..i]).value, log[i])
  {
    hide Replay, Next;
    ReplayPrefix(log, i);
    ReplayPrefix(log, i + 1);
    assert log[..i + 1] == log[..i] + [log[i]];
    ReplayAppend(log[..i], log[i]);
  }

  lemma FinallyNext(r: Replayed, e: Event)
    requires Next(r, e).Some? && e.Finally?
    ensures Next(r, e).value.closed && (e.cancelled <==> r.flag)
  {
  }

  /** The finally callback is the last one, says how the queue ended, and leaves no task behind. */
  lemma FinallyIsLast(log: seq<Event>, i: nat)
    requires Replay(log).Some? && i < |log| && log[i].Finally?
    ensures i == |log| - 1
    ensures log[i].cancelled <==> CancelledSinceStart(log[..i])
    ensures multiset(Tasks(log, Deletes)) == multiset(Tasks(log, Adds))
  {
    hide Replay, Next, Tasks, CancelledSinceStart;
    ReplayAt(log, i);
    FinallyNext(Replay(log[..i]).value, log[i]);
    FlagIsHistory(log[..i]);
    ClosedIsEnd(log, i + 1);
    assert log[..i + 1] == log;
    ClosedLeavesNothing(log);
  }

  /** No task was dropped from the pending list since position i. */
  ghost predicate Uncut(log: seq<Event>, i: nat)
    requires i <= |log|
  {
    forall m | i <= m < |log| && log[m].DeleteCb? :: m > 0 && log[m - 1] == Completed(log[m].task)
  }

  /** FIFO on a stretch of a log in which nothing was dropped: pending ++ added = started ++ pending. */
  lemma {:induction false} FifoBetweenCuts(log: seq<Event>, i: nat)
    requires i <= |log| && Replay(log).Some? && Replay(log[..i]).Some? && Uncut(log, i)
    ensures Replay(log[..i]).value.pending + Tasks(log[i..], Adds)
            == Tasks(log[i..], Starts) + Replay(log).value.pending
    decreases |log|
  {
    if i == |log| {
      assert log[i..] == [] && log[..i] == log;
    } else {
      var front, e := log[..|log| - 1], log[|log| - 1];
      SplitLast(log, i);
      FifoBetweenCuts(front, i);
      if e.DeleteCb? {
        assert log[|log| - 1].DeleteCb?;
      }
      hide Tasks, Next;
      FifoNext(Replay(log[..i]).value.pending, front[i..], Replay(front).value, e);
    }
  }

  lemma SplitLast(log: seq<Event>, i: nat)
    requires i < |log|
    ensures var front := log[..|log| - 1];
            log == front + [log[|log| - 1]] && front[..i] == log[..i] && log[i..] == front[i..] + [log[|log| - 1]]
  {
  }

  lemma AppendBoth(a: seq<Task>, b: seq<Task>, c: seq<Task>, d: seq<Task>, t: Task)
    requires a + b == c + d
    ensures a + (b + [t]) == c + (d + [t])
  {
    assert a + (b + [t]) == a + b + [t];
    assert c + (d + [t]) == c + d + [t];
  }

  lemma FifoNext(before: seq<Task>, stretch: seq<Event>, r: Replayed, e: Event)
    requires before + Tasks(stretch, Adds) == Tasks(stretch, Starts) + r.pending
    requires Next(r, e).Some? && (e.DeleteCb? ==> r.slot == Ended(e.task))
    ensures before + Tasks(stretch + [e], Adds) == Tasks(stretch + [e], Starts) + Next(r, e).value.pending
  {
    TasksAppend(stretch, e, Adds);
    TasksAppend(stretch, e, Starts);
    var adds, starts := Tasks(stretch, Adds), Tasks(stretch, Starts);
    assert adds + [] == adds && starts + [] == starts;
    hide Next, Tasks;
    if e.Started? {
    } else if e.Added? {
      AppendBoth(before, adds, starts, r.pending, e.task);
    }
  }

  // ---------------------------------------------------------------------
  // Bursts of callbacks
  // ---------------------------------------------------------------------

  /** Cancel and delete each task, front to back. */
  function FlushLog(ts: seq<Task>): seq<Event> {
    if ts == [] then [] else
    FlushLog(ts[..|ts| - 1]) + [CancelCb(ts[|ts| - 1]), DeleteCb(ts[|ts| - 1])]
  }

  /** Delete each task, front to back. */
  function DeleteLog(ts: seq<Task>): seq<Event> {
    if ts == [] then [] else DeleteLog(ts[..|ts| - 1]) + [DeleteCb(ts[|ts| - 1])]
  }

  lemma ReplayFlushOne(log: seq<Event>, x: Task, rest: seq<Task>)
    requires Replay(log).Some?
    requires var r := Replay(log).value;
             r.pending == [x] + rest && r.flag && !r.closed && !r.slot.Ended? && x !in r.cancelled
    ensures var r := Replay(log).value;
            Replay(log + [CancelCb(x), DeleteCb(x)]) ==
            Some(r.(pending := rest, popped := r.popped + [x],
                    deleted := r.deleted + [x], cancelled := r.cancelled + [x]))
  {
    ReplayAppend(log, CancelCb(x));
    ReplayAppend(log + [CancelCb(x)], DeleteCb(x));
    assert log + [CancelCb(x)] + [DeleteCb(x)] == log + [CancelCb(x), DeleteCb(x)];
    assert ([x] + rest)[1..] == rest;
  }

  lemma PendingIsDistinct(r: Replayed, front: seq<Task>, x: Task, rest: seq<Task>)
    requires Lawful(r) && r.pending == front + ([x] + rest)
    ensures x !in front
  {
    var n := |r.popped|;
    assert forall i | 0 <= i < |front| :: r.added[n + i] == front[i];
    assert r.added[n + |front|] == x;
  }

  lemma {:induction false} ReplayFlush(log: seq<Event>, ts: seq<Task>, rest: seq<Task>)
    requires Replay(log).Some?
    requires var r := Replay(log).value;
             && r.pending == ts + rest && r.flag && !r.closed && !r.slot.Ended?
             && forall t | t in ts :: t !in r.cancelled
    ensures var r := Replay(log).value;
            Replay(log + FlushLog(ts)) ==
            Some(r.(pending := rest, popped := r.popped + ts, deleted := r.deleted + ts, cancelled := r.cancelled + ts))
    decreases |ts|
  {
    hide Replay, Next, Lawful;
    var r := Replay(log).value;
    if ts == [] {
      assert log + FlushLog(ts) == log;
      assert r.popped + ts == r.popped && r.deleted + ts == r.deleted && r.cancelled + ts == r.cancelled;
      assert rest == ts + rest;
    } else {
      var front, x := ts[..|ts| - 1], ts[|ts| - 1];
      assert ts + rest == front + ([x] + rest);
      AcceptedIsLawful(log);
      PendingIsDistinct(r, front, x, rest);
      ReplayFlush(log, front, [x] + rest);
      ReplayFlushOne(log + FlushLog(front), x, rest);
      assert log + FlushLog(front) + [CancelCb(x), DeleteCb(x)] == log + FlushLog(ts);
      assert front + [x] == ts;
      assert r.popped + front + [x] == r.popped + ts;
      assert r.deleted + front + [x] == r.deleted + ts;
      assert r.cancelled + front + [x] == r.cancelled + ts;
    }
  }

  lemma ReplayDeleteOne(log: seq<Event>, x: Task, rest: seq<Task>)
    requires Replay(log).Some?
    requires var r := Replay(log).value; r.pending == [x] + rest && !r.closed && !r.slot.Ended?
    ensures var r := Replay(log).value;
            Replay(log + [DeleteCb(x)]) ==
            Some(r.(pending := rest, popped := r.popped + [x], deleted := r.deleted + [x]))
  {
    ReplayAppend(log, DeleteCb(x));
    assert ([x] + rest)[1..] == rest;
  }

  lemma {:induction false} ReplayDeletes(log: seq<Event>, ts: seq<Task>, rest: seq<Task>)
    requires Replay(log).Some?
    requires var r := Replay(log).value; r.pending == ts + rest && !r.closed && !r.slot.Ended?
    ensures var r := Replay(log).value;
            Replay(log + DeleteLog(ts)) ==
            Some(r.(pending := rest, popped := r.popped + ts, deleted := r.deleted + ts))
    decreases |ts|
  {
    hide Replay, Next;
    var r := Replay(log).value;
    if ts == [] {
      assert log + DeleteLog(ts) == log;
      assert r.popped + ts == r.popped && r.deleted + ts == r.deleted;
      assert rest == ts + rest;
    } else {
      var front, x := ts[..|ts| - 1], ts[|ts| - 1];
      assert ts + rest == front + ([x] + rest);
      ReplayDeletes(log, front, [x] + rest);
      ReplayDeleteOne(log + DeleteLog(front), x, rest);
      assert log + DeleteLog(front) + [DeleteCb(x)] == log + DeleteLog(ts);
      assert front + [x] == ts;
      assert r.popped + front + [x] == r.popped + ts;
      assert r.deleted + front + [x] == r.deleted + ts;
    }
  }
}
