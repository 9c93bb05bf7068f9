/**
 The client's side of a run.  A client knows only which of its callbacks are under way
 and which actions it awaits; it reports them finished through the queue id its task
 noted, whatever has been cancelled or removed meanwhile.  That the task is then still
 the current one of a live queue is proved here, not asked of the client.
 */
module Callbacks {
  import opened Protocol
  import opened Scheduler
  import opened Invariant
  import opened Removal
  import opened Histories
  import opened Runs
  import opened Progress

  // ---------------------------------------------------------------------
  // A current task stays current
  // ---------------------------------------------------------------------

  /** The operations by which the client of the queue under k reports on its current task. */
  predicate Reports(op: Op, k: Key) {
    (op.OpActionReturns? || op.OpReplyBegins? || op.OpReplyEnds? || op.OpPlainCompleted?) && op.key == k
  }

  /** The current task of q is current in q1, in the same phase, or was awaited and has been cancelled. */
  predicate StillCurrent(q: QueueState, q1: QueueState) {
    || (!q1.freed && q1.current == q.current)
    || (IsWaiting(q) && CancelCb(q.current.task) in q1.log)
  }

  /** Tasks do not leave the slot of a queue unless they are cancelled, and do not enter it. */
  predicate SlotKept(q: QueueState, q1: QueueState) {
    && (!q.freed && q.current.Running? ==> StillCurrent(q, q1))
    && (!q1.freed && q1.current.Running? ==> !q.freed && q.current == q1.current)
  }

  lemma SweepKeepsSlot(q: QueueState, sel: Selector)
    requires Shaped(q)
    ensures SlotKept(q, SweptQueue(sel, q))
  {
  }

  lemma SlotUntouched(s: ProcessorState, s1: ProcessorState, v: nat, spent: nat, u: nat)
    requires OneMoved(s, s1, v, spent) && u < |s.store| && u != v
    ensures u < |s1.store| && SlotKept(s.store[u], s1.store[u])
  {
    assert s1.store[u] == s.store[u];
  }

  lemma CancelStepKeepsSlot(s: ProcessorState, k: Key, u: nat)
    requires Core(s) && Live(s, k) && !s.quitting && u < |s.store|
    ensures u < |Cancel(s, k).store| && SlotKept(s.store[u], Cancel(s, k).store[u])
  {
    CancelClosed(s, k);
    assert Shaped(Lookup(s, k));
  }

  lemma AddTaskKeepsSlot(s: ProcessorState, k: Key, t: Task, u: nat)
    requires Live(s, k) && u < |s.store|
    ensures u < |AddTask(s, k, t).store| && SlotKept(s.store[u], AddTask(s, k, t).store[u])
  {
    var idle := AddTaskClosed(s, k, t);
  }

  lemma StartKeepsSlot(s: ProcessorState, k: Key, u: nat)
    requires Core(s) && Legal(s, OpStart(k)) && u < |s.store|
    ensures u < |Start(s, k).store| && SlotKept(s.store[u], Start(s, k).store[u])
  {
    assert Shaped(Lookup(s, k));
  }

  /** A report of another queue's client, or another queue's dispatch. */
  lemma OtherKeepsSlot(s: ProcessorState, op: Op, u: nat)
    requires Inv(s) && Legal(s, op) && !s.quitting && u < |s.store|
    requires op.OpDispatch? || op.OpActionReturns? || op.OpReplyBegins? || op.OpReplyEnds? || op.OpPlainCompleted?
    requires !s.store[u].freed ==> !Reports(op, s.store[u].key)
    requires op.OpDispatch? ==> s.sources[op.source] != u
    ensures Step(s, op).Some? && u < |Step(s, op).value.store|
    ensures SlotKept(s.store[u], Step(s, op).value.store[u])
  {
    assert !op.OpDispatch? ==> s.table[op.key] != u;
    hide Core, Agrees, SlotKept, TaskCompleted, ActionReturns, Dispatch, OneMoved;
    match op
    case OpDispatch(sid) =>
      DispatchMoves(s, sid);
      SlotUntouched(s, Step(s, op).value, s.sources[sid], 1, u);
    case OpActionReturns(k, hasAction, failed) =>
      ActionReturnsMoves(s, k, hasAction, failed);
      SlotUntouched(s, Step(s, op).value, s.table[k], if hasAction then 0 else 1, u);
    case OpReplyBegins(k) =>
      TrivialMoves(s, k, SetPhase(Lookup(s, k), Replying));
      SlotUntouched(s, Step(s, op).value, s.table[k], 0, u);
    case OpReplyEnds(k) =>
      CompletionMoves(s, k);
      SlotUntouched(s, Step(s, op).value, s.table[k], 1, u);
    case OpPlainCompleted(k) =>
      CompletionMoves(s, k);
      SlotUntouched(s, Step(s, op).value, s.table[k], 1, u);
  }

  /** Whatever else is done, a queue's slot is left alone by all but its own dispatch and its own client's reports. */
  lemma StepKeepsSlot(s: ProcessorState, op: Op, u: nat)
    requires Inv(s) && Legal(s, op) && !s.quitting && u < |s.store|
    requires !s.store[u].freed ==> !Reports(op, s.store[u].key)
    requires op.OpDispatch? ==> s.sources[op.source] != u
    ensures Step(s, op).Some? && u < |Step(s, op).value.store|
    ensures SlotKept(s.store[u], Step(s, op).value.store[u])
  {
    assert Shaped(s.store[u]);
    hide Base, Agrees, Cancel, RemoveQueues, AddTask, Start, Shaped;
    match op
    case OpRemove(sel, order) =>
      RemovalClosedForm(s, sel, order);
      SweepKeepsSlot(s.store[u], sel);
    case OpCancel(k) => CancelStepKeepsSlot(s, k, u);
    case OpAddTask(k, t) => AddTaskKeepsSlot(s, k, t, u);
    case OpStart(k) => StartKeepsSlot(s, k, u);
    case OpAddQueue(k, flags, client) =>
    case OpSetFinally(k, present) =>
    case _ => OtherKeepsSlot(s, op, u);
  }

  // ---------------------------------------------------------------------
  // What the client knows
  // ---------------------------------------------------------------------

  /**
   A task the client has to report on: its process callback (Starting) or its reply
   callback (Replying) is under way, or its action awaits a reply.  queueId is what the
   task noted when it was added.
   */
  datatype Call = Call(queue: nat, queueId: Key, phase: Phase)

  datatype Move =
    | Ask(op: Op)  // anything but a report
    | ActionReturned(task: Task, hasAction: bool, failed: bool)
    | ReplyArrived(task: Task)
    | ReplyHandled(task: Task)
    | PlainDone(task: Task)

  predicate Under(calls: map<Task, Call>, t: Task, phase: Phase) {
    t in calls && calls[t].phase == phase
  }

  predicate HasClient(s: ProcessorState, c: Call, client: Client) {
    c.queue < |s.store| && s.store[c.queue].client == client
  }

  /**
   What a client may do, by its own books: report on a callback that is under way or on
   an awaited action.  Nothing is asked about the queue the task came from, except that
   an action keeps the rules of service-task.c: it returns NULL when it fails, and does
   not go on waiting after its queue was cancelled.
   */
  ghost predicate Permitted(s: ProcessorState, calls: map<Task, Call>, m: Move) {
    match m
    case Ask(op) =>
      && !op.OpActionReturns? && !op.OpReplyBegins? && !op.OpReplyEnds? && !op.OpPlainCompleted?
      && Legal(s, op) && Clean(s, op)
    case ActionReturned(t, hasAction, failed) =>
      && Under(calls, t, Starting) && HasClient(s, calls[t], ServiceTasks)
      && !(hasAction && failed) && (hasAction ==> !s.store[calls[t].queue].cancelled)
    case ReplyArrived(t) => Under(calls, t, Waiting)
    case ReplyHandled(t) => Under(calls, t, Replying)
    case PlainDone(t) => Under(calls, t, Starting) && HasClient(s, calls[t], PlainTasks)
  }

  /** What a move does to the processor: reports go through the queue id the task noted. */
  ghost function OpOf(s: ProcessorState, calls: map<Task, Call>, m: Move): Op
    requires Permitted(s, calls, m)
  {
    match m
    case Ask(op) => op
    case ActionReturned(t, hasAction, failed) => OpActionReturns(calls[t].queueId, hasAction, failed)
    case ReplyArrived(t) => OpReplyBegins(calls[t].queueId)
    case ReplyHandled(t) => OpReplyEnds(calls[t].queueId)
    case PlainDone(t) => OpPlainCompleted(calls[t].queueId)
  }

  /** The client's books after a move, before cancelled actions are struck out. */
  ghost function Noted(s: ProcessorState, calls: map<Task, Call>, m: Move): map<Task, Call>
    requires Permitted(s, calls, m)
  {
    match m
    case Ask(OpDispatch(sid)) =>
      var u := s.sources[sid];
      if u < |s.store| && s.store[u].tasks != []
      then calls[s.store[u].tasks[0] := Call(u, s.store[u].key, Starting)]
      else calls
    case Ask(_) => calls
    case ActionReturned(t, hasAction, _) => if hasAction then calls[t := calls[t].(phase := Waiting)] else calls - {t}
    case ReplyArrived(t) => calls[t := calls[t].(phase := Replying)]
    case ReplyHandled(t) => calls - {t}
    case PlainDone(t) => calls - {t}
  }

  /** The cancel callback has run, and has cancelled an awaited action: its reply will not come. */
  predicate CalledOff(s: ProcessorState, t: Task, c: Call) {
    c.phase == Waiting && c.queue < |s.store| && CancelCb(t) in s.store[c.queue].log
  }

  function Struck(s: ProcessorState, calls: map<Task, Call>): map<Task, Call> {
    map t | t in calls && !CalledOff(s, t, calls[t]) :: calls[t]
  }

  /** c stands for the current task t of a live queue. */
  ghost predicate Meets(s: ProcessorState, t: Task, c: Call) {
    && c.queue < |s.store| && Live(s, c.queueId) && s.table[c.queueId] == c.queue
    && s.store[c.queue].current == Running(t, c.phase)
  }

  /** The client's books list the current tasks of all live queues, and nothing else. */
  ghost predicate Tracks(s: ProcessorState, calls: map<Task, Call>) {
    && (forall t | t in calls :: Meets(s, t, calls[t]))
    && (forall u {:trigger s.store[u]} | 0 <= u < |s.store| && !s.store[u].freed && s.store[u].current.Running? ::
          s.store[u].current.task in calls && calls[s.store[u].current.task].queue == u)
  }

  // ---------------------------------------------------------------------
  // Plays
  // ---------------------------------------------------------------------

  /** The code can carry out the move: a report meets its own task as the current one, in the phase reported on. */
  ghost predicate Sound(s: ProcessorState, calls: map<Task, Call>, m: Move)
    requires Permitted(s, calls, m)
  {
    Legal(s, OpOf(s, calls, m)) && (!m.Ask? ==> Meets(s, m.task, calls[m.task]))
  }

  datatype Played = Playing(state: ProcessorState, calls: map<Task, Call>) | NotPermitted | Broken

  /**
   Plays moves one after the other.  NotPermitted when a client breaks its own rules;
   Broken when a report does not meet its task or a dispatch does not find its queue.
   */
  ghost function Play(s: ProcessorState, calls: map<Task, Call>, moves: seq<Move>): Played
    decreases |moves|
  {
    if moves == [] then Playing(s, calls)
    else if !Permitted(s, calls, moves[0]) then NotPermitted
    else if !Sound(s, calls, moves[0]) then Broken
    else match Step(s, OpOf(s, calls, moves[0]))
         case None => Broken
         case Some(s1) => Play(s1, Struck(s1, Noted(s, calls, moves[0])), moves[1..])
  }

  /** A report permitted by the client's books meets its own task as the current one of a live queue. */
  lemma ReportsMeetTheirTask(s: ProcessorState, calls: map<Task, Call>, m: Move)
    requires Inv(s) && Tracks(s, calls) && Permitted(s, calls, m)
    ensures Sound(s, calls, m) && Clean(s, OpOf(s, calls, m))
  {
    if !m.Ask? {
      assert Meets(s, m.task, calls[m.task]);
      assert Shaped(s.store[calls[m.task].queue]);
    }
  }

  // ---------------------------------------------------------------------
  // The client's books stay right
  // ---------------------------------------------------------------------

  lemma {:induction false} CancelRecorded(log: seq<Event>, t: Task)
    requires CancelCb(t) in log
    ensures t in Tasks(log, Cancels)
    decreases |log|
  {
    var front, e := log[..|log| - 1], log[|log| - 1];
    assert log == front + [e];
    TasksAppend(front, e, Cancels);
    if e != CancelCb(t) {
      CancelRecorded(front, t);
    }
  }

  lemma AwaitedNotCancelled(q: QueueState)
    requires LogAgrees(q) && Shaped(q) && !q.freed && IsWaiting(q)
    ensures CancelCb(q.current.task) !in q.log
  {
    BooksMatchLog(q.log);
    if CancelCb(q.current.task) in q.log {
      CancelRecorded(q.log, q.current.task);
    }
  }

  lemma CurrentNotCalledOff(s: ProcessorState, t: Task, c: Call)
    requires Core(s) && Meets(s, t, c)
    ensures !CalledOff(s, t, c)
  {
    var q := s.store[c.queue];
    assert LogAgrees(q) && Shaped(q);
    if IsWaiting(q) {
      AwaitedNotCancelled(q);
    }
  }

  /** From s to s1 the slots of all queues but v were kept, and no new queue runs anything. */
  ghost predicate OnlySlot(s: ProcessorState, s1: ProcessorState, v: int) {
    && |s.store| <= |s1.store|
    && (forall u {:trigger s1.store[u]} | 0 <= u < |s.store| :: s1.store[u].key == s.store[u].key)
    && (forall u {:trigger SlotKept(s.store[u], s1.store[u])} | 0 <= u < |s.store| && u != v ::
          SlotKept(s.store[u], s1.store[u]))
    && (forall u | |s.store| <= u < |s1.store| :: s1.store[u].current.Idle?)
  }

  /** noted differs from calls in what concerns queue v, and is right about it after the step. */
  ghost predicate NotedFor(s1: ProcessorState, calls: map<Task, Call>, noted: map<Task, Call>, v: int) {
    && (forall t | t in noted && noted[t].queue != v :: t in calls && calls[t] == noted[t])
    && (forall t | t in calls && calls[t].queue != v :: t in noted && noted[t] == calls[t])
    && (forall t | t in noted && noted[t].queue == v :: Meets(s1, t, noted[t]))
    && (0 <= v < |s1.store| && !s1.store[v].freed && s1.store[v].current.Running? ==>
          s1.store[v].current.task in noted && noted[s1.store[v].current.task].queue == v)
  }

  lemma TaskMeetsAfter(s: ProcessorState, calls: map<Task, Call>, s1: ProcessorState, noted: map<Task, Call>, v: int,
                       t: Task)
    requires Core(s) && Core(s1) && Tracks(s, calls) && OnlySlot(s, s1, v) && NotedFor(s1, calls, noted, v)
    requires t in noted && !CalledOff(s1, t, noted[t])
    ensures Meets(s1, t, noted[t])
  {
    assert TableAgrees(s.store, s.table) && TableAgrees(s1.store, s1.table);
    hide Base, Shaped, SlotKept, TableAgrees, CalledOff;
    if noted[t].queue != v {
      assert Meets(s, t, calls[t]);
      assert SlotKept(s.store[noted[t].queue], s1.store[noted[t].queue]);
    }
  }

  lemma RunnerNotedAfter(s: ProcessorState, calls: map<Task, Call>, s1: ProcessorState, noted: map<Task, Call>, v: int,
                         u: nat)
    requires Core(s) && Core(s1) && Tracks(s, calls) && OnlySlot(s, s1, v) && NotedFor(s1, calls, noted, v)
    requires u < |s1.store| && !s1.store[u].freed && s1.store[u].current.Running?
    ensures var t := s1.store[u].current.task; t in noted && noted[t].queue == u && Meets(s1, t, noted[t])
  {
    var t := s1.store[u].current.task;
    if u != v {
      assert SlotKept(s.store[u], s1.store[u]);
      assert s.store[u].current.task == t;
      assert Meets(s, t, calls[t]);
      assert s.store[u].key == s1.store[u].key;
    }
  }

  /** The books after a change of the slot of queue v alone; v is -1 when no slot has changed. */
  lemma TracksAfter(s: ProcessorState, calls: map<Task, Call>, s1: ProcessorState, noted: map<Task, Call>, v: int)
    requires Core(s) && Core(s1) && Tracks(s, calls) && OnlySlot(s, s1, v) && NotedFor(s1, calls, noted, v)
    ensures Tracks(s1, Struck(s1, noted))
  {
    hide Core, OnlySlot, NotedFor, Meets, CalledOff;
    var after := Struck(s1, noted);
    forall t | t in after
      ensures Meets(s1, t, after[t])
    {
      TaskMeetsAfter(s, calls, s1, noted, v, t);
    }
    forall u {:trigger s1.store[u]} | 0 <= u < |s1.store| && !s1.store[u].freed && s1.store[u].current.Running?
      ensures s1.store[u].current.task in after && after[s1.store[u].current.task].queue == u
    {
      RunnerNotedAfter(s, calls, s1, noted, v, u);
      CurrentNotCalledOff(s1, s1.store[u].current.task, noted[s1.store[u].current.task]);
    }
  }

  /** Only add_queue adds to the store, and what it adds runs nothing. */
  lemma NewQueuesIdle(s: ProcessorState, op: Op)
    requires Inv(s) && Legal(s, op) && !s.quitting
    ensures Step(s, op).Some? && |s.store| <= |Step(s, op).value.store|
    ensures forall u | |s.store| <= u < |Step(s, op).value.store| :: Step(s, op).value.store[u].current.Idle?
  {
    hide Inv, AddTask, RemoveQueues, Later, Load;
    match op
    case OpAddQueue(k, flags, client) =>
    case OpAddTask(k, t) => var idle := AddTaskClosed(s, k, t);
    case OpRemove(sel, order) =>
      CoreOf(s);
      RemovalClosedForm(s, sel, order);
    case _ =>
      var v := StepMovesOne(s, op);
  }

  /** A step leaves all slots alone but that of v: the queue dispatched, or the one whose client reports. */
  lemma StepOnlySlot(s: ProcessorState, op: Op, v: int)
    requires Inv(s) && Legal(s, op) && !s.quitting
    requires forall u | 0 <= u < |s.store| && !s.store[u].freed && Reports(op, s.store[u].key) :: u == v
    requires op.OpDispatch? ==> s.sources[op.source] == v
    ensures Step(s, op).Some? && OnlySlot(s, Step(s, op).value, v)
  {
    hide Inv, Step, Legal, SlotKept;
    NewQueuesIdle(s, op);
    StepEvolves(s, op);
    forall u {:trigger SlotKept(s.store[u], Step(s, op).value.store[u])} | 0 <= u < |s.store| && u != v
      ensures SlotKept(s.store[u], Step(s, op).value.store[u])
    {
      StepKeepsSlot(s, op, u);
    }
    forall u {:trigger Step(s, op).value.store[u]} | 0 <= u < |s.store|
      ensures Step(s, op).value.store[u].key == s.store[u].key
    {
      assert Later(s.store[u], Step(s, op).value.store[u]);
    }
  }

  lemma CompletedSlot(s: ProcessorState, k: Key)
    requires Live(s, k) && !s.quitting && Lookup(s, k).current.Running?
    ensures |TaskCompleted(s, k).store| == |s.store| && TaskCompleted(s, k).store[s.table[k]].current.Idle?
  {
    TaskCompletedClosed(s, k);
    hide TaskCompleted;
  }

  lemma NullActionSlot(s: ProcessorState, k: Key, failed: bool)
    requires TableAgrees(s.store, s.table) && !s.quitting && Live(s, k)
    requires Lookup(s, k).current.Running? && Lookup(s, k).current.phase == Starting
    ensures var f := ActionReturns(s, k, false, failed);
            |f.store| == |s.store| && f.store[s.table[k]].current.Idle?
  {
    if failed {
      FailedActionClosed(s, k);
      hide ActionReturns, TaskCompleted, Cancel;
    } else {
      assert Put(s, k, SetPhase(Lookup(s, k), Starting)) == s by {
        assert s.store[s.table[k] := Lookup(s, k)] == s.store;
      }
      CompletedSlot(s, k);
      hide TaskCompleted, Cancel;
    }
  }

  lemma AwaitedSlot(s: ProcessorState, k: Key, p: Phase)
    requires Live(s, k) && Lookup(s, k).current.Running?
    ensures var f := Put(s, k, SetPhase(Lookup(s, k), p));
            |f.store| == |s.store| && f.store[s.table[k]] == SetPhase(Lookup(s, k), p)
  {
  }

  /** What a report makes of the slot it is about. */
  predicate Reported(op: Op, q: QueueState, q1: QueueState)
    requires q.current.Running?
  {
    if op.OpActionReturns? && op.hasAction then !q1.freed && q1.current == Running(q.current.task, Waiting)
    else if op.OpReplyBegins? then !q1.freed && q1.current == Running(q.current.task, Replying)
    else q1.current.Idle?
  }

  lemma ReportedSlot(s: ProcessorState, op: Op, k: Key)
    requires Core(s) && Legal(s, op) && !s.quitting && Reports(op, k)
    ensures Step(s, op).Some? && s.table[k] < |Step(s, op).value.store|
    ensures Lookup(s, k).current.Running? && Reported(op, Lookup(s, k), Step(s, op).value.store[s.table[k]])
  {
    assert !Lookup(s, k).freed;
    assert TableAgrees(s.store, s.table);
    hide Core, TaskCompleted, TableAgrees, Cancel;
    match op
    case OpActionReturns(_, hasAction, failed) =>
      if hasAction {
        AwaitedSlot(s, k, Waiting);
      } else {
        NullActionSlot(s, k, failed);
        hide ActionReturns;
      }
    case OpReplyBegins(_) => AwaitedSlot(s, k, Replying);
    case OpReplyEnds(_) => CompletedSlot(s, k);
    case OpPlainCompleted(_) => CompletedSlot(s, k);
  }

  lemma MeetsNow(s: ProcessorState, t: Task, c: Call)
    requires TableAgrees(s.store, s.table) && c.queue < |s.store|
    requires var q := s.store[c.queue]; !q.freed && q.key == c.queueId && q.current == Running(t, c.phase)
    ensures Meets(s, t, c)
  {
  }

  lemma NotedForReport(s: ProcessorState, calls: map<Task, Call>, m: Move, s1: ProcessorState)
    requires Tracks(s, calls) && Permitted(s, calls, m) && !m.Ask? && TableAgrees(s1.store, s1.table)
    requires Meets(s, m.task, calls[m.task]) && calls[m.task].queue < |s1.store|
    requires s1.store[calls[m.task].queue].key == calls[m.task].queueId
    requires Reported(OpOf(s, calls, m), s.store[calls[m.task].queue], s1.store[calls[m.task].queue])
    ensures NotedFor(s1, calls, Noted(s, calls, m), calls[m.task].queue)
  {
    var t := m.task;
    var noted := Noted(s, calls, m);
    OneCallPerQueue(s, calls, t);
    assert s.store[calls[t].queue].current == Running(t, calls[t].phase);
    hide Tracks, TableAgrees, Meets, HasClient, Under, Legal;
    if t in noted {
      MeetsNow(s1, t, noted[t]);
    }
  }

  lemma ReportNoted(s: ProcessorState, calls: map<Task, Call>, m: Move)
    requires Inv(s) && !s.quitting && Tracks(s, calls) && Permitted(s, calls, m) && !m.Ask?
    ensures Sound(s, calls, m) && Step(s, OpOf(s, calls, m)).Some?
    ensures var s1 := Step(s, OpOf(s, calls, m)).value;
            OnlySlot(s, s1, calls[m.task].queue) && NotedFor(s1, calls, Noted(s, calls, m), calls[m.task].queue)
  {
    var c, op := calls[m.task], OpOf(s, calls, m);
    ReportsMeetTheirTask(s, calls, m);
    assert Reports(op, c.queueId);
    hide Legal, Step, Reported, Tracks, Permitted, OpOf, Noted, NotedFor;
    CoreOf(s);
    hide Inv, Core;
    StepKeepsCore(s, op);
    ReportedSlot(s, op, c.queueId);
    StepOnlySlot(s, op, c.queue);
    NotedForReport(s, calls, m, Step(s, op).value);
  }

  lemma OneCallPerQueue(s: ProcessorState, calls: map<Task, Call>, t: Task)
    requires Tracks(s, calls) && t in calls
    ensures forall t1 | t1 in calls && calls[t1].queue == calls[t].queue :: t1 == t
  {
    assert Meets(s, t, calls[t]);
    forall t1 | t1 in calls && calls[t1].queue == calls[t].queue
      ensures t1 == t
    {
      assert Meets(s, t1, calls[t1]);
    }
  }

  /** A pending task is not the current task of any queue. */
  lemma PendingIsNotCurrent(s: ProcessorState, v: nat, w: nat, t: Task)
    requires Core(s) && v < |s.store| && w < |s.store| && t in s.store[v].tasks
    ensures s.store[w].current.Running? ==> s.store[w].current.task != t
  {
    var q := s.store[w];
    assert t in multiset(s.store[v].tasks);
    assert multiset(CurrentTask(q))[t] == if q.current.Running? && q.current.task == t then 1 else 0;
    TaskConservation(s, t);
    hide Base, Shaped;
  }

  lemma DispatchedSlot(s: ProcessorState, sid: nat)
    requires Inv(s) && sid in s.sources
    ensures Dispatch(s, sid).Some?
    ensures var v, s1 := s.sources[sid], Dispatch(s, sid).value;
            && v < |s.store| == |s1.store| && !s.store[v].freed && s.store[v].current.Idle? && s.store[v].tasks != []
            && s1.store[v] == TakeHead(s.store[v]) && TableAgrees(s1.store, s1.table)
  {
    DispatchIsSafe(s, sid);
    assert TableAgrees(s.store, s.table);
  }

  /** A queue about to be dispatched has no call, and neither has its head. */
  lemma HeadNotCalled(s: ProcessorState, calls: map<Task, Call>, v: nat)
    requires Core(s) && Tracks(s, calls) && v < |s.store| && s.store[v].current.Idle? && s.store[v].tasks != []
    ensures forall t | t in calls :: t != s.store[v].tasks[0] && calls[t].queue != v
  {
    hide Core;
    forall t | t in calls
      ensures t != s.store[v].tasks[0] && calls[t].queue != v
    {
      assert Meets(s, t, calls[t]);
      PendingIsNotCurrent(s, v, calls[t].queue, s.store[v].tasks[0]);
    }
  }

  lemma NotedForDispatch(s: ProcessorState, calls: map<Task, Call>, v: nat, s1: ProcessorState)
    requires v < |s.store| == |s1.store| && s.store[v].tasks != []
    requires forall t | t in calls :: t != s.store[v].tasks[0] && calls[t].queue != v
    requires TableAgrees(s1.store, s1.table) && !s1.store[v].freed && s1.store[v] == TakeHead(s.store[v])
    ensures NotedFor(s1, calls, calls[s.store[v].tasks[0] := Call(v, s.store[v].key, Starting)], v)
  {
    MeetsNow(s1, s.store[v].tasks[0], Call(v, s.store[v].key, Starting));
    hide TableAgrees, Meets;
  }

  lemma DispatchNoted(s: ProcessorState, calls: map<Task, Call>, sid: nat)
    requires Inv(s) && !s.quitting && Tracks(s, calls) && sid in s.sources
    ensures Dispatch(s, sid).Some? && Permitted(s, calls, Ask(OpDispatch(sid)))
    ensures NotedFor(Dispatch(s, sid).value, calls, Noted(s, calls, Ask(OpDispatch(sid))), s.sources[sid])
  {
    var v := s.sources[sid];
    hide Inv, Core, Dispatch, Tracks, NotedFor, TableAgrees, TakeHead;
    DispatchedSlot(s, sid);
    CoreOf(s);
    HeadNotCalled(s, calls, v);
    NotedForDispatch(s, calls, v, Dispatch(s, sid).value);
  }

  /** Which slot a move is about. */
  ghost function SlotOfMove(s: ProcessorState, calls: map<Task, Call>, m: Move): int
    requires Permitted(s, calls, m)
  {
    if !m.Ask? then calls[m.task].queue else if m.op.OpDispatch? then s.sources[m.op.source] else -1
  }

  lemma MoveNoted(s: ProcessorState, calls: map<Task, Call>, m: Move)
    requires Inv(s) && !s.quitting && Tracks(s, calls) && Permitted(s, calls, m)
    ensures Legal(s, OpOf(s, calls, m)) && Step(s, OpOf(s, calls, m)).Some?
    ensures var s1, v := Step(s, OpOf(s, calls, m)).value, SlotOfMove(s, calls, m);
            OnlySlot(s, s1, v) && NotedFor(s1, calls, Noted(s, calls, m), v)
  {
    hide Inv, Tracks, OnlySlot;
    if !m.Ask? {
      ReportNoted(s, calls, m);
    } else {
      StepOnlySlot(s, m.op, SlotOfMove(s, calls, m));
      if m.op.OpDispatch? {
        DispatchNoted(s, calls, m.op.source);
      }
    }
  }

  /** One move: it finds what it is about, and keeps the invariant and the client's books. */
  lemma MoveKeepsTracks(s: ProcessorState, calls: map<Task, Call>, m: Move)
    requires Inv(s) && !s.quitting && Tracks(s, calls) && Permitted(s, calls, m)
    ensures Sound(s, calls, m) && Clean(s, OpOf(s, calls, m)) && Step(s, OpOf(s, calls, m)).Some?
    ensures var s1 := Step(s, OpOf(s, calls, m)).value;
            Inv(s1) && !s1.quitting && Tracks(s1, Struck(s1, Noted(s, calls, m)))
  {
    var op := OpOf(s, calls, m);
    ReportsMeetTheirTask(s, calls, m);
    hide Tracks, Core, Legal, Clean, Step, Permitted, OnlySlot, NotedFor, Sound, Agrees;
    MoveNoted(s, calls, m);
    StepKeepsInvIff(s, op);
    TracksAfter(s, calls, Step(s, op).value, Noted(s, calls, m), SlotOfMove(s, calls, m));
  }

  /**
   Over any run of permitted moves every report meets its own task, still the current one
   of a live queue and in the phase reported on, whatever was cancelled or removed before
   it came; and in the end the client has reports to make on exactly the running tasks.
   */
  lemma {:induction false} PlaysAreSound(s: ProcessorState, calls: map<Task, Call>, moves: seq<Move>)
    requires Inv(s) && !s.quitting && Tracks(s, calls)
    ensures var p := Play(s, calls, moves);
            !p.Broken? && (p.Playing? ==> Inv(p.state) && !p.state.quitting && Tracks(p.state, p.calls))
    decreases |moves|
  {
    hide Inv, Tracks, Permitted, Legal, Meets, Step;
    if moves != [] && Permitted(s, calls, moves[0]) {
      MoveKeepsTracks(s, calls, moves[0]);
      var s1 := Step(s, OpOf(s, calls, moves[0])).value;
      PlaysAreSound(s1, Struck(s1, Noted(s, calls, moves[0])), moves[1..]);
    }
  }

  /** The operations a play comes to. */
  ghost function Ops(s: ProcessorState, calls: map<Task, Call>, moves: seq<Move>): seq<Op>
    requires Play(s, calls, moves).Playing?
    decreases |moves|
  {
    if moves == [] then []
    else
      var op := OpOf(s, calls, moves[0]);
      var s1 := Step(s, op).value;
      [op] + Ops(s1, Struck(s1, Noted(s, calls, moves[0])), moves[1..])
  }

  /** Every play is a run, so that all that is proved about runs holds of plays. */
  lemma {:induction false} PlaysAreRuns(s: ProcessorState, calls: map<Task, Call>, moves: seq<Move>)
    requires Inv(s) && !s.quitting && Tracks(s, calls) && Play(s, calls, moves).Playing?
    ensures Run(s, Ops(s, calls, moves)) == Done(Play(s, calls, moves).state)
    decreases |moves|
  {
    hide Inv, Tracks, Permitted, Step, Clean, Legal;
    if moves != [] {
      var op := OpOf(s, calls, moves[0]);
      MoveKeepsTracks(s, calls, moves[0]);
      var s1 := Step(s, op).value;
      var calls1 := Struck(s1, Noted(s, calls, moves[0]));
      PlaysAreRuns(s1, calls1, moves[1..]);
      assert Ops(s, calls, moves)[1..] == Ops(s1, calls1, moves[1..]);
    }
  }

  /**
   Exactly-once completion, over every play: each queue's completions are its starts, in
   order, but for the task now running, on which the client still has a report to make; no
   completion was ever reported without its task being current.
   */
  lemma ReportedExactlyOnce(moves: seq<Move>, u: nat)
    requires Play(INITIAL, map[], moves).Playing? && u < |Play(INITIAL, map[], moves).state.store|
    ensures var p := Play(INITIAL, map[], moves);
            var q := p.state.store[u];
            && Tasks(q.log, Starts) == Tasks(q.log, Completes) + CurrentTask(q)
            && Distinct(Tasks(q.log, Starts)) && Subsequence(Tasks(q.log, Starts), Tasks(q.log, Adds))
            && Spurious !in q.log
            && (q.freed ==> q.current.Idle?)
            && (q.current.Running? ==>
                  q.current.task in p.calls && Meets(p.state, q.current.task, p.calls[q.current.task]))
  {
    PlaysAreSound(INITIAL, map[], moves);
    var p := Play(INITIAL, map[], moves);
    assert LogAgrees(p.state.store[u]);
    StartsAndCompletions(p.state.store[u]);
  }
}
