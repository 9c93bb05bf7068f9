/**
 The task processor as a state machine on values: one function per operation of
 libdleyna/core/task-processor.c and libdleyna/core/service-task.c.  The classes
 in Processor.dfy are proved to compute exactly these functions.
 */
module Scheduler {
  import opened Wrappers
  import opened Protocol

  /** The (source, sink) pair a queue is filed under. */
  datatype Key = Key(source: string, sink: string)

  datatype Flags = Flags(autoStart: bool, autoRemove: bool)

  /**
   Where the client is with the current task.  Waiting is the only phase in which
   the task's p_action is set: before it the process callback has not returned,
   after it the reply callback has not returned.
   */
  datatype Phase = Starting | Waiting | Replying

  datatype Current = Idle | Running(task: Task, phase: Phase)

  /** Which callbacks a queue was given: those of service-task.c, or ones whose cancel callback completes later. */
  datatype Client = ServiceTasks | PlainTasks

  /** One queue instance.  A freed instance stays in the store as a record of what it did. */
  datatype QueueState = QueueState(
    key: Key, flags: Flags, client: Client,
    tasks: seq<Task>, current: Current, idle: nat,
    deferRemove: bool, cancelled: bool, hasFinally: bool,
    freed: bool, log: seq<Event>)

  /**
   store      every queue instance ever created; its index stands for the queue's address
   table      the hash table from keys to instances
   sources    the main loop's pending idle sources that will dispatch a queue
   quits      how often the quit callback was scheduled
   owner      the queue_id written into each task atom when it is added
   */
  datatype ProcessorState = ProcessorState(
    store: seq<QueueState>, table: map<Key, nat>,
    running: int, quitting: bool,
    sources: map<nat, nat>, nextSource: nat, quits: nat,
    owner: map<Task, nat>)

  const INITIAL := ProcessorState([], map[], 0, false, map[], 1, 0, map[])

  predicate Live(s: ProcessorState, k: Key) {
    k in s.table && s.table[k] < |s.store|
  }

  /** The hash table lookup that starts most operations. */
  function Lookup(s: ProcessorState, k: Key): QueueState
    requires Live(s, k)
  {
    s.store[s.table[k]]
  }

  function Put(s: ProcessorState, k: Key, q: QueueState): ProcessorState
    requires Live(s, k)
  {
    s.(store := s.store[s.table[k] := q])
  }

  // ---------------------------------------------------------------------
  // One queue
  // ---------------------------------------------------------------------

  function NewQueue(k: Key, flags: Flags, client: Client): QueueState {
    QueueState(k, flags, client, [], Idle, 0, false, false, false, false, [])
  }

  function Enqueue(q: QueueState, t: Task): QueueState {
    q.(tasks := q.tasks + [t], log := q.log + [Added(t)])
  }

  /** Dispatch takes the head of the pending list. */
  function TakeHead(q: QueueState): QueueState
    requires q.tasks != []
  {
    q.(cancelled := false, idle := 0, current := Running(q.tasks[0], Starting), tasks := q.tasks[1..],
       log := q.log + [Started(q.tasks[0])])
  }

  /** The current task is reported complete and deleted. */
  function EndCurrent(q: QueueState): QueueState {
    if q.current.Idle? then q.(log := q.log + [Spurious])
    else q.(current := Idle, log := q.log + [Completed(q.current.task)] + [DeleteCb(q.current.task)])
  }

  /** Everything a first cancel does to the queue itself, up to and including the current task's cancel callback. */
  function Cut(q: QueueState): QueueState {
    q.(cancelled := true, tasks := [], idle := 0,
       log := q.log + [CancelCall] + FlushLog(q.tasks)
              + (if q.current.Running? then [CancelCb(q.current.task)] else []))
  }

  function FreeQueue(q: QueueState): QueueState {
    q.(freed := true, tasks := [],
       log := q.log + DeleteLog(q.tasks) + (if q.hasFinally then [Finally(q.cancelled)] else []))
  }

  predicate IsWaiting(q: QueueState) {
    q.current.Running? && q.current.phase == Waiting
  }

  function SetPhase(q: QueueState, p: Phase): QueueState
    requires q.current.Running?
  {
    q.(current := Running(q.current.task, p))
  }

  // ---------------------------------------------------------------------
  // The hash table and the main loop
  // ---------------------------------------------------------------------

  /** g_hash_table_remove: frees the queue if it is still there. */
  function RemoveQueue(s: ProcessorState, k: Key): ProcessorState
  {
    if Live(s, k) then Put(s, k, FreeQueue(Lookup(s, k))).(table := s.table - {k}) else s
  }

  function FreeLive(q: QueueState): QueueState {
    if q.freed then q else FreeQueue(q)
  }

  function FreeAll(store: seq<QueueState>): (r: seq<QueueState>)
    ensures |r| == |store| && forall u | 0 <= u < |store| :: r[u] == FreeLive(store[u])
  {
    if store == [] then [] else FreeAll(store[..|store| - 1]) + [FreeLive(store[|store| - 1])]
  }

  /** g_hash_table_remove_all. */
  function RemoveAllQueues(s: ProcessorState): ProcessorState {
    s.(store := FreeAll(s.store), table := map[])
  }

  /** g_idle_add of prv_process_task, its result stored in the queue. */
  function Schedule(s: ProcessorState, k: Key): ProcessorState
    requires Live(s, k)
  {
    Put(s, k, Lookup(s, k).(idle := s.nextSource))
    .(sources := s.sources[s.nextSource := s.table[k]], nextSource := s.nextSource + 1)
  }

  // ---------------------------------------------------------------------
  // task-processor.c
  // ---------------------------------------------------------------------

  function AddQueue(s: ProcessorState, k: Key, flags: Flags, client: Client): ProcessorState {
    s.(store := s.store + [NewQueue(k, flags, client)], table := s.table[k := |s.store|])
  }

  function SetFinally(s: ProcessorState, k: Key, present: bool): ProcessorState
    requires Live(s, k)
  {
    Put(s, k, Lookup(s, k).(hasFinally := present))
  }

  function Append(s: ProcessorState, k: Key, t: Task): ProcessorState
    requires Live(s, k)
  {
    Put(s, k, Enqueue(Lookup(s, k), t)).(owner := s.owner[t := s.table[k]])
  }

  function AddTask(s: ProcessorState, k: Key, t: Task): ProcessorState
    requires Live(s, k)
  {
    var q := Lookup(s, k);
    if !q.deferRemove && q.flags.autoStart && q.current.Idle? && q.idle == 0
    then Schedule(Append(s, k, t), k)
    else Append(s, k, t)
  }

  function Start(s: ProcessorState, k: Key): ProcessorState
    requires Live(s, k)
  {
    var q := Lookup(s, k);
    if s.quitting || q.deferRemove then s
    else if q.tasks != [] then
      if q.current.Idle? && q.idle == 0 then Schedule(s, k) else s
    else if q.flags.autoRemove then RemoveQueue(s, k)
    else s
  }

  /**
   The main loop runs an idle source, up to the call of the process callback.
   None stands for the crash of a dispatch that finds its queue gone or empty.
   */
  function Dispatch(s: ProcessorState, sid: nat): Option<ProcessorState>
    requires sid in s.sources
  {
    var u := s.sources[sid];
    if u >= |s.store| || s.store[u].freed || !Live(s, s.store[u].key) then None else
    var k := s.store[u].key;
    var q := Lookup(s, k);
    if q.tasks == [] then None else
    Some(Put(s, k, TakeHead(q)).(running := s.running + 1, sources := s.sources - {sid}))
  }

  /** task_completed, up to the decision what becomes of the queue. */
  function EndTask(s: ProcessorState, k: Key): ProcessorState
    requires Live(s, k)
  {
    Put(s, k, EndCurrent(Lookup(s, k))).(running := s.running - 1)
  }

  /** The rest of task_completed: quit, remove, go on with the next task, or rest. */
  function GoOn(s: ProcessorState, k: Key): ProcessorState
    requires Live(s, k)
  {
    var q := Lookup(s, k);
    if s.quitting && s.running == 0 then RemoveAllQueues(s.(quits := s.quits + 1))
    else if q.deferRemove then RemoveQueue(s, k)
    else if q.tasks != [] then Schedule(s, k)
    else if q.flags.autoRemove then RemoveQueue(s, k)
    else s
  }

  function TaskCompleted(s: ProcessorState, k: Key): (r: ProcessorState)
    requires Live(s, k)
    ensures r.quitting == s.quitting && (!s.quitting ==> r.quits == s.quits)
  {
    GoOn(EndTask(s, k), k)
  }

  /** prv_cancel_only on a queue not cancelled yet, up to the return of a cancel callback that does nothing. */
  function CutQueue(s: ProcessorState, k: Key): ProcessorState
    requires Live(s, k)
  {
    var q := Lookup(s, k);
    Put(s, k, Cut(q)).(sources := if q.idle != 0 then s.sources - {q.idle} else s.sources)
  }

  /** The effect of prv_cancel_only on the state. */
  function CancelOnly(s: ProcessorState, k: Key): ProcessorState
    requires Live(s, k)
  {
    var q := Lookup(s, k);
    if q.cancelled then Put(s, k, q.(log := q.log + [CancelCall]))
    else if IsWaiting(q) then TaskCompleted(CutQueue(s, k), k)
    else CutQueue(s, k)
  }

  /** The result of prv_cancel_only: should the caller remove the queue? */
  predicate CancelRemoves(q: QueueState) {
    !q.cancelled && q.current.Idle? && q.flags.autoRemove
  }

  /** prv_cancel, and what prv_cancel_cb does to one entry of the table. */
  function Cancel(s: ProcessorState, k: Key): (r: ProcessorState)
    requires Live(s, k)
    ensures r.quitting == s.quitting && (!s.quitting ==> r.quits == s.quits)
  {
    var s1 := CancelOnly(s, k);
    if CancelRemoves(Lookup(s, k)) then RemoveQueue(s1, k) else s1
  }

  /** foreach_remove with prv_cancel_cb: a key is visited only while it is still in the table. */
  function CancelAll(s: ProcessorState, order: seq<Key>): ProcessorState
    decreases |order|
  {
    if order == [] then s
    else CancelAll(if Live(s, order[0]) then Cancel(s, order[0]) else s, order[1..])
  }

  function SetQuitting(s: ProcessorState, order: seq<Key>): ProcessorState {
    var s1 := s.(quitting := true, quits := if s.running == 0 then s.quits + 1 else s.quits);
    RemoveAllQueues(CancelAll(s1, order))
  }

  /** What remove_queues_for_source and remove_queues_for_sink select on. */
  datatype Selector = BySource(name: string) | BySink(name: string)

  predicate Selects(sel: Selector, k: Key) {
    match sel
    case BySource(n) => n == k.source
    case BySink(n) => n == k.sink
  }

  function MarkDeferred(s: ProcessorState, k: Key): ProcessorState
    requires Live(s, k)
  {
    Put(s, k, Lookup(s, k).(deferRemove := Lookup(s, k).current.Running?))
  }

  /** One visit of remove_queues_for_source or remove_queues_for_sink. */
  function RemoveSelected(s: ProcessorState, sel: Selector, k: Key): (r: ProcessorState)
    requires Live(s, k)
    ensures r.quitting == s.quitting && (!s.quitting ==> r.quits == s.quits)
  {
    var q := Lookup(s, k);
    if !Selects(sel, k) || q.deferRemove then s
    else if q.current.Running? then Cancel(MarkDeferred(s, k), k)
    else RemoveQueue(Cancel(MarkDeferred(s, k), k), k)
  }

  function RemoveQueues(s: ProcessorState, sel: Selector, order: seq<Key>): (r: ProcessorState)
    ensures r.quitting == s.quitting && (!s.quitting ==> r.quits == s.quits)
    decreases |order|
  {
    if order == [] then s
    else RemoveQueues(if Live(s, order[0]) then RemoveSelected(s, sel, order[0]) else s, sel, order[1..])
  }

  // ---------------------------------------------------------------------
  // service-task.c
  // ---------------------------------------------------------------------

  /** The rest of the process callback, once the client's action has returned. */
  function ActionReturns(s: ProcessorState, k: Key, hasAction: bool, failed: bool): ProcessorState
    requires Live(s, k) && Lookup(s, k).current.Running? && !(hasAction && failed)
  {
    var s1 := Put(s, k, SetPhase(Lookup(s, k), if hasAction then Waiting else Starting));
    var s2 := if failed then Cancel(s1, k) else s1;
    if hasAction then s2 else TaskCompleted(s2, k)
  }

  /** The reply callback up to the call of the client's callback. */
  function ReplyBegins(s: ProcessorState, k: Key): ProcessorState
    requires Live(s, k) && Lookup(s, k).current.Running?
  {
    Put(s, k, SetPhase(Lookup(s, k), Replying))
  }

  // ---------------------------------------------------------------------
  // Runs
  // ---------------------------------------------------------------------

  datatype Op =
    | OpAddQueue(key: Key, flags: Flags, client: Client)
    | OpSetFinally(key: Key, present: bool)
    | OpAddTask(key: Key, task: Task)
    | OpStart(key: Key)
    | OpDispatch(source: nat)
    | OpActionReturns(key: Key, hasAction: bool, failed: bool)
    | OpReplyBegins(key: Key)
    | OpReplyEnds(key: Key)
    | OpPlainCompleted(key: Key)
    | OpCancel(key: Key)
    | OpRemove(sel: Selector, order: seq<Key>)

  /** order visits every key of the table once. */
  ghost predicate Enumerates(order: seq<Key>, table: map<Key, nat>) {
    && (forall i, j | 0 <= i < j < |order| :: order[i] != order[j])
    && (forall k :: k in order <==> k in table)
  }

  /** What the code relies on its callers, its clients and the main loop for. */
  ghost predicate Legal(s: ProcessorState, op: Op) {
    match op
    case OpAddQueue(k, _, _) => k !in s.table
    case OpSetFinally(k, _) => Live(s, k)
    case OpAddTask(k, t) => Live(s, k) && t !in s.owner
    case OpStart(k) =>
      // an AUTO_REMOVE queue that runs its last task would be removed under it
      && Live(s, k)
      && var q := Lookup(s, k);
         !(q.flags.autoRemove && q.tasks == [] && q.current.Running? && !q.deferRemove)
    case OpDispatch(sid) => sid in s.sources
    case OpActionReturns(k, hasAction, failed) =>
      // a failing action returns NULL, and an action does not cancel its own queue and then go on waiting
      && Live(s, k) && Lookup(s, k).client == ServiceTasks
      && Lookup(s, k).current.Running? && Lookup(s, k).current.phase == Starting
      && !(hasAction && failed)
      && (hasAction ==> !Lookup(s, k).cancelled)
    case OpReplyBegins(k) => Live(s, k) && Lookup(s, k).client == ServiceTasks && IsWaiting(Lookup(s, k))
    case OpReplyEnds(k) =>
      && Live(s, k) && Lookup(s, k).client == ServiceTasks
      && Lookup(s, k).current.Running? && Lookup(s, k).current.phase == Replying
    case OpPlainCompleted(k) =>
      Live(s, k) && Lookup(s, k).client == PlainTasks && Lookup(s, k).current.Running?
    case OpCancel(k) => Live(s, k)
    case OpRemove(_, order) => Enumerates(order, s.table)
  }

  ghost function Step(s: ProcessorState, op: Op): Option<ProcessorState>
    requires Legal(s, op)
  {
    match op
    case OpAddQueue(k, flags, client) => Some(AddQueue(s, k, flags, client))
    case OpSetFinally(k, present) => Some(SetFinally(s, k, present))
    case OpAddTask(k, t) => Some(AddTask(s, k, t))
    case OpStart(k) => Some(Start(s, k))
    case OpDispatch(sid) => Dispatch(s, sid)
    case OpActionReturns(k, hasAction, failed) => Some(ActionReturns(s, k, hasAction, failed))
    case OpReplyBegins(k) => Some(ReplyBegins(s, k))
    case OpReplyEnds(k) => Some(TaskCompleted(s, k))
    case OpPlainCompleted(k) => Some(TaskCompleted(s, k))
    case OpCancel(k) => Some(Cancel(s, k))
    case OpRemove(sel, order) => Some(RemoveQueues(s, sel, order))
  }
}
