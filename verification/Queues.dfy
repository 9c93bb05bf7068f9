/**
 Tasks and queues as the program has them: objects updated in place.  Each method
 of Queue is proved to change the queue's view as a function of Scheduler does.
 */
module Queues {
  import opened Protocol
  import opened Scheduler

  /** A task atom, and the service task it is the first field of. */
  class ServiceTask {
    const id: Task
    /** The queue_id written when the task is added. */
    var queueId: Queue?
    /** Is p_action set? */
    var hasAction: bool

    constructor (id: Task)
      ensures this.id == id && queueId == null && !hasAction
    {
      this.id := id;
      queueId := null;
      hasAction := false;
    }
  }

  function Ids(ts: seq<ServiceTask>): (ids: seq<Task>)
    ensures |ids| == |ts| && forall i | 0 <= i < |ts| :: ids[i] == ts[i].id
  {
    if ts == [] then [] else Ids(ts[..|ts| - 1]) + [ts[|ts| - 1].id]
  }

  lemma IdsAppend(ts: seq<ServiceTask>, t: ServiceTask)
    ensures Ids(ts + [t]) == Ids(ts) + [t.id]
  {
    assert (ts + [t])[..|ts|] == ts;
  }

  predicate AllDifferent(ts: seq<ServiceTask>) {
    forall i, j | 0 <= i < j < |ts| :: ts[i] != ts[j]
  }

  lemma AllDifferentTail(ts: seq<ServiceTask>)
    requires ts != [] && AllDifferent(ts)
    ensures AllDifferent(ts[1..]) && ts[0] !in ts[1..]
    ensures Ids(ts[1..]) == Ids(ts)[1..]
  {
  }

  class Queue {
    /** Position among all queues ever created; stands for the address. */
    ghost const uid: nat
    const key: Key
    const flags: Flags
    const client: Client
    var tasks: seq<ServiceTask>
    var current: ServiceTask?
    var idle: nat
    var deferRemove: bool
    var cancelled: bool
    var hasFinally: bool
    /** The callbacks made so far. */
    var log: seq<Event>
    /** What the fields stand for. */
    ghost var view: QueueState

    ghost predicate FieldsMatch()
      reads this
    {
      && view.key == key && view.flags == flags && view.client == client
      && view.tasks == Ids(tasks)
      && (current == null <==> view.current.Idle?)
      && (current != null ==> view.current.task == current.id)
      && view.idle == idle && view.deferRemove == deferRemove && view.cancelled == cancelled
      && view.hasFinally == hasFinally && view.log == log
    }

    /** Each task held here is a known one and knows its queue, and only the current one can have its action set. */
    ghost predicate HoldsItsTasks(atoms: set<ServiceTask>)
      reads this, atoms
    {
      && (forall t | t in tasks :: t in atoms && t.queueId == this && !t.hasAction)
      && AllDifferent(tasks)
      && (current != null ==>
            && current in atoms && current.queueId == this && current !in tasks
            && (current.hasAction <==> IsWaiting(view)))
    }

    ghost predicate Valid(atoms: set<ServiceTask>)
      reads this, atoms
    {
      FieldsMatch() && HoldsItsTasks(atoms)
    }

    constructor (ghost uid: nat, key: Key, flags: Flags, client: Client)
      ensures this.uid == uid && this.key == key
      ensures view == NewQueue(key, flags, client) && forall atoms :: Valid(atoms)
    {
      this.uid := uid;
      this.key, this.flags, this.client := key, flags, client;
      tasks, current, idle := [], null, 0;
      deferRemove, cancelled, hasFinally := false, false, false;
      log := [];
      view := NewQueue(key, flags, client);
    }

    method SetIdle(id: nat, ghost atoms: set<ServiceTask>)
      requires Valid(atoms)
      modifies this`idle, this`view
      ensures Valid(atoms) && view == old(view).(idle := id)
    {
      idle := id;
      view := view.(idle := id);
    }

    method SetDeferRemove(defer: bool, ghost atoms: set<ServiceTask>)
      requires Valid(atoms)
      modifies this
      ensures Valid(atoms) && view == old(view).(deferRemove := defer)
    {
      deferRemove := defer;
      view := view.(deferRemove := defer);
    }

    method SetFinally(present: bool, ghost atoms: set<ServiceTask>)
      requires Valid(atoms)
      modifies this
      ensures Valid(atoms) && view == old(view).(hasFinally := present)
    {
      hasFinally := present;
      view := view.(hasFinally := present);
    }

    method NoteCancel(ghost atoms: set<ServiceTask>)
      requires Valid(atoms)
      modifies this
      ensures Valid(atoms) && view == old(view).(log := old(view).log + [CancelCall])
    {
      log := log + [CancelCall];
      view := view.(log := log);
    }

    method NoteCancelCallback(ghost atoms: set<ServiceTask>)
      requires Valid(atoms) && current != null
      modifies this`log, this`view
      ensures Valid(atoms) && view == old(view).(log := old(view).log + [CancelCb(old(view).current.task)])
      ensures current == old(current)
    {
      log := log + [CancelCb(current.id)];
      view := view.(log := log);
    }

    method Enqueue(t: ServiceTask, ghost atoms: set<ServiceTask>)
      requires Valid(atoms) && t in atoms && t.queueId == this && !t.hasAction && t !in tasks && t != current
      modifies this
      ensures Valid(atoms) && view == Scheduler.Enqueue(old(view), t.id)
    {
      IdsAppend(tasks, t);
      assert AllDifferent(tasks + [t]);
      hide AllDifferent, Ids;
      tasks := tasks + [t];
      log := log + [Added(t.id)];
      view := Scheduler.Enqueue(view, t.id);
    }

    /** Dispatch: the head of the pending list becomes current. */
    method TakeHead(ghost atoms: set<ServiceTask>)
      requires Valid(atoms) && tasks != []
      modifies this
      ensures Valid(atoms) && view == Scheduler.TakeHead(old(view))
    {
      AllDifferentTail(tasks);
      hide AllDifferent, Ids;
      cancelled := false;
      idle := 0;
      current := tasks[0];
      tasks := tasks[1..];
      log := log + [Started(current.id)];
      view := Scheduler.TakeHead(view);
    }

    /** The current task's p_action is stored or cleared. */
    method SetAction(present: bool, ghost phase: Phase, ghost atoms: set<ServiceTask>)
      requires Valid(atoms) && current != null && (present <==> phase == Waiting)
      modifies this, current
      ensures Valid(atoms) && view == SetPhase(old(view), phase)
      ensures current == old(current) && current.queueId == old(current.queueId) && current.hasAction == present
    {
      current.hasAction := present;
      view := SetPhase(view, phase);
    }

    /** The end of the current task: completion is reported, then the task is deleted. */
    method EndCurrent(ghost atoms: set<ServiceTask>)
      requires Valid(atoms)
      modifies this
      ensures Valid(atoms) && view == Scheduler.EndCurrent(old(view))
    {
      if current != null {
        log := log + [Completed(current.id)];
        log := log + [DeleteCb(current.id)];
        current := null;
      } else {
        log := log + [Spurious];
      }
      view := Scheduler.EndCurrent(view);
    }

    /** g_ptr_array_foreach with prv_task_free_cb. */
    method DeleteTasks()
      modifies `log
      ensures log == old(log) + DeleteLog(Ids(tasks))
    {
      ghost var ids := Ids(tasks);
      var i := 0;
      while i < |tasks|
        invariant i <= |tasks|
        invariant log == old(log) + DeleteLog(ids[..i])
      {
        assert ids[..i + 1][..i] == ids[..i];
        log := log + [DeleteCb(tasks[i].id)];
        i := i + 1;
      }
      assert ids[..i] == ids;
    }

    /** g_ptr_array_foreach with prv_task_cancel_and_free_cb. */
    method CancelAndDeleteTasks()
      requires forall t | t in tasks :: !t.hasAction
      modifies `log
      ensures log == old(log) + FlushLog(Ids(tasks))
    {
      ghost var ids := Ids(tasks);
      var i := 0;
      while i < |tasks|
        invariant i <= |tasks|
        invariant log == old(log) + FlushLog(ids[..i])
      {
        assert ids[..i + 1][..i] == ids[..i];
        // the cancel callback of a pending task finds no action and does nothing more
        assert !tasks[i].hasAction;
        log := log + [CancelCb(tasks[i].id), DeleteCb(tasks[i].id)];
        i := i + 1;
      }
      assert ids[..i] == ids;
    }

    /** Mark the queue cancelled and drop its pending tasks. */
    method DropPending(ghost atoms: set<ServiceTask>)
      requires Valid(atoms)
      modifies this`tasks, this`cancelled, this`log, this`view
      ensures Valid(atoms)
      ensures var v := old(view);
              view == v.(cancelled := true, tasks := [], log := v.log + [CancelCall] + FlushLog(v.tasks))
    {
      cancelled := true;
      log := log + [CancelCall];
      CancelAndDeleteTasks();
      tasks := [];
      view := view.(cancelled := true, tasks := [], log := log);
    }

    /** prv_cancel_only on a queue not cancelled yet; returns the idle source the main loop is to forget, if any. */
    method Cut(ghost atoms: set<ServiceTask>) returns (source: nat)
      requires Valid(atoms)
      modifies this
      ensures Valid(atoms) && view == Scheduler.Cut(old(view)) && source == old(view.idle)
      ensures current == old(current)
    {
      DropPending(atoms);
      source := idle;
      SetIdle(0, atoms);
      if current != null {
        NoteCancelCallback(atoms);
      }
    }

    /** prv_free_cb. */
    method Free(ghost atoms: set<ServiceTask>)
      requires Valid(atoms)
      modifies this
      ensures Valid(atoms) && view == FreeQueue(old(view))
    {
      DeleteTasks();
      tasks := [];
      if hasFinally {
        log := log + [Finally(cancelled)];
      }
      view := FreeQueue(view);
    }

    /** Changes elsewhere leave a queue as it is. */
    twostate lemma Undisturbed(atoms: set<ServiceTask>)
      requires old(Valid(atoms)) && unchanged(this)
      requires forall t | t in atoms && old(t.queueId) == this :: unchanged(t)
      ensures Valid(atoms)
    {
    }

    lemma MoreAtoms(atoms: set<ServiceTask>, more: set<ServiceTask>)
      requires Valid(atoms) && atoms <= more
      ensures Valid(more)
    {
    }

    /** What the fields read by the processor say about the abstract queue. */
    lemma Reads(atoms: set<ServiceTask>)
      requires Valid(atoms)
      ensures view.key == key && view.flags == flags && view.idle == idle
      ensures view.cancelled == cancelled && view.deferRemove == deferRemove
      ensures (tasks == [] <==> view.tasks == []) && (current == null <==> view.current.Idle?)
      ensures current != null ==>
                current in atoms && current.queueId == this && (current.hasAction <==> IsWaiting(view))
    {
    }
  }
}
