/*
 * The task management application service. Each command loads a task from
 * the repository, runs one lifecycle operation on it, saves it and brings
 * the task queues in line: assign and cancel take the task out of its
 * queue, reject puts it back, create queues it. A command that fails
 * (unknown id, refused transition) saves nothing and leaves the queues
 * alone, as its transaction rolls back.
 *
 * TaskManagement states every command as a function of the system state
 * (repository and queues) and proves that the commands keep the repository
 * and the queues consistent; the service class runs the commands on the
 * aggregate and the queue manager and is proved to do what the functions say.
 */
module TaskManagement {
  import opened Wrappers
  import opened TaskStatuses
  import opened TaskTypes
  import opened Priorities
  import Locations
  import TaskContexts
  import opened TaskLifecycle
  import opened TaskQueues
  import WorkTasks

  /** The repository: stored tasks by id. */
  type Repository = map<string, TaskData>

  /** Everything a command reads or changes: the stored tasks and the queues. */
  datatype Sys = Sys(repository: Repository, store: Store)

  /** A command's answer (the saved task and the events it recorded, or the
    * error it raised) and the system state after it. */
  datatype Reply = Reply(result: Result<Step, string>, next: Sys)

  /** The fields of a create request. */
  datatype CreateTaskCommand = CreateTaskCommand(
    taskType: Option<TaskType>, warehouseId: Option<string>, zone: Option<string>,
    location: Option<Locations.Location>, priority: Option<Priority>, referenceId: Option<string>,
    estimatedDuration: Option<int>, deadline: Option<int>, context: Option<TaskContexts.TaskContext>)

  /** The queue a task belongs in. */
  function QueueKeyOf(d: TaskData): string {
    QueueKey(d.warehouseId, d.zone, d.taskType)
  }

  /** What a command does to the queues once the task is saved. */
  datatype QueueSync = NoSync | EnqueueSync | RemoveSync

  function SyncOf(op: Op): QueueSync {
    match op
    case AssignOp(_) => RemoveSync
    case RejectOp => EnqueueSync
    case CancelOp(_) => RemoveSync
    case _ => NoSync
  }

  function Synced(store: Store, d: TaskData, now: int, sync: QueueSync): Store {
    match sync
    case NoSync => store
    case EnqueueSync => Upsert(store, QueueKeyOf(d), d.taskId, PriorityScore(d, now))
    case RemoveSync => Without(store, QueueKeyOf(d), d.taskId)
  }

  /** The commands the service offers on an existing task (queueing is only
    * done by create). */
  predicate ServiceOp(op: Op) {
    !op.QueueOp?
  }

  /** assign, accept, reject, start, complete, fail and cancel: the task is
    * looked up, the operation runs on it, the new state is saved under the
    * id and the queues follow. */
  function Command(s: Sys, taskId: string, op: Op, now: int): (r: Reply)
    requires (taskId in s.repository && op.CompleteOp?) ==> StartRecorded(s.repository[taskId])
    ensures r.result.Err? ==> r.next == s
    ensures taskId !in s.repository ==> r.result == Err("Task not found: " + taskId)
    ensures taskId in s.repository ==> r.result == Apply(s.repository[taskId], op, now)
    ensures r.result.Ok? ==> r.next.repository == s.repository[taskId := r.result.value.next]
    ensures r.result.Ok? ==> r.next.store == Synced(s.store, r.result.value.next, now, SyncOf(op))
  {
    if taskId !in s.repository then Reply(Err("Task not found: " + taskId), s)
    else match Apply(s.repository[taskId], op, now)
      case Err(e) => Reply(Err(e), s)
      case Ok(step) =>
        Reply(Ok(step), Sys(s.repository[taskId := step.next], Synced(s.store, step.next, now, SyncOf(op))))
  }

  /** createTask: the task is created, queued at once, saved and enqueued;
    * a request that create refuses changes nothing. */
  function CreateCommand(s: Sys, taskId: string, c: CreateTaskCommand, now: int): (r: Reply)
    ensures (var n := NewTask(taskId, c.taskType, c.warehouseId, c.zone, c.location, c.priority,
                              c.referenceId, c.estimatedDuration, c.deadline, c.context, now);
      && (r.result.Ok? <==> n.Ok?)
      && (r.result.Err? ==> r.next == s && r.result.error == n.error)
      && (r.result.Ok? ==>
            var d := r.result.value.next;
            && d == n.value.next.(status := Queued, queuedAt := Some(now))
            && Inv(d) && r.result.value.events == n.value.events
            && r.next.repository == s.repository[taskId := d]
            && r.next.store == Upsert(s.store, QueueKeyOf(d), taskId, PriorityScore(d, now))))
  {
    match NewTask(taskId, c.taskType, c.warehouseId, c.zone, c.location, c.priority,
                  c.referenceId, c.estimatedDuration, c.deadline, c.context, now)
    case Err(e) => Reply(Err(e), s)
    case Ok(created) =>
      var queued := QueueStep(created.next, now).value;
      var d := queued.next;
      Reply(Ok(Step(d, created.events + queued.events)),
            Sys(s.repository[taskId := d], Upsert(s.store, QueueKeyOf(d), taskId, PriorityScore(d, now))))
  }

  // ------------------------------------------------------------ consistency

  /** What the service keeps true between the repository and the queues:
    * every task is stored under its own id and keeps the lifecycle
    * invariant; exactly the QUEUED tasks wait, each in its own queue; and
    * no queue is left empty. */
  ghost predicate Consistent(s: Sys) {
    Stored(s.repository) && NoEmptyQueue(s.store) && WaitingAreQueued(s) && QueuedAreWaiting(s)
  }

  ghost predicate Stored(repository: Repository) {
    forall id | id in repository :: repository[id].taskId == id && Inv(repository[id])
  }

  /** Every id in a queue is a stored QUEUED task that belongs there. */
  ghost predicate WaitingAreQueued(s: Sys) {
    forall key, id | id in Entries(s.store, key) ::
      id in s.repository && s.repository[id].status == Queued && QueueKeyOf(s.repository[id]) == key
  }

  /** Every stored QUEUED task waits in its queue. */
  ghost predicate QueuedAreWaiting(s: Sys) {
    forall id | id in s.repository && s.repository[id].status == Queued ::
      id in Entries(s.store, QueueKeyOf(s.repository[id]))
  }

  /** Every successful operation keeps the task's id and the fields its
    * queue is named after. */
  lemma ApplyKeepsQueue(d: TaskData, op: Op, now: int)
    requires op.CompleteOp? ==> StartRecorded(d)
    ensures (Apply(d, op, now).Ok? ==>
      var n := Apply(d, op, now).value.next;
      n.taskId == d.taskId && QueueKeyOf(n) == QueueKeyOf(d))
  {
  }

  /** Saving a task that keeps the invariant keeps every stored task sound. */
  lemma SaveStored(repository: Repository, next: TaskData)
    requires Stored(repository) && Inv(next)
    ensures Stored(repository[next.taskId := next])
  {
  }

  /** Saving a task that leaves the queued state, and taking it out of its
    * queue, keeps the system consistent. */
  lemma SaveDequeued(s: Sys, next: TaskData)
    requires Consistent(s) && next.taskId in s.repository && Inv(next) && next.status != Queued
    requires QueueKeyOf(next) == QueueKeyOf(s.repository[next.taskId])
    ensures Consistent(Sys(s.repository[next.taskId := next], Without(s.store, QueueKeyOf(next), next.taskId)))
  {
    SaveStored(s.repository, next);
    DequeuedWaitingAreQueued(s, next);
    DequeuedQueuedAreWaiting(s, next);
  }

  lemma DequeuedWaitingAreQueued(s: Sys, next: TaskData)
    requires WaitingAreQueued(s) && next.taskId in s.repository && next.status != Queued
    requires QueueKeyOf(next) == QueueKeyOf(s.repository[next.taskId])
    ensures WaitingAreQueued(Sys(s.repository[next.taskId := next], Without(s.store, QueueKeyOf(next), next.taskId)))
  {
    var id := next.taskId;
    var t := Sys(s.repository[id := next], Without(s.store, QueueKeyOf(next), id));
    forall k, other | other in Entries(t.store, k)
      ensures other in t.repository && t.repository[other].status == Queued
      ensures QueueKeyOf(t.repository[other]) == k
    {
      assert other in Entries(s.store, k);
      assert other != id;
    }
  }

  lemma DequeuedQueuedAreWaiting(s: Sys, next: TaskData)
    requires QueuedAreWaiting(s) && next.status != Queued
    ensures QueuedAreWaiting(Sys(s.repository[next.taskId := next], Without(s.store, QueueKeyOf(next), next.taskId)))
  {
    var id := next.taskId;
    var t := Sys(s.repository[id := next], Without(s.store, QueueKeyOf(next), id));
    forall other | other in t.repository && t.repository[other].status == Queued
      ensures other in Entries(t.store, QueueKeyOf(t.repository[other]))
    {
      assert other != id && other in Entries(s.store, QueueKeyOf(s.repository[other]));
    }
  }

  /** Saving a task that does not wait, in a state that does not wait
    * either, keeps the system consistent without touching the queues. */
  lemma SaveUnqueued(s: Sys, next: TaskData)
    requires Consistent(s) && next.taskId in s.repository && Inv(next)
    requires next.status != Queued && s.repository[next.taskId].status != Queued
    ensures Consistent(Sys(s.repository[next.taskId := next], s.store))
  {
    var id := next.taskId;
    var t := Sys(s.repository[id := next], s.store);
    assert Stored(t.repository);
    forall k, other | other in Entries(t.store, k)
      ensures other in t.repository && t.repository[other].status == Queued
      ensures QueueKeyOf(t.repository[other]) == k
    {
      assert other != id;
    }
    assert WaitingAreQueued(t);
    forall other | other in t.repository && t.repository[other].status == Queued
      ensures other in Entries(t.store, QueueKeyOf(t.repository[other]))
    {
      assert other != id;
    }
    assert QueuedAreWaiting(t);
  }

  /** Saving a task that enters the queued state, and putting it in its
    * queue, keeps the system consistent. */
  lemma SaveEnqueued(s: Sys, next: TaskData, score: real)
    requires Consistent(s) && Inv(next) && next.status == Queued
    requires next.taskId in s.repository ==> s.repository[next.taskId].status != Queued
    requires next.taskId in s.repository ==> QueueKeyOf(next) == QueueKeyOf(s.repository[next.taskId])
    ensures Consistent(Sys(s.repository[next.taskId := next], Upsert(s.store, QueueKeyOf(next), next.taskId, score)))
  {
    var id := next.taskId;
    var key := QueueKeyOf(next);
    var t := Sys(s.repository[id := next], Upsert(s.store, key, id, score));
    assert Stored(t.repository);
    forall k, other | other in Entries(t.store, k)
      ensures other in t.repository && t.repository[other].status == Queued
      ensures QueueKeyOf(t.repository[other]) == k
    {
      if other != id {
        assert other in Entries(s.store, k);
      }
    }
    assert WaitingAreQueued(t);
    forall other | other in t.repository && t.repository[other].status == Queued
      ensures other in Entries(t.store, QueueKeyOf(t.repository[other]))
    {
      if other != id {
        assert other in Entries(s.store, QueueKeyOf(s.repository[other]));
      }
    }
    assert QueuedAreWaiting(t);
  }

  /** Every command of the service keeps the repository and the queues
    * consistent, whether it succeeds or not. */
  lemma CommandKeepsConsistent(s: Sys, taskId: string, op: Op, now: int)
    requires Consistent(s) && ServiceOp(op)
    ensures Consistent(Command(s, taskId, op, now).next)
  {
    var r := Command(s, taskId, op, now);
    if r.result.Ok? {
      var d := s.repository[taskId];
      var next := r.result.value.next;
      ApplyKeepsQueue(d, op, now);
      ApplyPreservesInv(d, op, now);
      match op
      case AssignOp(_) => SaveDequeued(s, next);
      case CancelOp(_) => SaveDequeued(s, next);
      case RejectOp => SaveEnqueued(s, next, PriorityScore(next, now));
      case _ => SaveUnqueued(s, next);
    }
  }

  /** createTask keeps the system consistent when the generated id is new. */
  lemma CreateKeepsConsistent(s: Sys, taskId: string, c: CreateTaskCommand, now: int)
    requires Consistent(s) && taskId !in s.repository
    ensures Consistent(CreateCommand(s, taskId, c, now).next)
  {
    var r := CreateCommand(s, taskId, c, now);
    if r.result.Ok? {
      var d := r.result.value.next;
      SaveEnqueued(s, d, PriorityScore(d, now));
    }
  }

  /** In a consistent system a task can be assigned exactly when it waits in
    * a queue: assign succeeds on a queued task for any worker id, and the
    * task then waits nowhere. */
  lemma AssignTakesTaskOffQueue(s: Sys, taskId: string, workerId: string, now: int)
    requires Consistent(s) && taskId in s.repository && s.repository[taskId].status == Queued
    ensures (var r := Command(s, taskId, AssignOp(Some(workerId)), now);
      && r.result.Ok? && r.result.value.next.assignedTo == Some(workerId)
      && forall key :: taskId !in Entries(r.next.store, key))
  {
    var r := Command(s, taskId, AssignOp(Some(workerId)), now);
    CommandKeepsConsistent(s, taskId, AssignOp(Some(workerId)), now);
    forall key ensures taskId !in Entries(r.next.store, key) {
      assert r.next.repository[taskId].status == Assigned;
    }
  }

  /** A rejected task waits again in its queue, scored afresh. */
  lemma RejectRequeues(s: Sys, taskId: string, now: int)
    requires Consistent(s) && taskId in s.repository && s.repository[taskId].status == Assigned
    ensures (var r := Command(s, taskId, RejectOp, now);
      && r.result.Ok? && r.result.value.next.status == Queued && r.result.value.next.assignedTo.None?
      && var d := r.result.value.next;
      Entries(r.next.store, QueueKeyOf(d))[taskId] == PriorityScore(d, now))
  {
    assert HasWorker(s.repository[taskId]) || !HasWorker(s.repository[taskId]);
  }

  // ----------------------------------------------------------------- service

  class TaskManagementService {
    var repository: Repository
    const queueManager: TaskQueueManager

    constructor (repository: Repository, queueManager: TaskQueueManager)
      ensures this.repository == repository && this.queueManager == queueManager
    {
      this.repository := repository;
      this.queueManager := queueManager;
    }

    /** The system state the service works on. */
    function State(): Sys
      reads this, queueManager
    {
      Sys(repository, queueManager.store)
    }

    /** findTaskById: a fresh aggregate loaded from the repository, or the
      * not-found error. */
    method FindTaskById(taskId: string) returns (r: Result<WorkTasks.WorkTask, string>)
      ensures r.Ok? <==> taskId in repository
      ensures r.Err? ==> r.error == "Task not found: " + taskId
      ensures r.Ok? ==> fresh(r.value) && r.value.Data() == repository[taskId] && r.value.domainEvents == []
    {
      if taskId !in repository {
        return Err("Task not found: " + taskId);
      }
      var task := new WorkTasks.WorkTask.Load(repository[taskId]);
      r := Ok(task);
    }

    /** save: stores the aggregate's state under its id. */
    method Save(taskId: string, task: WorkTasks.WorkTask)
      modifies this`repository
      ensures repository == old(repository)[taskId := task.Data()]
    {
      repository := repository[taskId := task.Data()];
    }

    method CreateTask(taskId: string, c: CreateTaskCommand, now: int) returns (r: Result<WorkTasks.WorkTask, string>)
      modifies this, queueManager
      ensures Answers(r, CreateCommand(old(State()), taskId, c, now)) && fresh(Task(r))
      ensures State() == CreateCommand(old(State()), taskId, c, now).next
    {
      var created := WorkTasks.WorkTask.Create(taskId, c.taskType, c.warehouseId, c.zone, c.location,
                                               c.priority, c.referenceId, c.estimatedDuration,
                                               c.deadline, c.context, now);
      if created.Err? {
        return Err(created.error);
      }
      var task := created.value;
      var queued := task.Queue(now);
      assert queued.Pass?;
      Save(taskId, task);
      queueManager.Enqueue(task.Data(), now);
      r := Ok(task);
    }

    method AssignTask(taskId: string, workerId: Option<string>, now: int) returns (r: Result<WorkTasks.WorkTask, string>)
      modifies this, queueManager
      ensures Answers(r, Command(old(State()), taskId, AssignOp(workerId), now)) && fresh(Task(r))
      ensures State() == Command(old(State()), taskId, AssignOp(workerId), now).next
    {
      var found := FindTaskById(taskId);
      if found.Err? {
        return Err(found.error);
      }
      var task := found.value;
      var outcome := task.Assign(workerId, now);
      if outcome.Fail? {
        return Err(outcome.error);
      }
      Save(taskId, task);
      queueManager.Remove(task.Data());
      r := Ok(task);
    }

    method AcceptTask(taskId: string, now: int) returns (r: Result<WorkTasks.WorkTask, string>)
      modifies this
      ensures Answers(r, Command(old(State()), taskId, AcceptOp, now)) && fresh(Task(r))
      ensures State() == Command(old(State()), taskId, AcceptOp, now).next
    {
      var found := FindTaskById(taskId);
      if found.Err? {
        return Err(found.error);
      }
      var task := found.value;
      var outcome := task.Accept(now);
      if outcome.Fail? {
        return Err(outcome.error);
      }
      Save(taskId, task);
      r := Ok(task);
    }

    /** rejectTask: the reason is handed to the aggregate, which does not
      * record it. */
    method RejectTask(taskId: string, reason: Option<string>, now: int) returns (r: Result<WorkTasks.WorkTask, string>)
      modifies this, queueManager
      ensures Answers(r, Command(old(State()), taskId, RejectOp, now)) && fresh(Task(r))
      ensures State() == Command(old(State()), taskId, RejectOp, now).next
    {
      var found := FindTaskById(taskId);
      if found.Err? {
        return Err(found.error);
      }
      var task := found.value;
      var outcome := task.Reject(reason);
      if outcome.Fail? {
        return Err(outcome.error);
      }
      Save(taskId, task);
      queueManager.Enqueue(task.Data(), now);
      r := Ok(task);
    }

    method StartTask(taskId: string, now: int) returns (r: Result<WorkTasks.WorkTask, string>)
      modifies this
      ensures Answers(r, Command(old(State()), taskId, StartOp, now)) && fresh(Task(r))
      ensures State() == Command(old(State()), taskId, StartOp, now).next
    {
      var found := FindTaskById(taskId);
      if found.Err? {
        return Err(found.error);
      }
      var task := found.value;
      var outcome := task.Start(now);
      if outcome.Fail? {
        return Err(outcome.error);
      }
      Save(taskId, task);
      r := Ok(task);
    }

    method CompleteTask(taskId: string, now: int) returns (r: Result<WorkTasks.WorkTask, string>)
      requires taskId in repository ==> StartRecorded(repository[taskId])
      modifies this
      ensures Answers(r, Command(old(State()), taskId, CompleteOp, now)) && fresh(Task(r))
      ensures State() == Command(old(State()), taskId, CompleteOp, now).next
    {
      var found := FindTaskById(taskId);
      if found.Err? {
        return Err(found.error);
      }
      var task := found.value;
      var outcome := task.Complete(now);
      if outcome.Fail? {
        return Err(outcome.error);
      }
      Save(taskId, task);
      r := Ok(task);
    }

    method FailTask(taskId: string, reason: Option<string>, now: int) returns (r: Result<WorkTasks.WorkTask, string>)
      modifies this
      ensures Answers(r, Command(old(State()), taskId, FailOp(reason), now)) && fresh(Task(r))
      ensures State() == Command(old(State()), taskId, FailOp(reason), now).next
    {
      var found := FindTaskById(taskId);
      if found.Err? {
        return Err(found.error);
      }
      var task := found.value;
      var outcome := task.Fail(reason, now);
      if outcome.Fail? {
        return Err(outcome.error);
      }
      Save(taskId, task);
      r := Ok(task);
    }

    method CancelTask(taskId: string, reason: Option<string>, now: int) returns (r: Result<WorkTasks.WorkTask, string>)
      modifies this, queueManager
      ensures Answers(r, Command(old(State()), taskId, CancelOp(reason), now)) && fresh(Task(r))
      ensures State() == Command(old(State()), taskId, CancelOp(reason), now).next
    {
      var found := FindTaskById(taskId);
      if found.Err? {
        return Err(found.error);
      }
      var task := found.value;
      var outcome := task.Cancel(reason, now);
      if outcome.Fail? {
        return Err(outcome.error);
      }
      Save(taskId, task);
      queueManager.Remove(task.Data());
      r := Ok(task);
    }
  }

  /** The aggregate a command returned, if any. */
  function Task(r: Result<WorkTasks.WorkTask, string>): set<object> {
    if r.Ok? then {r.value} else {}
  }

  /** A command's result carries what its specification says: the saved
    * state with the events recorded on the way, or the same error. */
  predicate Answers(r: Result<WorkTasks.WorkTask, string>, reply: Reply)
    reads Task(r)
  {
    && (r.Ok? <==> reply.result.Ok?)
    && (r.Err? ==> r.error == reply.result.error)
    && (r.Ok? ==> r.value.Data() == reply.result.value.next && r.value.domainEvents == reply.result.value.events)
  }
}
