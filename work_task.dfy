/*
 * The WorkTask aggregate. TaskLifecycle states every lifecycle operation as a
 * function of the persisted task state (a TaskData snapshot) that yields the
 * next state and the domain events it records; WorkTasks holds the mutable
 * aggregate, whose methods update its fields in place and are proved to do
 * exactly what those functions say.
 */
module TaskLifecycle {
  import opened Wrappers
  import opened JavaText
  import opened TaskStatuses
  import opened TaskTypes
  import opened Priorities
  import Locations
  import TaskContexts

  /** The persisted fields of a task (the outbox is transient and kept apart). */
  datatype TaskData = TaskData(
    taskId: string,
    taskType: TaskType,
    status: TaskStatus,
    priority: Priority,
    assignedTo: Option<string>,
    warehouseId: string,
    zone: Option<string>,
    taskLocation: Option<Locations.Location>,
    createdAt: int,
    queuedAt: Option<int>,
    assignedAt: Option<int>,
    acceptedAt: Option<int>,
    startedAt: Option<int>,
    completedAt: Option<int>,
    estimatedDuration: Option<int>,
    actualDuration: Option<int>,
    referenceId: string,
    deadline: Option<int>,
    context: TaskContexts.TaskContext,
    failureReason: Option<string>,
    cancellationReason: Option<string>)

  /** The four events the aggregate records in its outbox. */
  datatype DomainEvent =
    | TaskCreated(taskId: string, taskType: TaskType, priority: Priority, warehouseId: string,
                  zone: Option<string>, referenceId: string)
    | TaskAssigned(taskId: string, taskType: TaskType, assignedTo: string, warehouseId: string,
                   zone: Option<string>)
    | TaskCompleted(taskId: string, taskType: TaskType, completedBy: string, warehouseId: string,
                    referenceId: string, actualDuration: int, completedOnTime: bool)
    | TaskFailed(taskId: string, taskType: TaskType, failedBy: Option<string>, warehouseId: string,
                 referenceId: string, failureReason: string)

  /** A successful operation: the next state and the events it appends. */
  datatype Step = Step(next: TaskData, events: seq<DomainEvent>)

  // ---------------------------------------------------------------- guards

  /** ensureStatus: passes exactly when the task is in the expected status. */
  function StatusCheck(status: TaskStatus, expected: TaskStatus): (r: Outcome<string>)
    ensures r.Pass? <==> status == expected
    ensures r.Fail? ==> r.error == "Task must be in " + TaskStatuses.Name(expected)
                                   + " status but is " + TaskStatuses.Name(status)
  {
    if status == expected then Pass
    else Fail("Task must be in " + TaskStatuses.Name(expected) + " status but is " + TaskStatuses.Name(status))
  }

  /** A worker id is recorded and is not blank. */
  predicate HasWorker(d: TaskData) {
    d.assignedTo.Some? && !IsBlank(d.assignedTo.value)
  }

  /** ensureAssigned: passes exactly when a non-blank worker id is recorded. */
  function AssigneeCheck(assignedTo: Option<string>): (r: Outcome<string>)
    ensures r.Pass? <==> assignedTo.Some? && !IsBlank(assignedTo.value)
    ensures r.Fail? ==> r.error == "Task must be assigned to a worker"
  {
    if assignedTo.None? || IsBlank(assignedTo.value) then Fail("Task must be assigned to a worker")
    else Pass
  }

  // --------------------------------------------------------------- queries

  /** isOverdue: a deadline is set, the task is still open and now is past it. */
  predicate IsOverdue(d: TaskData, now: int) {
    d.deadline.Some? && !IsTerminal(d.status) && now > d.deadline.value
  }

  /** isCompletedOnTime: completed, with a deadline, no later than it. */
  predicate CompletedOnTime(d: TaskData) {
    d.status == Completed && d.deadline.Some? && d.completedAt.Some? && d.completedAt.value <= d.deadline.value
  }

  /** Duration.between(createdAt, now).toMinutes(). */
  function AgeMinutes(d: TaskData, now: int): int {
    TruncDiv(now - d.createdAt, 60)
  }

  /** getPriorityScore: lower is more urgent. */
  function PriorityScore(d: TaskData, now: int): real {
    (Value(d.priority) * 1000) as real - AgeMinutes(d, now) as real
      - (if IsOverdue(d, now) then 10000.0 else 0.0)
      + TaskContexts.ComplexityScore(d.context) * 100.0
  }

  /** generateTaskId: "TASK-" and the first eight characters of a random UUID,
    * upper-cased. */
  function GenerateTaskId(uuid: string): (id: string)
    requires |uuid| >= 8
    ensures |id| == 13 && StartsWith(id, "TASK-")
    ensures forall i | 5 <= i < 13 :: id[i] == UpperChar(uuid[i - 5])
  {
    "TASK-" + ToUpper(uuid[..8])
  }

  // -------------------------------------------------------------- creation

  function CreatedEvent(d: TaskData): DomainEvent {
    TaskCreated(d.taskId, d.taskType, d.priority, d.warehouseId, d.zone, d.referenceId)
  }

  /** create: type, warehouse, reference and context are required (checked in
    * that order), the context must validate; the task starts PENDING with
    * priority NORMAL by default and records one creation event. */
  function NewTask(taskId: string, taskType: Option<TaskType>, warehouseId: Option<string>,
                   zone: Option<string>, location: Option<Locations.Location>,
                   priority: Option<Priority>, referenceId: Option<string>,
                   estimatedDuration: Option<int>, deadline: Option<int>,
                   context: Option<TaskContexts.TaskContext>, now: int): (r: Result<Step, string>)
    ensures r.Ok? <==> (taskType.Some? && warehouseId.Some? && referenceId.Some? && context.Some?
                        && TaskContexts.Validate(context.value).Pass?)
    ensures taskType.None? ==> r == Err("Task type cannot be null")
    ensures taskType.Some? && warehouseId.None? ==> r == Err("Warehouse ID cannot be null")
    ensures (taskType.Some? && warehouseId.Some? && referenceId.None?
             ==> r == Err("Reference ID cannot be null"))
    ensures (taskType.Some? && warehouseId.Some? && referenceId.Some? && context.None?
             ==> r == Err("Task context cannot be null"))
    ensures (context.Some? && TaskContexts.Validate(context.value).Fail? && r.Err?
             && taskType.Some? && warehouseId.Some? && referenceId.Some?
             ==> r.error == TaskContexts.Validate(context.value).error)
    ensures r.Ok? ==> (var d := r.value.next;
      && d.taskId == taskId && d.taskType == taskType.value && d.warehouseId == warehouseId.value
      && d.referenceId == referenceId.value && d.status == Pending && d.assignedTo.None?
      && d.priority == priority.UnwrapOr(Normal) && d.createdAt == now
      && d.zone == zone && d.taskLocation == location && d.deadline == deadline
      && d.estimatedDuration == estimatedDuration && d.context == context.value
      && r.value.events == [CreatedEvent(d)]
      && Inv(d))
  {
    if taskType.None? then Err("Task type cannot be null")
    else if warehouseId.None? then Err("Warehouse ID cannot be null")
    else if referenceId.None? then Err("Reference ID cannot be null")
    else if context.None? then Err("Task context cannot be null")
    else match TaskContexts.Validate(context.value)
      case Fail(e) => Err(e)
      case Pass =>
        var d := TaskData(taskId, taskType.value, Pending, priority.UnwrapOr(Normal), None,
                          warehouseId.value, zone, location, now, None, None, None, None, None,
                          estimatedDuration, None, referenceId.value, deadline, context.value, None, None);
        Ok(Step(d, [CreatedEvent(d)]))
  }

  // ------------------------------------------------------------- lifecycle

  /** queue: PENDING to QUEUED, stamping queuedAt. */
  function QueueStep(d: TaskData, now: int): (r: Result<Step, string>)
    ensures r.Ok? <==> d.status == Pending
    ensures r.Err? ==> Fail(r.error) == StatusCheck(d.status, Pending)
    ensures r.Ok? ==> r.value == Step(d.(status := Queued, queuedAt := Some(now)), [])
  {
    match StatusCheck(d.status, Pending)
    case Fail(e) => Err(e)
    case Pass => Ok(Step(d.(status := Queued, queuedAt := Some(now)), []))
  }

  /** assign: a null worker id is refused first; from QUEUED the worker is
    * recorded (even a blank id), the task becomes ASSIGNED and one
    * assignment event is recorded. */
  function AssignStep(d: TaskData, workerId: Option<string>, now: int): (r: Result<Step, string>)
    ensures r.Ok? <==> workerId.Some? && d.status == Queued
    ensures workerId.None? ==> r == Err("Worker ID cannot be null")
    ensures workerId.Some? && r.Err? ==> Fail(r.error) == StatusCheck(d.status, Queued)
    ensures r.Ok? ==> r.value.next == d.(assignedTo := workerId, status := Assigned, assignedAt := Some(now))
    ensures r.Ok? ==>
      (r.value.events == [TaskAssigned(d.taskId, d.taskType, workerId.value, d.warehouseId, d.zone)])
  {
    if workerId.None? then Err("Worker ID cannot be null")
    else match StatusCheck(d.status, Queued)
      case Fail(e) => Err(e)
      case Pass =>
        Ok(Step(d.(assignedTo := workerId, status := Assigned, assignedAt := Some(now)),
                [TaskAssigned(d.taskId, d.taskType, workerId.value, d.warehouseId, d.zone)]))
  }

  /** accept: from ASSIGNED with a non-blank worker to ACCEPTED. */
  function AcceptStep(d: TaskData, now: int): (r: Result<Step, string>)
    ensures r.Ok? <==> d.status == Assigned && HasWorker(d)
    ensures d.status != Assigned ==> Fail(r.error) == StatusCheck(d.status, Assigned)
    ensures d.status == Assigned && !HasWorker(d) ==> r == Err("Task must be assigned to a worker")
    ensures r.Ok? ==> r.value == Step(d.(status := Accepted, acceptedAt := Some(now)), [])
  {
    match StatusCheck(d.status, Assigned)
    case Fail(e) => Err(e)
    case Pass =>
      match AssigneeCheck(d.assignedTo)
      case Fail(e) => Err(e)
      case Pass => Ok(Step(d.(status := Accepted, acceptedAt := Some(now)), []))
  }

  /** reject: from ASSIGNED back to QUEUED, forgetting the worker and the
    * assignment time; no event. */
  function RejectStep(d: TaskData): (r: Result<Step, string>)
    ensures r.Ok? <==> d.status == Assigned
    ensures r.Err? ==> Fail(r.error) == StatusCheck(d.status, Assigned)
    ensures r.Ok? ==> r.value == Step(d.(assignedTo := None, assignedAt := None, status := Queued), [])
  {
    match StatusCheck(d.status, Assigned)
    case Fail(e) => Err(e)
    case Pass => Ok(Step(d.(assignedTo := None, assignedAt := None, status := Queued), []))
  }

  /** start: from ACCEPTED with a non-blank worker to IN_PROGRESS. */
  function StartStep(d: TaskData, now: int): (r: Result<Step, string>)
    ensures r.Ok? <==> d.status == Accepted && HasWorker(d)
    ensures d.status != Accepted ==> Fail(r.error) == StatusCheck(d.status, Accepted)
    ensures d.status == Accepted && !HasWorker(d) ==> r == Err("Task must be assigned to a worker")
    ensures r.Ok? ==> r.value == Step(d.(status := InProgress, startedAt := Some(now)), [])
  {
    match StatusCheck(d.status, Accepted)
    case Fail(e) => Err(e)
    case Pass =>
      match AssigneeCheck(d.assignedTo)
      case Fail(e) => Err(e)
      case Pass => Ok(Step(d.(status := InProgress, startedAt := Some(now)), []))
  }

  /** The start time is known whenever complete gets past its guards. */
  predicate StartRecorded(d: TaskData) {
    d.status == InProgress && HasWorker(d) ==> d.startedAt.Some?
  }

  /** complete: from IN_PROGRESS with a non-blank worker to COMPLETED; the
    * actual duration is the time since start, and one completion event
    * carries it with the on-time flag. The worker stays recorded. */
  function CompleteStep(d: TaskData, now: int): (r: Result<Step, string>)
    requires StartRecorded(d)
    ensures r.Ok? <==> d.status == InProgress && HasWorker(d)
    ensures d.status != InProgress ==> Fail(r.error) == StatusCheck(d.status, InProgress)
    ensures d.status == InProgress && !HasWorker(d) ==> r == Err("Task must be assigned to a worker")
    ensures r.Ok? ==>
      (r.value.next == d.(status := Completed, completedAt := Some(now), actualDuration := Some(now - d.startedAt.value)))
    ensures r.Ok? ==> |r.value.events| == 1 && r.value.events[0].TaskCompleted?
    ensures r.Ok? ==>
      (r.value.events[0] == TaskCompleted(d.taskId, d.taskType, d.assignedTo.value, d.warehouseId, d.referenceId, now - d.startedAt.value, CompletedOnTime(r.value.next)))
    ensures r.Ok? ==>
      ((r.value.events[0].completedOnTime <==> d.deadline.Some? && now <= d.deadline.value))
  {
    match StatusCheck(d.status, InProgress)
    case Fail(e) => Err(e)
    case Pass =>
      match AssigneeCheck(d.assignedTo)
      case Fail(e) => Err(e)
      case Pass =>
        var next := d.(status := Completed, completedAt := Some(now),
                       actualDuration := Some(now - d.startedAt.value));
        Ok(Step(next, [TaskCompleted(d.taskId, d.taskType, d.assignedTo.value, d.warehouseId,
                                     d.referenceId, now - d.startedAt.value, CompletedOnTime(next))]))
  }

  /** fail: a null reason is refused first; from IN_PROGRESS to FAILED with
    * the reason and the end time, the duration when a start time is known,
    * and one failure event. */
  function FailStep(d: TaskData, reason: Option<string>, now: int): (r: Result<Step, string>)
    ensures r.Ok? <==> reason.Some? && d.status == InProgress
    ensures reason.None? ==> r == Err("Failure reason cannot be null")
    ensures reason.Some? && r.Err? ==> Fail(r.error) == StatusCheck(d.status, InProgress)
    ensures r.Ok? ==>
      (r.value.next == d.(status := Failed, failureReason := reason, completedAt := Some(now), actualDuration := if d.startedAt.Some? then Some(now - d.startedAt.value) else d.actualDuration))
    ensures r.Ok? ==>
      (r.value.events == [TaskFailed(d.taskId, d.taskType, d.assignedTo, d.warehouseId, d.referenceId, reason.value)])
  {
    if reason.None? then Err("Failure reason cannot be null")
    else match StatusCheck(d.status, InProgress)
      case Fail(e) => Err(e)
      case Pass =>
        var duration := if d.startedAt.Some? then Some(now - d.startedAt.value) else d.actualDuration;
        Ok(Step(d.(status := Failed, failureReason := reason, completedAt := Some(now),
                   actualDuration := duration),
                [TaskFailed(d.taskId, d.taskType, d.assignedTo, d.warehouseId, d.referenceId, reason.value)]))
  }

  /** cancel: a null reason is refused first; any open status goes to
    * CANCELLED with the reason and the end time; no event. */
  function CancelStep(d: TaskData, reason: Option<string>, now: int): (r: Result<Step, string>)
    ensures r.Ok? <==> reason.Some? && !IsTerminal(d.status)
    ensures reason.None? ==> r == Err("Cancellation reason cannot be null")
    ensures (reason.Some? && IsTerminal(d.status)
             ==> r == Err("Cannot cancel task in terminal status: " + TaskStatuses.Name(d.status)))
    ensures r.Ok? ==>
      (r.value == Step(d.(status := Cancelled, cancellationReason := reason, completedAt := Some(now)), []))
  {
    if reason.None? then Err("Cancellation reason cannot be null")
    else if IsTerminal(d.status) then Err("Cannot cancel task in terminal status: " + TaskStatuses.Name(d.status))
    else Ok(Step(d.(status := Cancelled, cancellationReason := reason, completedAt := Some(now)), []))
  }

  // ------------------------------------------------------------- invariant

  /** What every history of lifecycle operations keeps true: an open task
    * waiting in the queue has no worker, a task past acceptance has a
    * non-blank one, and end states carry their times and reasons. */
  predicate Inv(d: TaskData) {
    && (d.status == Pending || d.status == Queued ==> d.assignedTo.None?)
    && (d.status == Assigned ==> d.assignedTo.Some?)
    && (d.status in {Accepted, InProgress, Completed, Failed} ==> HasWorker(d))
    && (d.status in {InProgress, Completed, Failed} ==> d.startedAt.Some?)
    && (d.status in {Completed, Failed}
        ==> d.completedAt.Some? && d.actualDuration == Some(d.completedAt.value - d.startedAt.value))
    && (d.status == Failed ==> d.failureReason.Some?)
    && (d.status == Cancelled ==> d.cancellationReason.Some? && d.completedAt.Some?)
  }

  /** One lifecycle call, as a value. */
  datatype Op =
    | QueueOp | AssignOp(workerId: Option<string>) | AcceptOp | RejectOp | StartOp | CompleteOp
    | FailOp(reason: Option<string>) | CancelOp(reason: Option<string>)

  function Apply(d: TaskData, op: Op, now: int): Result<Step, string>
    requires op.CompleteOp? ==> StartRecorded(d)
  {
    match op
    case QueueOp => QueueStep(d, now)
    case AssignOp(w) => AssignStep(d, w, now)
    case AcceptOp => AcceptStep(d, now)
    case RejectOp => RejectStep(d)
    case StartOp => StartStep(d, now)
    case CompleteOp => CompleteStep(d, now)
    case FailOp(reason) => FailStep(d, reason, now)
    case CancelOp(reason) => CancelStep(d, reason, now)
  }

  /** Every successful operation keeps the invariant. */
  lemma ApplyPreservesInv(d: TaskData, op: Op, now: int)
    requires Inv(d)
    ensures Apply(d, op, now).Ok? ==> Inv(Apply(d, op, now).value.next)
  {
  }

  /** Every successful operation moves along an edge of the status table. */
  lemma ApplyFollowsEdge(d: TaskData, op: Op, now: int)
    requires StartRecorded(d)
    ensures Apply(d, op, now).Ok? ==> CanTransitionTo(d.status, Apply(d, op, now).value.next.status)
  {
  }

  /** Terminal tasks refuse every operation. */
  lemma TerminalRefusesAll(d: TaskData, op: Op, now: int)
    requires IsTerminal(d.status)
    ensures Apply(d, op, now).Err?
  {
  }

  /** A history of calls, each at its own time; a refused call leaves the
    * task as it was. The invariant holds after any history. */
  function Run(d: TaskData, ops: seq<(Op, int)>): (r: TaskData)
    requires Inv(d)
    ensures Inv(r)
    decreases |ops|
  {
    if |ops| == 0 then d
    else
      var s := Apply(d, ops[0].0, ops[0].1);
      ApplyPreservesInv(d, ops[0].0, ops[0].1);
      Run(if s.Ok? then s.value.next else d, ops[1..])
  }

  /** Once terminal, a task never changes again. */
  lemma {:induction false} TerminalIsFinal(d: TaskData, ops: seq<(Op, int)>)
    requires Inv(d) && IsTerminal(d.status)
    ensures Run(d, ops) == d
    decreases |ops|
  {
    if |ops| > 0 {
      TerminalRefusesAll(d, ops[0].0, ops[0].1);
      TerminalIsFinal(d, ops[1..]);
    }
  }

  /** Every reachable task keeps its identity and its immutable inputs. */
  lemma {:induction false} RunKeepsIdentity(d: TaskData, ops: seq<(Op, int)>)
    requires Inv(d)
    ensures var r := Run(d, ops);
      && r.taskId == d.taskId && r.taskType == d.taskType && r.priority == d.priority
      && r.warehouseId == d.warehouseId && r.referenceId == d.referenceId
      && r.context == d.context && r.deadline == d.deadline && r.createdAt == d.createdAt
    decreases |ops|
  {
    if |ops| > 0 {
      var s := Apply(d, ops[0].0, ops[0].1);
      ApplyPreservesInv(d, ops[0].0, ops[0].1);
      RunKeepsIdentity(if s.Ok? then s.value.next else d, ops[1..]);
    }
  }

  /** assign accepts a blank worker id, but accept then refuses it. */
  lemma BlankWorkerCannotAccept(d: TaskData, now: int, later: int)
    requires d.status == Queued
    ensures AssignStep(d, Some(""), now).Ok?
    ensures AcceptStep(AssignStep(d, Some(""), now).value.next, later) == Err("Task must be assigned to a worker")
  {
  }

  // ---------------------------------------------------- derived queries

  /** A terminal task is never overdue; completion on time needs a deadline. */
  lemma QueriesOnEndStates(d: TaskData, now: int)
    ensures IsTerminal(d.status) ==> !IsOverdue(d, now)
    ensures d.deadline.None? ==> !IsOverdue(d, now) && !CompletedOnTime(d)
    ensures CompletedOnTime(d) ==> IsTerminal(d.status)
  {
  }

  /** Waiting never makes a task less urgent: the score only falls as time
    * passes, since the age grows and the overdue penalty can only switch on. */
  lemma PriorityScoreNonIncreasing(d: TaskData, t1: int, t2: int)
    requires t1 <= t2
    ensures PriorityScore(d, t2) <= PriorityScore(d, t1)
  {
    TruncDivMonotone(t1 - d.createdAt, t2 - d.createdAt, 60);
  }

  /** Of two tasks that differ only in priority, the more urgent priority
    * never scores higher; an overdue task scores 10000 below the same task
    * without a deadline. */
  lemma PriorityScoreOrdering(d: TaskData, p: Priority, q: Priority, now: int)
    requires Value(p) <= Value(q)
    ensures PriorityScore(d.(priority := p), now) <= PriorityScore(d.(priority := q), now)
    ensures IsOverdue(d, now) ==> PriorityScore(d, now) == PriorityScore(d.(deadline := None), now) - 10000.0
  {
  }
}

module WorkTasks {
  import opened Wrappers
  import opened TaskStatuses
  import opened TaskTypes
  import opened Priorities
  import Locations
  import TaskContexts
  import opened TaskLifecycle

  /** A lifecycle call's effect: it passes exactly when the step function
    * succeeds; then the state is the step's next state and the outbox has
    * the step's events appended; otherwise nothing changes. */
  predicate Performed(s: Result<Step, string>, r: Outcome<string>,
                      before: TaskData, eventsBefore: seq<DomainEvent>,
                      after: TaskData, eventsAfter: seq<DomainEvent>)
  {
    && (r.Pass? <==> s.Ok?)
    && (s.Ok? ==> after == s.value.next && eventsAfter == eventsBefore + s.value.events)
    && (s.Err? ==> r == Fail(s.error) && after == before && eventsAfter == eventsBefore)
  }

  class WorkTask {
    var taskId: string
    var taskType: TaskType
    var status: TaskStatus
    var priority: Priority
    var assignedTo: Option<string>
    var warehouseId: string
    var zone: Option<string>
    var taskLocation: Option<Locations.Location>
    var createdAt: int
    var queuedAt: Option<int>
    var assignedAt: Option<int>
    var acceptedAt: Option<int>
    var startedAt: Option<int>
    var completedAt: Option<int>
    var estimatedDuration: Option<int>
    var actualDuration: Option<int>
    var referenceId: string
    var deadline: Option<int>
    var context: TaskContexts.TaskContext
    var failureReason: Option<string>
    var cancellationReason: Option<string>
    var domainEvents: seq<DomainEvent>

    /** The persisted state. */
    function Data(): TaskData
      reads this
    {
      TaskData(taskId, taskType, status, priority, assignedTo, warehouseId, zone, taskLocation,
               createdAt, queuedAt, assignedAt, acceptedAt, startedAt, completedAt,
               estimatedDuration, actualDuration, referenceId, deadline, context,
               failureReason, cancellationReason)
    }

    /** A task as read back from the repository: its outbox is transient, so
      * it starts empty. */
    constructor Load(d: TaskData)
      ensures Data() == d && domainEvents == []
    {
      taskId, taskType, status, priority := d.taskId, d.taskType, d.status, d.priority;
      assignedTo, warehouseId, zone, taskLocation := d.assignedTo, d.warehouseId, d.zone, d.taskLocation;
      createdAt, queuedAt, assignedAt, acceptedAt := d.createdAt, d.queuedAt, d.assignedAt, d.acceptedAt;
      startedAt, completedAt := d.startedAt, d.completedAt;
      estimatedDuration, actualDuration := d.estimatedDuration, d.actualDuration;
      referenceId, deadline, context := d.referenceId, d.deadline, d.context;
      failureReason, cancellationReason := d.failureReason, d.cancellationReason;
      domainEvents := [];
    }

    /** create, with the generated id and the current time passed in. */
    static method Create(taskId: string, taskType: Option<TaskType>, warehouseId: Option<string>,
                         zone: Option<string>, location: Option<Locations.Location>,
                         priority: Option<Priority>, referenceId: Option<string>,
                         estimatedDuration: Option<int>, deadline: Option<int>,
                         context: Option<TaskContexts.TaskContext>, now: int)
      returns (r: Result<WorkTask, string>)
      ensures var s := NewTask(taskId, taskType, warehouseId, zone, location, priority, referenceId,
                               estimatedDuration, deadline, context, now);
        && (r.Ok? <==> s.Ok?)
        && (r.Err? ==> r.error == s.error)
        && (r.Ok? ==> fresh(r.value) && r.value.Data() == s.value.next && r.value.domainEvents == s.value.events)
    {
      if taskType.None? { return Err("Task type cannot be null"); }
      if warehouseId.None? { return Err("Warehouse ID cannot be null"); }
      if referenceId.None? { return Err("Reference ID cannot be null"); }
      if context.None? { return Err("Task context cannot be null"); }
      var valid := TaskContexts.Validate(context.value);
      if valid.Fail? { return Err(valid.error); }
      var task := new WorkTask.Load(
        TaskData(taskId, taskType.value, Pending, priority.UnwrapOr(Normal), None, warehouseId.value,
                 zone, location, now, None, None, None, None, None, estimatedDuration, None,
                 referenceId.value, deadline, context.value, None, None));
      task.RegisterEvent(TaskCreated(task.taskId, task.taskType, task.priority, task.warehouseId,
                                     task.zone, task.referenceId));
      r := Ok(task);
    }

    /** registerEvent: appends to the outbox. */
    method RegisterEvent(e: DomainEvent)
      modifies this`domainEvents
      ensures domainEvents == old(domainEvents) + [e] && Data() == old(Data())
    {
      domainEvents := domainEvents + [e];
    }

    method Queue(now: int) returns (r: Outcome<string>)
      modifies this
      ensures Performed(QueueStep(old(Data()), now), r, old(Data()), old(domainEvents), Data(), domainEvents)
    {
      r := StatusCheck(status, Pending);
      if r.Fail? { return; }
      status := Queued;
      queuedAt := Some(now);
    }

    method Assign(workerId: Option<string>, now: int) returns (r: Outcome<string>)
      modifies this
      ensures Performed(AssignStep(old(Data()), workerId, now), r, old(Data()), old(domainEvents),
                        Data(), domainEvents)
    {
      if workerId.None? {
        r := Outcome.Fail("Worker ID cannot be null");
        return;
      }
      r := StatusCheck(status, Queued);
      if r.Fail? { return; }
      assignedTo := workerId;
      status := Assigned;
      assignedAt := Some(now);
      RegisterEvent(TaskAssigned(taskId, taskType, workerId.value, warehouseId, zone));
    }

    method Accept(now: int) returns (r: Outcome<string>)
      modifies this
      ensures Performed(AcceptStep(old(Data()), now), r, old(Data()), old(domainEvents), Data(), domainEvents)
    {
      r := StatusCheck(status, Assigned);
      if r.Fail? { return; }
      r := AssigneeCheck(assignedTo);
      if r.Fail? { return; }
      status := Accepted;
      acceptedAt := Some(now);
    }

    /** reject: the reason is not recorded. */
    method Reject(reason: Option<string>) returns (r: Outcome<string>)
      modifies this
      ensures Performed(RejectStep(old(Data())), r, old(Data()), old(domainEvents), Data(), domainEvents)
    {
      r := StatusCheck(status, Assigned);
      if r.Fail? { return; }
      assignedTo := None;
      assignedAt := None;
      status := Queued;
    }

    method Start(now: int) returns (r: Outcome<string>)
      modifies this
      ensures Performed(StartStep(old(Data()), now), r, old(Data()), old(domainEvents), Data(), domainEvents)
    {
      r := StatusCheck(status, Accepted);
      if r.Fail? { return; }
      r := AssigneeCheck(assignedTo);
      if r.Fail? { return; }
      status := InProgress;
      startedAt := Some(now);
    }

    method Complete(now: int) returns (r: Outcome<string>)
      requires StartRecorded(Data())
      modifies this
      ensures Performed(CompleteStep(old(Data()), now), r, old(Data()), old(domainEvents), Data(), domainEvents)
    {
      r := StatusCheck(status, InProgress);
      if r.Fail? { return; }
      r := AssigneeCheck(assignedTo);
      if r.Fail? { return; }
      status := Completed;
      completedAt := Some(now);
      actualDuration := Some(now - startedAt.value);
      RegisterEvent(TaskCompleted(taskId, taskType, assignedTo.value, warehouseId, referenceId,
                                  actualDuration.value, CompletedOnTime(Data())));
    }

    method Fail(reason: Option<string>, now: int) returns (r: Outcome<string>)
      modifies this
      ensures Performed(FailStep(old(Data()), reason, now), r, old(Data()), old(domainEvents), Data(), domainEvents)
    {
      if reason.None? {
        r := Outcome.Fail("Failure reason cannot be null");
        return;
      }
      r := StatusCheck(status, InProgress);
      if r.Fail? { return; }
      ghost var before := Data();
      status := Failed;
      failureReason := reason;
      completedAt := Some(now);
      if startedAt.Some? {
        actualDuration := Some(now - startedAt.value);
      }
      assert Data() == FailStep(before, reason, now).value.next;
      RegisterEvent(TaskFailed(taskId, taskType, assignedTo, warehouseId, referenceId, reason.value));
    }

    method Cancel(reason: Option<string>, now: int) returns (r: Outcome<string>)
      modifies this
      ensures Performed(CancelStep(old(Data()), reason, now), r, old(Data()), old(domainEvents), Data(), domainEvents)
    {
      if reason.None? {
        r := Outcome.Fail("Cancellation reason cannot be null");
        return;
      }
      if IsTerminal(status) {
        r := Outcome.Fail("Cannot cancel task in terminal status: " + TaskStatuses.Name(status));
        return;
      }
      status := Cancelled;
      cancellationReason := reason;
      completedAt := Some(now);
      r := Pass;
    }

    /** getDomainEvents: a copy of the outbox. */
    method GetDomainEvents() returns (events: seq<DomainEvent>)
      ensures events == domainEvents
    {
      events := domainEvents;
    }

    /** clearDomainEvents: empties the outbox and touches nothing else. */
    method ClearDomainEvents()
      modifies this`domainEvents
      ensures domainEvents == [] && Data() == old(Data())
    {
      domainEvents := [];
    }
  }
}
