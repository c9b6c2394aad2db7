# Warehouse task execution: a verified model

This project models the core of a warehouse execution service, written in Dafny. The service creates work tasks (pick, pack, putaway, replenish, count, move, ship), keeps them in per-zone priority queues, hands them to warehouse workers and drives each task through its lifecycle. The model covers:

- **Task lifecycle** (`work_task.dfy`). A `WorkTask` class whose methods change the task in place and record domain events. Each method is specified by a pure step function over the task's persisted fields (module `TaskLifecycle`). The status machine `PENDING -> QUEUED -> ASSIGNED -> ACCEPTED -> IN_PROGRESS -> COMPLETED | FAILED`, with `CANCELLED` from any non-terminal state, is in `task_status.dfy`.
- **Value objects**:
  - task types (`task_type.dfy`);
  - the five task priorities (`priority.dfy`);
  - warehouse locations with their `A-01-02-03` code, distance and zone tests (`location.dfy`);
  - the seven type-specific task contexts, with their validation, metadata and complexity score (`task_context.dfy`).
- **Priority calculator** (`priority_calculator.dfy`). The weighted score: SLA 35 %, carrier cut-off 30 %, customer tier 20 %, zone 10 %, age 5 %. On top of it come the task-type modifier, the express boost, the floor at a base priority, the dynamic context boosts and the adjustment recommendation with its reason text.
- **Redis task queues** (`task_queue.dfy`). A `TaskQueueManager` class over a map from queue key to a sorted set (task id to score). It supports enqueue, dequeue of the lowest score across a worker's eligible queues, peek, remove, clear, depth and status reports.
- **Task management service** (`task_service.dfy`). A `TaskManagementService` class holding the task repository and the queue manager. Every command is specified by a function over the whole system state (tasks plus queues). The lemmas prove that every command keeps the repository and the queues consistent: every stored QUEUED task waits in its queue, and nothing else does.
- **Assignment engine** (`assignment.dfy`). Worker scoring, the next task for a worker, best-worker assignment, batch assignment and task recommendations. The descending sort it relies on is in `ranking.dfy`.
- **Wave intake** (`wave_intake.dfy`). The two listeners that turn a released wave into pick tasks, one per order:
  - the Kafka CloudEvent consumer;
  - the Spring event handler.

Time is a whole number of seconds, passed in as `now`. New task ids are passed in by the caller; the source makes them from random UUIDs. Java's integer division, `(int)` casts, 32-bit overflow and `Math.round` are written out in `java_text.dfy`.

## Model

| member | source | states |
|---|---|---|
| TaskStatuses.ValidTransitions | src/main/java/com/paklog/wes/task/domain/valueobject/TaskStatus.java:80-84 | the set of successor states is exactly the states `canTransitionTo` allows |
| TaskStatuses.EnsureCanTransitionTo | src/main/java/com/paklog/wes/task/domain/valueobject/TaskStatus.java:89-95 | passes iff the transition is allowed; otherwise fails with "Cannot transition from X to Y" |
| TaskStatuses.TerminalIffNoSuccessor | src/main/java/com/paklog/wes/task/domain/valueobject/TaskStatus.java:52-68 | a status is terminal iff it has no successor |
| TaskStatuses.CancelAlwaysAllowed | src/main/java/com/paklog/wes/task/domain/valueobject/TaskStatus.java:52-61 | CANCELLED is reachable exactly from the non-terminal states; nothing returns to PENDING; no self-loops |
| TaskStatuses.ActiveIsNotTerminal | src/main/java/com/paklog/wes/task/domain/valueobject/TaskStatus.java:66-75 | the active states are ASSIGNED, ACCEPTED and IN_PROGRESS, none of which is terminal |
| TaskStatuses.TransitionTable | src/main/java/com/paklog/wes/task/domain/valueobject/TaskStatus.java:52-61 | the full successor table, state by state |
| TaskStatuses.CanTransitionTo | src/main/java/com/paklog/wes/task/domain/valueobject/TaskStatus.java:52-61 | the lifecycle edges; `TransitionTable` lists them per status, `CancelAlwaysAllowed` shows every open status may be cancelled, no edge returns to PENDING and none loops |
| TaskStatuses.IsTerminal | src/main/java/com/paklog/wes/task/domain/valueobject/TaskStatus.java:66-68 | COMPLETED, CANCELLED and FAILED; `TerminalIffNoSuccessor` shows these are exactly the statuses without an outgoing edge |
| TaskStatuses.IsActive | src/main/java/com/paklog/wes/task/domain/valueobject/TaskStatus.java:73-75 | ASSIGNED, ACCEPTED and IN_PROGRESS; `ActiveIsNotTerminal` shows an active status is never terminal |
| TaskTypes.ValueOf | src/main/java/com/paklog/wes/task/domain/valueobject/TaskType.java:6-40 | `valueOf` returns the constant with exactly that name, or nothing |
| TaskTypes.NameRoundTrip | src/main/java/com/paklog/wes/task/domain/valueobject/TaskType.java:6-40 | `valueOf(name())` is the identity |
| TaskTypes.Classification | src/main/java/com/paklog/wes/task/domain/valueobject/TaskType.java:45-54 | location-bound work is PICK, PUTAWAY, REPLENISH and COUNT; order-related work is PICK, PACK and SHIP; only PICK is both |
| TaskTypes.ComplexityMultiplier | src/main/java/com/paklog/wes/task/domain/valueobject/TaskType.java:59-70 | every multiplier lies in [0.5, 1.5] |
| TaskTypes.MultiplierOrdering | src/main/java/com/paklog/wes/task/domain/valueobject/TaskType.java:59-70 | PICK is neutral; MOVE has the smallest multiplier and REPLENISH the largest |
| TaskTypes.RequiresLocation | src/main/java/com/paklog/wes/task/domain/valueobject/TaskType.java:45-47 | PICK, PUTAWAY, REPLENISH and COUNT, as `Classification` states |
| TaskTypes.IsOrderRelated | src/main/java/com/paklog/wes/task/domain/valueobject/TaskType.java:52-54 | PICK, PACK and SHIP, as `Classification` states; PICK is the only type in both classes |
| Priorities.Value | src/main/java/com/paklog/task/execution/domain/valueobject/Priority.java:8-25 | every priority value lies in 1..4 |
| Priorities.ValueOf | src/main/java/com/paklog/task/execution/domain/valueobject/Priority.java:8-12 | `valueOf` returns the constant with exactly that name, or nothing |
| Priorities.FromString | src/main/java/com/paklog/task/execution/domain/valueobject/Priority.java:37-46 | null or blank gives NORMAL; any other result is the constant whose name is the upper-cased input |
| Priorities.ExpeditedIffValueAtMostTwo | src/main/java/com/paklog/task/execution/domain/valueobject/Priority.java:30-32 | expedited iff value ≤ 2; CRITICAL and URGENT share value 1 |
| Priorities.FromStringOfName | src/main/java/com/paklog/task/execution/domain/valueobject/Priority.java:37-46 | `fromString` inverts `name()`, in upper or lower case |
| Priorities.FromStringCaseInsensitive | src/main/java/com/paklog/task/execution/domain/valueobject/Priority.java:37-46 | for non-blank input, `fromString` is `valueOf` of the upper-cased input, with NORMAL where that throws |
| Priorities.IsExpedited | src/main/java/com/paklog/task/execution/domain/valueobject/Priority.java:30-32 | CRITICAL, URGENT and HIGH; `ExpeditedIffValueAtMostTwo` shows this is exactly value ≤ 2 |
| Locations.NewLocation | src/main/java/com/paklog/wes/task/domain/valueobject/Location.java:16-25 | the constructor succeeds iff aisle, bay and level are non-null, and keeps all four fields |
| Locations.FromCode | src/main/java/com/paklog/wes/task/domain/valueobject/Location.java:30-44 | fails with "Invalid location code format" iff the code has fewer than three `-` parts; otherwise parts 0..2 and the optional part 3 become the fields |
| Locations.LocationCode | src/main/java/com/paklog/wes/task/domain/valueobject/Location.java:49-60 | the code is the three or four segments joined by `-` |
| Locations.FromCodeOfLocationCode | src/main/java/com/paklog/wes/task/domain/valueobject/Location.java:30-60 | parsing a location's own code gives the location back, when no segment is empty or holds `-` |
| Locations.LocationCodeOfFromCode | src/main/java/com/paklog/wes/task/domain/valueobject/Location.java:30-60 | a well-formed code survives parsing and printing unchanged |
| Locations.FromCodeIgnoresExtraParts | src/main/java/com/paklog/wes/task/domain/valueobject/Location.java:30-44 | parts after the fourth are dropped, so the round trip loses them |
| Locations.CompareAlphanumericAntisymmetric | src/main/java/com/paklog/wes/task/domain/valueobject/Location.java:79-91 | the aisle comparison is antisymmetric and reflexive |
| Locations.DistanceFrom | src/main/java/com/paklog/wes/task/domain/valueobject/Location.java:65-77 | distance to null is `Double.MAX_VALUE`; every distance is non-negative |
| Locations.DistanceIsSymmetric | src/main/java/com/paklog/wes/task/domain/valueobject/Location.java:65-91 | distance is zero to itself and symmetric |
| Locations.SameZoneDistance | src/main/java/com/paklog/wes/task/domain/valueobject/Location.java:65-98 | within one aisle the distance is 10·|bay difference| + |level difference| |
| Locations.AisleLettersIgnoredWhenDigitsPresent | src/main/java/com/paklog/wes/task/domain/valueobject/Location.java:79-98 | aisles "A1" and "B1" are 0 apart for distance, yet not in the same zone |
| Locations.FromCodeExample | src/main/java/com/paklog/wes/task/domain/valueobject/Location.java:30-44 | "A-01-01-01" and "B-03-02-01" parse to the expected fields |
| Locations.DistanceExample | src/main/java/com/paklog/wes/task/domain/valueobject/Location.java:65-91 | A-01-01-01 to B-03-02-01 is 121 |
| Locations.LocationEquals | src/main/java/com/paklog/wes/task/domain/valueobject/Location.java:117-125 | `equals` holds iff all four fields are equal, i.e. it is structural equality; equal locations have the same code and are in the same zone |
| Locations.Distance | src/main/java/com/paklog/wes/task/domain/valueobject/Location.java:65-77 | the distance between two present locations; `DistanceIsSymmetric` proves it zero to itself and symmetric, `SameZoneDistance` drops the aisle term within a zone |
| Locations.InSameZone | src/main/java/com/paklog/wes/task/domain/valueobject/Location.java:96-98 | equal aisles; `SameZoneDistance` shows only bay and level then contribute to the distance |
| TaskContexts.ValidateAll | src/main/java/com/paklog/wes/task/domain/entity/PickTaskContext.java:49 | a `forEach(validate)` passes iff every element passes; otherwise it reports the first failure |
| TaskContexts.EmptyPickContext | src/main/java/com/paklog/wes/task/domain/entity/PickTaskContext.java:25-27 | the no-argument pick context has no instructions, quantity 0 and is single-order |
| TaskContexts.NewPickContext | src/main/java/com/paklog/wes/task/domain/entity/PickTaskContext.java:29-36 | succeeds iff wave, order and strategy are non-null; the total is the sum of the instruction quantities |
| TaskContexts.WithInstructions | src/main/java/com/paklog/wes/task/domain/entity/PickTaskContext.java:187-190 | replacing the instructions recomputes the total and changes nothing else |
| TaskContexts.ValidatePickInstruction | src/main/java/com/paklog/wes/task/domain/entity/PickTaskContext.java:101-111 | an instruction passes iff its SKU is non-blank, its quantity is positive and its location is set |
| TaskContexts.ValidatePick | src/main/java/com/paklog/wes/task/domain/entity/PickTaskContext.java:39-50 | passes iff wave and order are non-blank, there is at least one instruction and every instruction passes; a failure reports the first failing check: "Wave ID is required for pick tasks", "Order ID is required for pick tasks", "Pick instructions cannot be empty", or the first failing instruction's message |
| TaskContexts.PickMetadata | src/main/java/com/paklog/wes/task/domain/entity/PickTaskContext.java:53-62 | exactly the six pick keys, with the instruction count and the total quantity |
| TaskContexts.PickComplexityAtLeastOne | src/main/java/com/paklog/wes/task/domain/entity/PickTaskContext.java:65-81 | pick complexity is at least 1.0 |
| TaskContexts.PickComplexityMonotone | src/main/java/com/paklog/wes/task/domain/entity/PickTaskContext.java:65-81 | more instructions or more units never lower pick complexity |
| TaskContexts.EmptyPackContext | src/main/java/com/paklog/wes/task/domain/entity/PackTaskContext.java:26-28 | the no-argument pack context has no items and no order |
| TaskContexts.NewPackContext | src/main/java/com/paklog/wes/task/domain/entity/PackTaskContext.java:30-36 | succeeds iff order and strategy are non-null; the item count is the list length |
| TaskContexts.WithItems | src/main/java/com/paklog/wes/task/domain/entity/PackTaskContext.java:187-190 | replacing the items recomputes the count and changes nothing else |
| TaskContexts.ValidatePackItem | src/main/java/com/paklog/wes/task/domain/entity/PackTaskContext.java:97-104 | an item passes iff its SKU is non-blank and its quantity is positive |
| TaskContexts.ValidatePack | src/main/java/com/paklog/wes/task/domain/entity/PackTaskContext.java:39-47 | passes iff the order is non-blank, there is at least one item and every item passes |
| TaskContexts.PackMetadata | src/main/java/com/paklog/wes/task/domain/entity/PackTaskContext.java:50-60 | exactly the seven pack keys, with the item count |
| TaskContexts.PackComplexityAboveBase | src/main/java/com/paklog/wes/task/domain/entity/PackTaskContext.java:63-78 | pack complexity is at least 1.0, and above it once there is an item |
| TaskContexts.ValidatePutaway | src/main/java/com/paklog/wes/task/domain/entity/PutawayTaskContext.java:34-50 | passes iff receipt, LPN and SKU are non-blank, the quantity is positive and the destination is set |
| TaskContexts.PutawayMetadata | src/main/java/com/paklog/wes/task/domain/entity/PutawayTaskContext.java:53-62 | exactly the six putaway keys; a location is reported by its code |
| TaskContexts.ValidateReplenish | src/main/java/com/paklog/wes/task/domain/entity/ReplenishTaskContext.java:24-34 | passes iff the SKU is non-blank, the quantity is positive and both locations are set |
| TaskContexts.ReplenishMetadata | src/main/java/com/paklog/wes/task/domain/entity/ReplenishTaskContext.java:37-45 | exactly the five replenish keys |
| TaskContexts.ValidateCount | src/main/java/com/paklog/wes/task/domain/entity/CountTaskContext.java:24-34 | passes iff the count id is non-blank and the type and location are set |
| TaskContexts.CountMetadata | src/main/java/com/paklog/wes/task/domain/entity/CountTaskContext.java:37-45 | exactly the five count keys |
| TaskContexts.ValidateMove | src/main/java/com/paklog/wes/task/domain/entity/MoveTaskContext.java:23-30 | passes iff the LPN is non-blank and both locations are set |
| TaskContexts.MoveMetadata | src/main/java/com/paklog/wes/task/domain/entity/MoveTaskContext.java:33-40 | exactly the four move keys |
| TaskContexts.ValidateShip | src/main/java/com/paklog/wes/task/domain/entity/ShipTaskContext.java:25-32 | passes iff shipment and carrier are non-blank |
| TaskContexts.ShipMetadata | src/main/java/com/paklog/wes/task/domain/entity/ShipTaskContext.java:35-44 | exactly the six ship keys |
| TaskContexts.OneVariantPerType | src/main/java/com/paklog/wes/task/domain/entity/TaskContext.java:12-22 | each task type has exactly one context variant |
| TaskContexts.EmptyContextIsInvalid | src/main/java/com/paklog/wes/task/domain/entity/TaskContext.java:24-28 | every no-argument context fails validation |
| TaskContexts.Validate | src/main/java/com/paklog/wes/task/domain/entity/TaskContext.java:28 | dispatch to the variant's validation; `EmptyContextIsInvalid` shows a fresh context of every type fails |
| TaskContexts.GetMetadata | src/main/java/com/paklog/wes/task/domain/entity/TaskContext.java:33 | dispatch to the variant's metadata; `MetadataHasNoUrgencyKeys` shows no variant supplies the calculator's urgency keys |
| TaskContexts.ComplexityScore | src/main/java/com/paklog/wes/task/domain/entity/TaskContext.java:38-40 | 1.0 unless overridden by pick and pack; `DefaultComplexity` shows it is never below 1.0 for them |
| TaskContexts.DefaultComplexity | src/main/java/com/paklog/wes/task/domain/entity/TaskContext.java:35-40 | contexts other than pick and pack use the default 1.0; every complexity is at least 1.0 |
| TaskContexts.MetadataHasNoUrgencyKeys | src/main/java/com/paklog/wes/task/domain/entity/TaskContext.java:30-33 | no context's metadata carries `express`, `isExpress`, `customerTier` or `carrierCutoffTime` |
| TaskContexts.PickPackKeysAvoidUrgency | src/main/java/com/paklog/wes/task/domain/entity/PickTaskContext.java:53-62 | the pick and pack key sets avoid the calculator's urgency keys |
| TaskContexts.PutawayReplenishKeysAvoidUrgency | src/main/java/com/paklog/wes/task/domain/entity/PutawayTaskContext.java:53-62 | the putaway and replenish key sets avoid them too |
| TaskContexts.CountMoveShipKeysAvoidUrgency | src/main/java/com/paklog/wes/task/domain/entity/CountTaskContext.java:37-45 | the count, move and ship key sets avoid them too |
| TaskContexts.PutawayZeroQuantityFails | src/main/java/com/paklog/wes/task/domain/entity/PutawayTaskContext.java:44-46 | a putaway of quantity 0 fails with "Quantity must be positive" |
| TaskContexts.PackWithOnlyOrderIdFails | src/main/java/com/paklog/wes/task/domain/entity/PackTaskContext.java:43-45 | a pack context without items fails with "Pack items cannot be empty" |
| TaskContexts.ConstructorTotals | src/main/java/com/paklog/wes/task/domain/entity/PickTaskContext.java:29-36 | the constructors' totals are the quantity sum (pick) and the list length (pack) |
| TaskLifecycle.StatusCheck | src/main/java/com/paklog/wes/task/domain/aggregate/WorkTask.java:291-297 | passes iff the status is the expected one; otherwise the "Task must be in X status but is Y" message |
| TaskLifecycle.AssigneeCheck | src/main/java/com/paklog/wes/task/domain/aggregate/WorkTask.java:299-303 | passes iff the assignee is set and non-blank |
| TaskLifecycle.GenerateTaskId | src/main/java/com/paklog/wes/task/domain/aggregate/WorkTask.java:319-321 | the id is "TASK-" followed by the UUID's first 8 characters, upper-cased |
| TaskLifecycle.NewTask | src/main/java/com/paklog/wes/task/domain/aggregate/WorkTask.java:68-107 | creation succeeds iff type, warehouse, reference and context are given and the context validates, with the first failing check's message otherwise; the new task is PENDING, priority NORMAL by default, created at `now`, with one created event |
| TaskLifecycle.QueueStep | src/main/java/com/paklog/wes/task/domain/aggregate/WorkTask.java:112-116 | succeeds iff PENDING; the task becomes QUEUED at `now` |
| TaskLifecycle.AssignStep | src/main/java/com/paklog/wes/task/domain/aggregate/WorkTask.java:121-137 | succeeds iff a worker is given and the task is QUEUED; null worker, then status, are the error cases; sets assignee, time and the assigned event |
| TaskLifecycle.AcceptStep | src/main/java/com/paklog/wes/task/domain/aggregate/WorkTask.java:142-148 | succeeds iff ASSIGNED with a non-blank assignee |
| TaskLifecycle.RejectStep | src/main/java/com/paklog/wes/task/domain/aggregate/WorkTask.java:153-159 | succeeds iff ASSIGNED; clears the assignee and returns the task to QUEUED |
| TaskLifecycle.StartStep | src/main/java/com/paklog/wes/task/domain/aggregate/WorkTask.java:164-170 | succeeds iff ACCEPTED with an assignee; sets the start time and the started event |
| TaskLifecycle.CompleteStep | src/main/java/com/paklog/wes/task/domain/aggregate/WorkTask.java:175-193 | succeeds iff IN_PROGRESS with an assignee; records completion time, actual duration and the completed event |
| TaskLifecycle.FailStep | src/main/java/com/paklog/wes/task/domain/aggregate/WorkTask.java:198-219 | succeeds iff a reason is given and the task is IN_PROGRESS; records the reason and the failed event |
| TaskLifecycle.CancelStep | src/main/java/com/paklog/wes/task/domain/aggregate/WorkTask.java:224-234 | succeeds iff a reason is given and the task is not terminal |
| TaskLifecycle.ApplyPreservesInv | src/main/java/com/paklog/wes/task/domain/aggregate/WorkTask.java:112-234 | every successful operation keeps the task invariant (assignee present exactly in the worker-held states, timestamps set as the state requires) |
| TaskLifecycle.ApplyFollowsEdge | src/main/java/com/paklog/wes/task/domain/aggregate/WorkTask.java:112-234 | every successful operation follows an edge of the status machine |
| TaskLifecycle.TerminalRefusesAll | src/main/java/com/paklog/wes/task/domain/aggregate/WorkTask.java:112-234 | every operation on a COMPLETED, FAILED or CANCELLED task fails |
| TaskLifecycle.Run | src/main/java/com/paklog/wes/task/domain/aggregate/WorkTask.java:112-234 | any sequence of operations keeps the invariant |
| TaskLifecycle.TerminalIsFinal | src/main/java/com/paklog/wes/task/domain/aggregate/WorkTask.java:112-234 | once terminal, no sequence of operations changes the task |
| TaskLifecycle.RunKeepsIdentity | src/main/java/com/paklog/wes/task/domain/aggregate/WorkTask.java:112-234 | no operation changes the id, type, priority, warehouse, zone, reference or creation time |
| TaskLifecycle.BlankWorkerCannotAccept | src/main/java/com/paklog/wes/task/domain/aggregate/WorkTask.java:121-148 | a blank worker id is accepted by assign but the task can then never be accepted |
| TaskLifecycle.QueriesOnEndStates | src/main/java/com/paklog/wes/task/domain/aggregate/WorkTask.java:239-288 | terminal or deadline-less tasks are never overdue; on-time completion implies a terminal task with a deadline |
| TaskLifecycle.PriorityScoreNonIncreasing | src/main/java/com/paklog/wes/task/domain/aggregate/WorkTask.java:250-268 | a task's queue score never rises as time passes |
| TaskLifecycle.IsOverdue | src/main/java/com/paklog/wes/task/domain/aggregate/WorkTask.java:239-244 | a deadline is set, the task is open and now is past it; `QueriesOnEndStates` shows a terminal or deadline-free task is never overdue |
| TaskLifecycle.CompletedOnTime | src/main/java/com/paklog/wes/task/domain/aggregate/WorkTask.java:283-288 | completed with a deadline, no later than it; `QueriesOnEndStates` shows it implies a terminal status and a deadline |
| TaskLifecycle.PriorityScore | src/main/java/com/paklog/wes/task/domain/aggregate/WorkTask.java:250-268 | the queue score, lower is more urgent; `PriorityScoreNonIncreasing` shows waiting never raises it, `PriorityScoreOrdering` orders it by priority and by the overdue penalty |
| TaskLifecycle.PriorityScoreOrdering | src/main/java/com/paklog/wes/task/domain/aggregate/WorkTask.java:250-268 | a more urgent priority never gives a higher (later) queue score; an overdue task is 10000 ahead |
| WorkTasks.WorkTask.Load | src/main/java/com/paklog/wes/task/domain/aggregate/WorkTask.java:36-63 | the loaded aggregate holds exactly the stored fields and no events |
| WorkTasks.WorkTask.Create | src/main/java/com/paklog/wes/task/domain/aggregate/WorkTask.java:68-107 | a fresh aggregate exactly as `NewTask` says, or its error |
| WorkTasks.WorkTask.RegisterEvent | src/main/java/com/paklog/wes/task/domain/aggregate/WorkTask.java:306-308 | appends one event and changes no field |
| WorkTasks.WorkTask.Queue | src/main/java/com/paklog/wes/task/domain/aggregate/WorkTask.java:112-116 | the new fields and events are `QueueStep` of the old ones; on error nothing changes |
| WorkTasks.WorkTask.Assign | src/main/java/com/paklog/wes/task/domain/aggregate/WorkTask.java:121-137 | likewise, by `AssignStep` |
| WorkTasks.WorkTask.Accept | src/main/java/com/paklog/wes/task/domain/aggregate/WorkTask.java:142-148 | likewise, by `AcceptStep` |
| WorkTasks.WorkTask.Reject | src/main/java/com/paklog/wes/task/domain/aggregate/WorkTask.java:153-159 | likewise, by `RejectStep` |
| WorkTasks.WorkTask.Start | src/main/java/com/paklog/wes/task/domain/aggregate/WorkTask.java:164-170 | likewise, by `StartStep` |
| WorkTasks.WorkTask.Complete | src/main/java/com/paklog/wes/task/domain/aggregate/WorkTask.java:175-193 | likewise, by `CompleteStep` |
| WorkTasks.WorkTask.Fail | src/main/java/com/paklog/wes/task/domain/aggregate/WorkTask.java:198-219 | likewise, by `FailStep` |
| WorkTasks.WorkTask.Cancel | src/main/java/com/paklog/wes/task/domain/aggregate/WorkTask.java:224-234 | likewise, by `CancelStep` |
| WorkTasks.WorkTask.GetDomainEvents | src/main/java/com/paklog/wes/task/domain/aggregate/WorkTask.java:310-312 | returns the recorded events |
| WorkTasks.WorkTask.ClearDomainEvents | src/main/java/com/paklog/wes/task/domain/aggregate/WorkTask.java:314-316 | empties the events and changes no field |
| PriorityCalculation.CarrierCutoff | src/main/java/com/paklog/wes/task/domain/service/TaskPriorityCalculator.java:361-374 | no `carrierCutoffTime` key gives none; a date value is used as is |
| PriorityCalculation.CustomerTier | src/main/java/com/paklog/wes/task/domain/service/TaskPriorityCalculator.java:376-387 | a non-blank tier string, else PLATINUM for expedited priorities, else none |
| PriorityCalculation.IsExpress | src/main/java/com/paklog/wes/task/domain/service/TaskPriorityCalculator.java:342-359 | `ExpressFlagPrecedence` proves the flag order: "express" decides, "isExpress" only when "express" is null, a string through a case-insensitive "true", otherwise an expedited priority |
| PriorityCalculation.ExpressFlagPrecedence | src/main/java/com/paklog/wes/task/domain/service/TaskPriorityCalculator.java:342-359 | a Boolean "express" flag decides; "isExpress" counts only when "express" is null; "TRUE" is express; with no flag, or a non-Boolean non-String one, express iff the priority is expedited |
| PriorityCalculation.SlaTier | src/main/java/com/paklog/wes/task/domain/service/TaskPriorityCalculator.java:103-129 | the hours-to-deadline band score lies in 20..100 |
| PriorityCalculation.SlaScore | src/main/java/com/paklog/wes/task/domain/service/TaskPriorityCalculator.java:103-129 | 20..100, and 50 without a deadline |
| PriorityCalculation.CutoffTier | src/main/java/com/paklog/wes/task/domain/service/TaskPriorityCalculator.java:131-155 | the minutes-to-cut-off band score lies in 20..100 |
| PriorityCalculation.CutoffScore | src/main/java/com/paklog/wes/task/domain/service/TaskPriorityCalculator.java:131-155 | 20..100, and 30 without a cut-off |
| PriorityCalculation.TierMultiplier | src/main/java/com/paklog/wes/task/domain/service/TaskPriorityCalculator.java:36-42 | the tier multiplier lies in 0.8..2.0 |
| PriorityCalculation.CustomerScore | src/main/java/com/paklog/wes/task/domain/service/TaskPriorityCalculator.java:157-175 | 40..100, and 50 without a tier |
| PriorityCalculation.ZoneScore | src/main/java/com/paklog/wes/task/domain/service/TaskPriorityCalculator.java:177-193 | 30..90, and 50 without a zone |
| PriorityCalculation.AgeTier | src/main/java/com/paklog/wes/task/domain/service/TaskPriorityCalculator.java:195-214 | the age band score lies in 20..100 |
| PriorityCalculation.AgeScore | src/main/java/com/paklog/wes/task/domain/service/TaskPriorityCalculator.java:195-214 | 0..100, and 0 exactly when there is no creation time |
| PriorityCalculation.WeightedSum | src/main/java/com/paklog/wes/task/domain/service/TaskPriorityCalculator.java:54-69 | the sum of the truncated weighted sub-scores lies in 24..99 |
| PriorityCalculation.TypeModifier | src/main/java/com/paklog/wes/task/domain/service/TaskPriorityCalculator.java:216-230 | PICK (or no type) leaves the score unchanged; no modifier raises a non-negative score by more than a fifth |
| PriorityCalculation.TypeModifierMonotone | src/main/java/com/paklog/wes/task/domain/service/TaskPriorityCalculator.java:216-230 | the modifier is monotone in the score |
| PriorityCalculation.ExpressBoost | src/main/java/com/paklog/wes/task/domain/service/TaskPriorityCalculator.java:73-75 | non-express scores are unchanged; express adds at most half |
| PriorityCalculation.CalculatePriority | src/main/java/com/paklog/wes/task/domain/service/TaskPriorityCalculator.java:49-92 | the priority is clamped to 0..1000 |
| PriorityCalculation.PriorityRange | src/main/java/com/paklog/wes/task/domain/service/TaskPriorityCalculator.java:49-92 | the priority is always five times the unscaled score and lies in 70..885, so the clamp never acts |
| PriorityCalculation.PriorityToScore | src/main/java/com/paklog/wes/task/domain/service/TaskPriorityCalculator.java:389-401 | 300..900, and 450 for null |
| PriorityCalculation.CalculatePriorityAtLeast | src/main/java/com/paklog/wes/task/domain/service/TaskPriorityCalculator.java:97-101 | the larger of the computed priority and the base priority's score |
| PriorityCalculation.SurgeFactor | src/main/java/com/paklog/wes/task/domain/service/TaskPriorityCalculator.java:253-256 | a non-negative surge level scales by 1.0..1.15 |
| PriorityCalculation.Boosts | src/main/java/com/paklog/wes/task/domain/service/TaskPriorityCalculator.java:238-256 | the five boosts in source order; `BoostsNotBelow` and `UnreleasedWaveHalves` state their effect |
| PriorityCalculation.ApplySurge | src/main/java/com/paklog/wes/task/domain/service/TaskPriorityCalculator.java:252-255 | scales by the surge factor when a level is present; `SurgeNotBelow` shows a non-negative level never lowers the score, `SurgeCapsAtThree` that levels above three act as three |
| PriorityCalculation.SurgeLevel | src/main/java/com/paklog/wes/task/domain/service/TaskPriorityCalculator.java:252-253 | an integral Number is read as its value, a fractional one as is, and any other value (or none) gives no surge |
| PriorityCalculation.ContextBoost | src/main/java/com/paklog/wes/task/domain/service/TaskPriorityCalculator.java:238-256 | the boosts a metadata map asks for: Boolean TRUE for zone, batch and exception, Boolean FALSE for the wave, and the surge level; `DynamicNotBelowComputed` and `FractionalSurgeCounts` state its effect |
| PriorityCalculation.SurgeCapsAtThree | src/main/java/com/paklog/wes/task/domain/service/TaskPriorityCalculator.java:254 | a surge level above three boosts exactly like level three |
| PriorityCalculation.FractionalSurgeCounts | src/main/java/com/paklog/wes/task/domain/service/TaskPriorityCalculator.java:252-255 | a fractional level counts with its fraction: level 0.5 lifts 200 to 205 |
| PriorityCalculation.DynamicPriority | src/main/java/com/paklog/wes/task/domain/service/TaskPriorityCalculator.java:235-259 | capped at 1000; without a context it is the plain priority; `DynamicNotBelowComputed` shows the boosts never lower it while the wave is released and the surge level is non-negative, integral or fractional |
| PriorityCalculation.DynamicNotBelowComputed | src/main/java/com/paklog/wes/task/domain/service/TaskPriorityCalculator.java:235-259 | unless the wave is explicitly unreleased (or the surge level is negative), the context never lowers the priority |
| PriorityCalculation.BoostsNotBelow | src/main/java/com/paklog/wes/task/domain/service/TaskPriorityCalculator.java:238-250 | the zone, batch, exception and surge boosts never lower the score |
| PriorityCalculation.SurgeNotBelow | src/main/java/com/paklog/wes/task/domain/service/TaskPriorityCalculator.java:253-256 | the surge scaling never lowers a non-negative score |
| PriorityCalculation.UnreleasedWaveHalves | src/main/java/com/paklog/wes/task/domain/service/TaskPriorityCalculator.java:245-247 | an unreleased wave alone halves the score (truncated) |
| PriorityCalculation.SystemBaseline | src/main/java/com/paklog/wes/task/domain/service/TaskPriorityCalculator.java:331-340 | 200..900, and 500 without metrics |
| PriorityCalculation.BaselineFormula | src/main/java/com/paklog/wes/task/domain/service/TaskPriorityCalculator.java:331-340 | the baseline formula, with its caps, for non-negative metrics |
| PriorityCalculation.ClauseText | src/main/java/com/paklog/wes/task/domain/service/TaskPriorityCalculator.java:288-329 | every reason sentence ends in ". " after a visible character |
| PriorityCalculation.AllClausesListed | src/main/java/com/paklog/wes/task/domain/service/TaskPriorityCalculator.java:288-329 | the clause list holds every reason sentence |
| PriorityCalculation.ReasonClauses | src/main/java/com/paklog/wes/task/domain/service/TaskPriorityCalculator.java:288-329 | a sentence appears iff its condition holds |
| PriorityCalculation.ReasonBodyShape | src/main/java/com/paklog/wes/task/domain/service/TaskPriorityCalculator.java:288-329 | the reason starts with its fixed prefix and ends in one space after a visible character |
| PriorityCalculation.AdjustmentReason | src/main/java/com/paklog/wes/task/domain/service/TaskPriorityCalculator.java:288-329 | trimming removes exactly the final space |
| PriorityCalculation.RecommendAdjustment | src/main/java/com/paklog/wes/task/domain/service/TaskPriorityCalculator.java:264-286 | adjust iff the computed priority differs from the current one by more than 50; the recommendation is then the computed priority, else the current one |
| PriorityCalculation.UnknownTierScoresFifty | src/main/java/com/paklog/wes/task/domain/service/TaskPriorityCalculator.java:157-175 | an unknown tier scores 50 |
| PriorityCalculation.UnlistedTierMultiplier | src/main/java/com/paklog/wes/task/domain/service/TaskPriorityCalculator.java:36-42 | an unlisted tier has multiplier 1.0 |
| PriorityCalculation.MissingTierFollowsPriority | src/main/java/com/paklog/wes/task/domain/service/TaskPriorityCalculator.java:157-175 | without a tier string the customer score is 100 for expedited tasks, else 50 |
| PriorityCalculation.SlaTierAntitone | src/main/java/com/paklog/wes/task/domain/service/TaskPriorityCalculator.java:103-129 | less time to the deadline never scores lower |
| PriorityCalculation.CutoffTierAntitone | src/main/java/com/paklog/wes/task/domain/service/TaskPriorityCalculator.java:131-155 | less time to the cut-off never scores lower |
| PriorityCalculation.AgeTierMonotone | src/main/java/com/paklog/wes/task/domain/service/TaskPriorityCalculator.java:195-214 | an older task never scores lower |
| PriorityCalculation.SubScoresRiseOverTime | src/main/java/com/paklog/wes/task/domain/service/TaskPriorityCalculator.java:103-214 | the SLA, cut-off and age scores never fall as time passes |
| PriorityCalculation.WeightedSumRisesOverTime | src/main/java/com/paklog/wes/task/domain/service/TaskPriorityCalculator.java:54-69 | the weighted sum never falls as time passes |
| PriorityCalculation.PriorityRisesOverTime | src/main/java/com/paklog/wes/task/domain/service/TaskPriorityCalculator.java:49-92 | a task's priority never falls as time passes |
| PriorityCalculation.TypeModifierBounds | src/main/java/com/paklog/wes/task/domain/service/TaskPriorityCalculator.java:216-230 | on the weighted sum's range, the modified score lies in 14..118 |
| PriorityCalculation.LifecycleTasksUseDefaults | src/main/java/com/paklog/wes/task/domain/service/TaskPriorityCalculator.java:403-416 | for tasks built by the lifecycle (their metadata never holds the urgency keys): cut-off score 30, express iff expedited, customer score 100 or 50 by priority |
| Ranking.Insert | src/main/java/com/paklog/wes/task/infrastructure/assignment/TaskAssignmentEngine.java:93 | insertion keeps the multiset of elements plus the new one |
| Ranking.InsertKeepsOrder | src/main/java/com/paklog/wes/task/infrastructure/assignment/TaskAssignmentEngine.java:93 | inserting into a descending list keeps it descending |
| Ranking.SortDesc | src/main/java/com/paklog/wes/task/infrastructure/assignment/TaskAssignmentEngine.java:93 | the result is a permutation of the input, in non-increasing key order |
| Ranking.SortDescMembers | src/main/java/com/paklog/wes/task/infrastructure/assignment/TaskAssignmentEngine.java:199 | sorting keeps exactly the input's members |
| TaskQueues.QueueKey | src/main/java/com/paklog/wes/task/infrastructure/queue/TaskQueueManager.java:160-162 | every key starts with "task:queue:" and the warehouse id |
| TaskQueues.QueueKeyIsJoin | src/main/java/com/paklog/wes/task/infrastructure/queue/TaskQueueManager.java:160-162 | the key is the five fields joined by `:`, with "null" for a null zone, as string concatenation writes it |
| TaskQueues.ParseQueueKey | src/main/java/com/paklog/wes/task/infrastructure/queue/TaskQueueManager.java:174-205 | a parsed warehouse and zone never hold `:` |
| TaskQueues.ParseQueueKeyOfQueueKey | src/main/java/com/paklog/wes/task/infrastructure/queue/TaskQueueManager.java:160-205 | parsing a built key gives back its warehouse, zone and type |
| TaskQueues.QueueKeysDistinct | src/main/java/com/paklog/wes/task/infrastructure/queue/TaskQueueManager.java:160-162 | different (warehouse, zone, type) triples get different keys |
| TaskQueues.NameIsPlain | src/main/java/com/paklog/wes/task/infrastructure/queue/TaskQueueManager.java:160-162 | a type name is non-empty and holds no `:` |
| TaskQueues.EligibleKeys | src/main/java/com/paklog/wes/task/infrastructure/queue/TaskQueueManager.java:164-172 | one key per capability, in order |
| TaskQueues.Upsert | src/main/java/com/paklog/wes/task/infrastructure/queue/TaskQueueManager.java:33-43 | `ZADD` sets one member's score in one queue and touches no other queue |
| TaskQueues.Without | src/main/java/com/paklog/wes/task/infrastructure/queue/TaskQueueManager.java:79-83 | `ZREM` removes one member from one queue; an emptied queue disappears |
| TaskQueues.UpsertDepth | src/main/java/com/paklog/wes/task/infrastructure/queue/TaskQueueManager.java:33-43 | enqueue grows the depth by one unless the task was already queued |
| TaskQueues.WithoutDepth | src/main/java/com/paklog/wes/task/infrastructure/queue/TaskQueueManager.java:79-83 | remove shrinks the depth by one iff the task was queued |
| TaskQueues.UpsertTwice | src/main/java/com/paklog/wes/task/infrastructure/queue/TaskQueueManager.java:33-43 | enqueueing twice keeps one entry with the latest score |
| TaskQueues.LowestExists | src/main/java/com/paklog/wes/task/infrastructure/queue/TaskQueueManager.java:49-74 | every non-empty queue has a lowest-scored member |
| TaskQueues.RemoveKeepsLowest | src/main/java/com/paklog/wes/task/infrastructure/queue/TaskQueueManager.java:79-83 | removing another member keeps the lowest the lowest |
| TaskQueues.FirstNonEmpty | src/main/java/com/paklog/wes/task/infrastructure/queue/TaskQueueManager.java:55-70 | none iff every queue is empty; otherwise the first non-empty queue |
| TaskQueues.BacklogIsNotEmpty | src/main/java/com/paklog/wes/task/infrastructure/queue/QueueStatus.java:16-22 | a backlog implies a non-empty queue; empty iff no oldest task iff no entries |
| TaskQueues.QueueStatus.IsEmpty | src/main/java/com/paklog/wes/task/infrastructure/queue/QueueStatus.java:16-18 | depth zero; `BacklogIsNotEmpty` shows a reported queue is empty iff it has no oldest task and no entries |
| TaskQueues.QueueStatus.HasBacklog | src/main/java/com/paklog/wes/task/infrastructure/queue/QueueStatus.java:20-22 | more than ten tasks; `BacklogIsNotEmpty` shows a backlogged queue is not empty |
| TaskQueues.TaskQueueManager.constructor | src/main/java/com/paklog/wes/task/infrastructure/queue/TaskQueueManager.java:25-27 | starts with no queues |
| TaskQueues.TaskQueueManager.GetQueueDepth | src/main/java/com/paklog/wes/task/infrastructure/queue/TaskQueueManager.java:129-133 | depth 0 iff the queue has no entries |
| TaskQueues.TaskQueueManager.Enqueue | src/main/java/com/paklog/wes/task/infrastructure/queue/TaskQueueManager.java:33-43 | the store becomes `Upsert` of the task's queue with its priority score |
| TaskQueues.TaskQueueManager.GetEligibleQueues | src/main/java/com/paklog/wes/task/infrastructure/queue/TaskQueueManager.java:164-172 | the loop builds exactly `EligibleKeys` |
| TaskQueues.TaskQueueManager.Dequeue | src/main/java/com/paklog/wes/task/infrastructure/queue/TaskQueueManager.java:49-74 | none iff every eligible queue is empty (store unchanged); otherwise a lowest-scored task of the first non-empty eligible queue, removed from it |
| TaskQueues.TaskQueueManager.FindNonEmpty | src/main/java/com/paklog/wes/task/infrastructure/queue/TaskQueueManager.java:55-70 | the loop finds exactly `FirstNonEmpty` |
| TaskQueues.TaskQueueManager.TakeLowest | src/main/java/com/paklog/wes/task/infrastructure/queue/TaskQueueManager.java:59-64 | `ZPOPMIN`: a lowest-scored member, removed |
| TaskQueues.TaskQueueManager.Remove | src/main/java/com/paklog/wes/task/infrastructure/queue/TaskQueueManager.java:79-83 | the store becomes `Without` the task in its queue |
| TaskQueues.TaskQueueManager.StatusOf | src/main/java/com/paklog/wes/task/infrastructure/queue/TaskQueueManager.java:88-106 | the report names the queue and states its true depth and oldest (lowest-scored) task |
| TaskQueues.TaskQueueManager.GetQueueStatus | src/main/java/com/paklog/wes/task/infrastructure/queue/TaskQueueManager.java:88-106 | the same, for the queue of a warehouse, zone and type |
| TaskQueues.TaskQueueManager.Peek | src/main/java/com/paklog/wes/task/infrastructure/queue/TaskQueueManager.java:138-147 | none iff the queue is empty; otherwise a lowest-scored member, nothing removed |
| TaskQueues.TaskQueueManager.ClearQueue | src/main/java/com/paklog/wes/task/infrastructure/queue/TaskQueueManager.java:152-156 | deletes that queue only; its depth is then 0 |
| TaskQueues.TaskQueueManager.ParseQueueStatus | src/main/java/com/paklog/wes/task/infrastructure/queue/TaskQueueManager.java:174-205 | a report iff the key parses, with the parsed fields and the true depth |
| TaskQueues.TaskQueueManager.GetAllQueueStatus | src/main/java/com/paklog/wes/task/infrastructure/queue/TaskQueueManager.java:111-124 | exactly one report for each stored, parseable queue of the warehouse, carrying the warehouse, zone and type parsed from its key and the queue's true depth and oldest task |
| TaskManagement.Command | src/main/java/com/paklog/wes/task/application/service/TaskManagementService.java:68-187 | an unknown id fails with "Task not found"; a refused operation changes nothing; otherwise the task is saved and its queue follows |
| TaskManagement.CreateCommand | src/main/java/com/paklog/wes/task/application/service/TaskManagementService.java:36-63 | fails and changes nothing iff creation fails; otherwise the new QUEUED task is saved and enqueued with its score |
| TaskManagement.ApplyKeepsQueue | src/main/java/com/paklog/wes/task/domain/aggregate/WorkTask.java:112-234 | no operation changes the fields a task's queue is named after |
| TaskManagement.CommandKeepsConsistent | src/main/java/com/paklog/wes/task/application/service/TaskManagementService.java:68-187 | every service command keeps repository and queues consistent |
| TaskManagement.CreateKeepsConsistent | src/main/java/com/paklog/wes/task/application/service/TaskManagementService.java:36-63 | creating under a fresh id keeps them consistent |
| TaskManagement.AssignTakesTaskOffQueue | src/main/java/com/paklog/wes/task/application/service/TaskManagementService.java:68-83 | assigning a QUEUED task succeeds and removes it from its queue |
| TaskManagement.RejectRequeues | src/main/java/com/paklog/wes/task/application/service/TaskManagementService.java:104-119 | rejecting an ASSIGNED task succeeds and puts it back in its queue |
| TaskManagement.TaskManagementService.constructor | src/main/java/com/paklog/wes/task/application/service/TaskManagementService.java:28-31 | holds the given repository and queue manager |
| TaskManagement.TaskManagementService.FindTaskById | src/main/java/com/paklog/wes/task/application/service/TaskManagementService.java:190-193 | found iff stored, with exactly the stored fields; otherwise "Task not found: id" |
| TaskManagement.TaskManagementService.Save | src/main/java/com/paklog/wes/task/application/service/TaskManagementService.java:36-187 | the repository maps the id to the task's fields |
| TaskManagement.TaskManagementService.CreateTask | src/main/java/com/paklog/wes/task/application/service/TaskManagementService.java:36-63 | answer and new state are `CreateCommand`'s |
| TaskManagement.TaskManagementService.AssignTask | src/main/java/com/paklog/wes/task/application/service/TaskManagementService.java:68-83 | answer and new state are `Command` with assign |
| TaskManagement.TaskManagementService.AcceptTask | src/main/java/com/paklog/wes/task/application/service/TaskManagementService.java:88-99 | likewise, with accept |
| TaskManagement.TaskManagementService.RejectTask | src/main/java/com/paklog/wes/task/application/service/TaskManagementService.java:104-119 | likewise, with reject (re-enqueues) |
| TaskManagement.TaskManagementService.StartTask | src/main/java/com/paklog/wes/task/application/service/TaskManagementService.java:124-135 | likewise, with start |
| TaskManagement.TaskManagementService.CompleteTask | src/main/java/com/paklog/wes/task/application/service/TaskManagementService.java:140-151 | likewise, with complete |
| TaskManagement.TaskManagementService.FailTask | src/main/java/com/paklog/wes/task/application/service/TaskManagementService.java:156-167 | likewise, with fail |
| TaskManagement.TaskManagementService.CancelTask | src/main/java/com/paklog/wes/task/application/service/TaskManagementService.java:172-187 | likewise, with cancel (removes from the queue) |
| TaskAssignment.DefaultWorker | src/main/java/com/paklog/wes/task/infrastructure/assignment/Worker.java:99-110 | the builder's defaults: no capabilities, available, no active tasks |
| TaskAssignment.Worker.CanPerform | src/main/java/com/paklog/wes/task/infrastructure/assignment/Worker.java:24-26 | the capability test; `EligibilityIgnoresAvailability` shows eligibility requires it |
| TaskAssignment.Worker.HasSpecialization | src/main/java/com/paklog/wes/task/infrastructure/assignment/Worker.java:31-33 | the specialization test; `SpecialistBonus` shows it is worth exactly 20 points |
| TaskAssignment.Worker.IsAvailable | src/main/java/com/paklog/wes/task/infrastructure/assignment/Worker.java:38-40 | fewer than three active tasks; `EligibilityIgnoresAvailability` shows the engine never consults it |
| TaskAssignment.EligibilityIgnoresAvailability | src/main/java/com/paklog/wes/task/infrastructure/assignment/TaskAssignmentEngine.java:79-82 | eligibility needs the capability and the warehouse; changing the active-task count never changes it; available iff fewer than three active tasks |
| TaskAssignment.CompareTo | src/main/java/com/paklog/wes/task/infrastructure/assignment/WorkerScore.java:13-15 | sign of the score difference, in -1..1 |
| TaskAssignment.CompareToAntisymmetric | src/main/java/com/paklog/wes/task/infrastructure/assignment/WorkerScore.java:13-15 | antisymmetric, and blind to the worker |
| TaskAssignment.ZonePoints | src/main/java/com/paklog/wes/task/infrastructure/assignment/TaskAssignmentEngine.java:122-136 | same zone gives 30..50 points; any other case -20 |
| TaskAssignment.WorkloadPoints | src/main/java/com/paklog/wes/task/infrastructure/assignment/TaskAssignmentEngine.java:138-141 | never negative; for counts up to 429496729 it is max(0, 20 − 5·count) |
| TaskAssignment.CalculateScore | src/main/java/com/paklog/wes/task/infrastructure/assignment/TaskAssignmentEngine.java:119-159 | the score is for the given worker |
| TaskAssignment.ScoreRange | src/main/java/com/paklog/wes/task/infrastructure/assignment/TaskAssignmentEngine.java:119-159 | for sane workload and rating, the score lies in 80..210 |
| TaskAssignment.WorkloadWraps | src/main/java/com/paklog/wes/task/infrastructure/assignment/TaskAssignmentEngine.java:138-141 | 858993459 active tasks overflow `activeTasks * 5` and score 21 points |
| TaskAssignment.SameZoneAdvantage | src/main/java/com/paklog/wes/task/infrastructure/assignment/TaskAssignmentEngine.java:122-136 | being in the task's zone never lowers a worker's score |
| TaskAssignment.SpecialistBonus | src/main/java/com/paklog/wes/task/infrastructure/assignment/TaskAssignmentEngine.java:143-146 | with the same worker otherwise, a specialization in the task's type adds exactly 20 points |
| TaskAssignment.Success | src/main/java/com/paklog/wes/task/infrastructure/assignment/AssignmentResult.java:13-15 | a successful result for the task, worker and score |
| TaskAssignment.Failure | src/main/java/com/paklog/wes/task/infrastructure/assignment/AssignmentResult.java:17-19 | a failed result with the message |
| TaskAssignment.NoEligibleWorker | src/main/java/com/paklog/wes/task/infrastructure/assignment/AssignmentResult.java:21-23 | the failed result "No eligible workers available" |
| TaskAssignment.EligibleWorkers | src/main/java/com/paklog/wes/task/infrastructure/assignment/TaskAssignmentEngine.java:80-83 | exactly the listed workers able to do the type in the task's warehouse |
| TaskAssignment.Scores | src/main/java/com/paklog/wes/task/infrastructure/assignment/TaskAssignmentEngine.java:91-92 | one score per eligible worker, in order |
| TaskAssignment.FirstAccepted | src/main/java/com/paklog/wes/task/infrastructure/assignment/TaskAssignmentEngine.java:99-110 | none iff no ranked worker is accepted; otherwise the first accepted position |
| TaskAssignment.BestWorker | src/main/java/com/paklog/wes/task/infrastructure/assignment/TaskAssignmentEngine.java:76-113 | a well-formed result for this task |
| TaskAssignment.RankedMembers | src/main/java/com/paklog/wes/task/infrastructure/assignment/TaskAssignmentEngine.java:80-94 | the ranking holds exactly one score per eligible worker |
| TaskAssignment.FirstAcceptedScoresHighest | src/main/java/com/paklog/wes/task/infrastructure/assignment/TaskAssignmentEngine.java:93-110 | the first accepted worker scores at least as high as any other accepting worker |
| TaskAssignment.BestWorkerIsBest | src/main/java/com/paklog/wes/task/infrastructure/assignment/TaskAssignmentEngine.java:76-113 | on success the winner is an eligible, accepting worker whose score no other eligible accepting worker beats |
| TaskAssignment.BestWorkerFailures | src/main/java/com/paklog/wes/task/infrastructure/assignment/TaskAssignmentEngine.java:85-112 | "No eligible workers available" iff nobody is eligible; "All assignment attempts failed" iff every eligible worker is refused |
| TaskAssignment.ExactlyOneBand | src/main/java/com/paklog/wes/task/infrastructure/assignment/TaskRecommendation.java:17-27 | every recommendation is in exactly one of high, medium and low |
| TaskAssignment.TaskRecommendation.IsHighScore | src/main/java/com/paklog/wes/task/infrastructure/assignment/TaskRecommendation.java:17-19 | above 120; `ExactlyOneBand` shows each recommendation is in exactly one band |
| TaskAssignment.TaskRecommendation.IsMediumScore | src/main/java/com/paklog/wes/task/infrastructure/assignment/TaskRecommendation.java:21-23 | in (80, 120]; `ExactlyOneBand` shows the bands are disjoint and cover every score |
| TaskAssignment.TaskRecommendation.IsLowScore | src/main/java/com/paklog/wes/task/infrastructure/assignment/TaskRecommendation.java:25-27 | at most 80; `ExactlyOneBand` shows the bands are disjoint and cover every score |
| TaskAssignment.InZoneRecommendationIsHigh | src/main/java/com/paklog/wes/task/infrastructure/assignment/TaskAssignmentEngine.java:188-198 | a worker in the task's zone with a sane workload and a non-negative rating scores at least 130, an excellent match |
| TaskAssignment.WalkTime | src/main/java/com/paklog/wes/task/infrastructure/assignment/TaskAssignmentEngine.java:203-211 | 0 when a location is missing; otherwise the distance times 6, truncated and saturated to an `int` |
| TaskAssignment.Recommend | src/main/java/com/paklog/wes/task/infrastructure/assignment/TaskAssignmentEngine.java:188-198 | the recommendation carries the task's id, type, priority and zone, the worker's score for it and a non-negative walk time |
| TaskAssignment.EligibleTasks | src/main/java/com/paklog/wes/task/infrastructure/assignment/TaskAssignmentEngine.java:185-187 | exactly the tasks the worker can do in its warehouse |
| TaskAssignment.GetTaskRecommendations | src/main/java/com/paklog/wes/task/infrastructure/assignment/TaskAssignmentEngine.java:184-201 | one recommendation per eligible task, highest score first |
| TaskAssignment.RecommendationsCoverEligible | src/main/java/com/paklog/wes/task/infrastructure/assignment/TaskAssignmentEngine.java:184-201 | the recommendations are exactly those of the eligible tasks |
| TaskAssignment.Winners | src/main/java/com/paklog/wes/task/infrastructure/assignment/TaskAssignmentEngine.java:164-178 | every successful result's worker is a winner |
| TaskAssignment.WinnersAppend | src/main/java/com/paklog/wes/task/infrastructure/assignment/TaskAssignmentEngine.java:167-175 | one more result adds its worker exactly when it succeeded |
| TaskAssignment.Retain | src/main/java/com/paklog/wes/task/infrastructure/assignment/TaskAssignmentEngine.java:173 | `removeIf` keeps exactly the workers whose id is not removed |
| TaskAssignment.RetainTwice | src/main/java/com/paklog/wes/task/infrastructure/assignment/TaskAssignmentEngine.java:173 | removing in two steps equals removing the union |
| TaskAssignment.RetainNothing | src/main/java/com/paklog/wes/task/infrastructure/assignment/TaskAssignmentEngine.java:173 | removing nothing keeps the list |
| TaskAssignment.BatchStep | src/main/java/com/paklog/wes/task/infrastructure/assignment/TaskAssignmentEngine.java:167-175 | each iteration keeps the batch invariant: the pool is the caller's list minus every winner so far, and winners are distinct |
| TaskAssignment.WorkerList.constructor | src/main/java/com/paklog/wes/task/infrastructure/assignment/TaskAssignmentEngine.java:164 | holds the caller's list |
| TaskAssignment.WorkerList.RemoveWorker | src/main/java/com/paklog/wes/task/infrastructure/assignment/TaskAssignmentEngine.java:173 | the list becomes `Retain` of that worker id |
| TaskAssignment.AfterDequeue | src/main/java/com/paklog/wes/task/infrastructure/assignment/TaskAssignmentEngine.java:51-69 | on success, the assign command's answer and state; otherwise the repository is unchanged and a stored task goes back in its queue |
| TaskAssignment.ConsistentServesDequeued | src/main/java/com/paklog/wes/task/infrastructure/assignment/TaskAssignmentEngine.java:35-70 | in a consistent system a dequeued task is always assigned to the asking worker, and the system stays consistent |
| TaskAssignment.TaskAssignmentEngine.constructor | src/main/java/com/paklog/wes/task/infrastructure/assignment/TaskAssignmentEngine.java:26-29 | holds the service |
| TaskAssignment.TaskAssignmentEngine.GetNextTaskForWorker | src/main/java/com/paklog/wes/task/infrastructure/assignment/TaskAssignmentEngine.java:35-70 | nothing changes when every eligible queue is empty; otherwise the lowest task of the first non-empty queue is taken and handed out as `AfterDequeue` says |
| TaskAssignment.TaskAssignmentEngine.AssignTaskToBestWorker | src/main/java/com/paklog/wes/task/infrastructure/assignment/TaskAssignmentEngine.java:76-113 | the result is `BestWorker` with "the service accepts" as the acceptance test, and the state is that of the winning assign command |
| TaskAssignment.TaskAssignmentEngine.BatchAssign | src/main/java/com/paklog/wes/task/infrastructure/assignment/TaskAssignmentEngine.java:164-178 | results, the caller's worker list and the service state end as `BatchRun` computes them; one result per task, in order; the list loses exactly the winners, who are distinct and came from the list |
| TaskAssignment.BatchRun | src/main/java/com/paklog/wes/task/infrastructure/assignment/TaskAssignmentEngine.java:164-178 | each task in turn gets assignTaskToBestWorker's result on the workers earlier winners left, judged by what the service then accepts; one result per task, and the pool only shrinks; it asks numeric locations only of the pairs each round measures on the pool that round sees |
| TaskAssignment.BatchRunKeepsPoolInStep | src/main/java/com/paklog/wes/task/infrastructure/assignment/TaskAssignmentEngine.java:164-178 | every batch answers each task in order with a well-formed result, no worker wins twice, winners come from the pool, and the pool left is exactly the workers that won nothing |
| WaveIntake.CreateAcceptsAcceptable | src/main/java/com/paklog/wes/task/application/service/TaskManagementService.java:36-63 | a create command succeeds iff type, warehouse, reference and a valid context are given; success adds exactly that QUEUED task |
| WaveIntake.Attempt | src/main/java/com/paklog/task/execution/infrastructure/events/WaveEventConsumer.java:69-71 | one order: passes iff its command was built and accepted; a failure changes nothing |
| WaveIntake.AttemptCreates | src/main/java/com/paklog/task/execution/infrastructure/events/WaveEventConsumer.java:69-71 | an attempt is the create command |
| WaveIntake.Created | src/main/java/com/paklog/task/execution/infrastructure/events/WaveEventConsumer.java:69-71 | the ids whose commands are accepted, and only those |
| WaveIntake.CreatedIsAccepted | src/main/java/com/paklog/task/execution/infrastructure/events/WaveEventConsumer.java:69-71 | the same, as one set comprehension |
| WaveIntake.CreateEach | src/main/java/com/paklog/wes/task/infrastructure/events/WaveEventHandler.java:62-64 | creating per order (failures skipped) adds exactly the accepted ids, all QUEUED |
| WaveIntake.CreateUntilFailure | src/main/java/com/paklog/task/execution/infrastructure/events/WaveEventConsumer.java:69-76 | creating per order, stopping at the first failure, passes iff every command is accepted |
| WaveIntake.UntilPassIsEach | src/main/java/com/paklog/task/execution/infrastructure/events/WaveEventConsumer.java:69-76 | when it passes, it created what per-order creation creates |
| WaveIntake.UntilStep | src/main/java/com/paklog/task/execution/infrastructure/events/WaveEventConsumer.java:69-71 | one more order is one more attempt on the state so far |
| WaveIntake.FailureSticks | src/main/java/com/paklog/task/execution/infrastructure/events/WaveEventConsumer.java:69-76 | after a failure the rest of the orders are not tried |
| WaveIntake.CreateEachKeepsConsistent | src/main/java/com/paklog/wes/task/infrastructure/events/WaveEventHandler.java:62-64 | with fresh distinct ids, per-order creation keeps the system consistent |
| WaveIntake.CreateUntilFailureKeepsConsistent | src/main/java/com/paklog/task/execution/infrastructure/events/WaveEventConsumer.java:69-76 | so does stopping at the first failure |
| WaveIntake.MapPriority | src/main/java/com/paklog/task/execution/infrastructure/events/WaveEventConsumer.java:107-119 | null has no mapping (the switch throws); an exact upper-case name maps to itself; anything else to NORMAL |
| WaveIntake.MapPriorityIsCaseSensitive | src/main/java/com/paklog/task/execution/infrastructure/events/WaveEventConsumer.java:107-119 | "urgent" maps to NORMAL here, while `Priority.fromString` reads it as URGENT |
| WaveIntake.ConsumerCommand | src/main/java/com/paklog/task/execution/infrastructure/events/WaveEventConsumer.java:78-102 | fails iff the wave id is null; otherwise a PICK command for WH-001 at A-01-01-01, 15 minutes, due in 2 hours, referencing the wave |
| WaveIntake.WrittenPickCommand | src/main/java/com/paklog/task/execution/infrastructure/events/WaveEventConsumer.java:81-98 | the command as written carries a pick context with no instructions |
| WaveIntake.WrittenPickCommandRefused | src/main/java/com/paklog/task/execution/infrastructure/events/WaveEventConsumer.java:81-98 | so the service refuses it, with "Pick instructions cannot be empty" once wave and order are set |
| WaveIntake.WrittenWaveCreatesNothing | src/main/java/com/paklog/task/execution/infrastructure/events/WaveEventConsumer.java:55-76 | as written, every wave with at least one order fails and creates nothing |
| WaveIntake.PlaceholderInstruction | src/main/java/com/paklog/wes/task/infrastructure/events/WaveEventHandler.java:79-87 | one unit of a placeholder SKU at the given location, which validates |
| WaveIntake.IntendedPickCommand | src/main/java/com/paklog/task/execution/infrastructure/events/WaveEventConsumer.java:81-98 | the corrected command carries exactly one instruction |
| WaveIntake.IntendedPickCommandAcceptable | src/main/java/com/paklog/task/execution/infrastructure/events/WaveEventConsumer.java:81-98 | the corrected command is accepted iff wave id and order id are non-blank |
| WaveIntake.IntendedPickCommandCreates | src/main/java/com/paklog/task/execution/infrastructure/events/WaveEventConsumer.java:88-98 | and then creates a QUEUED PICK task with the wave as reference and the mapped priority, zone and deadline |
| WaveIntake.Commands | src/main/java/com/paklog/task/execution/infrastructure/events/WaveEventConsumer.java:69-71 | one command per order, in order |
| WaveIntake.ConsumerOutcome | src/main/java/com/paklog/task/execution/infrastructure/events/WaveEventConsumer.java:44-76 | for the corrected consumer: other event types are ignored; a null order list or priority fails; every failure is reported as "Failed to process wave released event" |
| WaveIntake.ConsumerCreatesEveryOrder | src/main/java/com/paklog/task/execution/infrastructure/events/WaveEventConsumer.java:55-76 | for the corrected consumer: the event passes iff every order can be created, and then every order has a new QUEUED task |
| WaveIntake.EveryOrderCreated | src/main/java/com/paklog/task/execution/infrastructure/events/WaveEventConsumer.java:69-71 | when every command is accepted, every id gets a QUEUED task |
| WaveIntake.ConsumerAccepts | src/main/java/com/paklog/task/execution/infrastructure/events/WaveEventConsumer.java:78-102 | for the corrected consumer: an order's command is accepted iff the wave and order ids are non-blank |
| WaveIntake.ConsumerKeepsConsistent | src/main/java/com/paklog/task/execution/infrastructure/events/WaveEventConsumer.java:44-76 | for the corrected consumer: handling the event keeps the system consistent |
| WaveIntake.WaveEventConsumer.constructor | src/main/java/com/paklog/task/execution/infrastructure/events/WaveEventConsumer.java:33-36 | holds the service |
| WaveIntake.WaveEventConsumer.HandleWaveEvent | src/main/java/com/paklog/task/execution/infrastructure/events/WaveEventConsumer.java:44-76 | for the corrected consumer: outcome and new state are `ConsumerOutcome`'s |
| WaveIntake.HandlerPriority | src/main/java/com/paklog/wes/task/infrastructure/events/WaveEventHandler.java:59 | null gives NORMAL; an exact name gives that priority; anything else has none (`valueOf` throws) |
| WaveIntake.HandlerCommand | src/main/java/com/paklog/wes/task/infrastructure/events/WaveEventHandler.java:74-115 | built iff zone and wave id are non-null: a PICK at zone-01-01-01, 10 minutes, no deadline |
| WaveIntake.HandlerCommandAccepted | src/main/java/com/paklog/wes/task/infrastructure/events/WaveEventHandler.java:74-115 | an order's command is accepted iff warehouse and zone are given and the wave and order ids are non-blank |
| WaveIntake.HandlerCommands | src/main/java/com/paklog/wes/task/infrastructure/events/WaveEventHandler.java:44-64 | commands exist iff the type matches, the priority maps and orders are given; one per order |
| WaveIntake.HandlerOutcome | src/main/java/com/paklog/wes/task/infrastructure/events/WaveEventHandler.java:44-71 | nothing changes when the event is ignored or rejected |
| WaveIntake.HandlerCreatesValidOrders | src/main/java/com/paklog/wes/task/infrastructure/events/WaveEventHandler.java:62-64 | exactly the valid orders get a new QUEUED task; the others are skipped |
| WaveIntake.HandlerKeepsConsistent | src/main/java/com/paklog/wes/task/infrastructure/events/WaveEventHandler.java:44-71 | handling the event keeps the system consistent |
| WaveIntake.WaveEventHandler.constructor | src/main/java/com/paklog/wes/task/infrastructure/events/WaveEventHandler.java:30-32 | holds the service |
| WaveIntake.WaveEventHandler.HandleWaveReleased | src/main/java/com/paklog/wes/task/infrastructure/events/WaveEventHandler.java:44-71 | the new state is `HandlerOutcome`'s |

## Left out

- REST controllers, DTO mappers, MongoDB persistence and its optimistic version lock, and the read-only repository queries (`findTasksByWorker` and the like) are not part of this model.
- Kafka, CloudEvent and JSON decoding are not modelled. Events arrive already decoded; the outbound event publisher is not modelled. A domain event is kept only as a record in the aggregate's list.
- Redis commands are atomic map updates. Concurrency between several service instances is not modelled. `KEYS task:queue:<warehouse>:*` is a prefix filter on the stored keys.
- Clocks, UUIDs and ISO date parsing are parameters: `now`, the task ids, and a `DateParser` function. Time is whole seconds, and `LocalDateTime` comparisons become integer comparisons. TaskPriorityCalculator reads the clock separately in the SLA, cut-off and age scores and twice more while building the adjustment reason; the model passes one `now` to all of them, so it does not capture the clock moving between those reads.
- Doubles are exact reals; rounding errors of `double` arithmetic are not modelled. `Double.MAX_VALUE` is a constant.
- Upper-casing and lower-casing cover ASCII only; Java's Unicode case mapping is not modelled. Blank tests follow `Character.isWhitespace`, including its Unicode space separators.
- `WorkTask.getPerformanceRatio` is not modelled: nothing in the core reads it.
- Public setters of the aggregate and the contexts are not modelled as separate operations; contexts are values updated functionally. The two setters that do more than write a field, `setInstructions` and `setItems`, are modelled in that functional-update form by `TaskContexts.WithInstructions` and `TaskContexts.WithItems`. The source copies instruction and item lists only shallowly, and `PickInstruction` and `PackItem` have public setters, so a caller holding an element can still change a context; that aliasing is not modelled.
- TaskLifecycle.CompleteStep: requires a recorded start time. The source would throw a NullPointerException computing the duration of a task that never started; the task invariant rules that state out.
- TaskManagement.TaskManagementService.RejectTask: the rejection reason is only logged by the source and is ignored here.
- TaskQueues.TaskQueueManager.Dequeue: among equal scores Redis orders members lexicographically. The model picks any lowest-scored member.
- TaskQueues.TaskQueueManager.TakeLowest: pops any lowest-scored member, where ZPOPMIN takes the lexicographically first among equal scores.
- TaskQueues.TaskQueueManager.Peek: returns any lowest-scored member, where Redis returns the lexicographically first among equal scores.
- TaskQueues.TaskQueueManager.StatusOf: the oldest task it reports is any lowest-scored member, not the lexicographically first among equal scores.
- TaskQueues.TaskQueueManager.GetQueueStatus: reports StatusOf's oldest task, so it shares the same tie abstraction.
- TaskQueues.TaskQueueManager.GetAllQueueStatus: each report's oldest task is StatusOf's, so it shares the same tie abstraction.
- Worker capabilities are a sequence that fixes the order in which queues are tried; Java iterates a `Set` in an unspecified order.
- The `tasksByZone` field of the load metrics is carried but never read.
- PriorityCalculation.DynamicPriority: surge levels are read exactly, integral or fractional; NaN, infinite levels and `double` rounding are not modelled.
- TaskManagement.TaskManagementService.Save: saves under the id that was looked up, which the stored-id invariant makes equal to the task's own id.
- TaskAssignment.TaskAssignmentEngine: the engine uses the service's own queue manager. The source injects two references that the application wires to the same bean.
- TaskAssignment.ScoreRange: states the range only for up to 429,496,729 active tasks and ratings in [0, 1]. Beyond that `activeTasks * 5` overflows; `WorkloadWraps` exhibits the overflow.
- Ranking.SortDesc: stable by construction; the contract does not state stability, so callers are not promised the source order among equal scores.
- Locations.Distance: requires bays and levels made of ASCII digits. `Integer.parseInt` also accepts a leading sign ("+01", "-1") and non-ASCII digits, which the model excludes; on other text it throws, and no caller catches it. The assignment engine demands this only of the pairs it measures: an eligible worker in the task's zone (scoring) or any eligible pair (walk time), and then only when both locations are known. In a batch, each task is scored only against the workers that earlier tasks left in the list (`BatchOk`), so a worker that has already won is never measured against a later task. `Locations.DistanceFrom` demands it only when the other location is present.
- Locations.CompareAlphanumeric: its `String.compareTo` fallback and all text lengths work on Unicode scalar values, while Java compares UTF-16 code units; the order differs for supplementary characters against U+E000–U+FFFF.
- The consumer's `waveNumber`, `totalLines` and `releasedAt` fields are never read and are not modelled. The orders of an event are assumed non-null.
- WaveIntake.WaveEventHandler.HandleWaveReleased: a `ClassCastException` from the handler's unchecked map casts is not modelled; fields arrive typed.
- The task side (the aggregate, the service and the handler) uses `com.paklog.domain.valueobject.Priority`, which is not part of this model. It is modelled by the five-valued enum of `task/execution/domain/valueobject/Priority.java`, which the consumer uses. The consumer therefore passes its priority straight into the command.

## Findings

| source | as written | input that shows it | evidently intended | confidence | as-written member | corrected member |
|---|---|---|---|---|---|---|
| src/main/java/com/paklog/task/execution/infrastructure/events/WaveEventConsumer.java:81-86 | the pick context for each order is built with an empty instruction list, which `PickTaskContext.validate` (PickTaskContext.java:46-48) always rejects | any `wave.released` event with a non-null priority and at least one order id | one pick instruction per order (as the sibling handler does), so that each order gets a pick task | not executed | WaveIntake.WrittenWaveCreatesNothing | WaveIntake.IntendedPickCommandAcceptable |

`WaveIntake.WrittenPickCommandRefused` shows why the as-written command fails. The consumer model (`WaveIntake.ConsumerOutcome`, `WaveIntake.WaveEventConsumer.HandleWaveEvent`) uses the corrected command `WaveIntake.IntendedPickCommand`, with one placeholder instruction per order as the handler builds it.
