/*
 * Wave intake: the two listeners that turn a released wave into one pick
 * task per order. The CloudEvent consumer maps the external priority
 * vocabulary and aborts on the first failure; the map-based handler falls
 * back to NORMAL, builds a placeholder pick instruction per order and skips
 * an order whose task cannot be created. Event decoding is not modelled:
 * both take the decoded fields, with None for a missing (null) field.
 * Task ids, random UUIDs in the system, are supplied one per order.
 */
module WaveIntake {
  import opened Wrappers
  import opened JavaText
  import opened Priorities
  import opened TaskTypes
  import opened Locations
  import opened TaskContexts
  import opened TaskStatuses
  import opened TaskLifecycle
  import opened TaskManagement

  // --------------------------------------------------------------- commands

  /** Whether task creation accepts a command: the checks of create, which
    * do not depend on the id or the time. */
  predicate Acceptable(c: CreateTaskCommand) {
    && c.taskType.Some? && c.warehouseId.Some? && c.referenceId.Some? && c.context.Some?
    && Validate(c.context.value).Pass?
  }

  lemma CreateAcceptsAcceptable(s: Sys, taskId: string, c: CreateTaskCommand, now: int)
    ensures CreateCommand(s, taskId, c, now).result.Ok? <==> Acceptable(c)
    ensures CreateCommand(s, taskId, c, now).result.Err? ==> CreateCommand(s, taskId, c, now).next == s
    ensures (Acceptable(c) ==>
               var r := CreateCommand(s, taskId, c, now);
               && r.next.repository.Keys == s.repository.Keys + {taskId}
               && r.next.repository[taskId].status == Queued)
  {
  }

  /** One create command per order, in order, skipping the orders whose
    * command could not be built or was refused (the handler's loop). */
  function CreateEach(s: Sys, ids: seq<string>, cmds: seq<Result<CreateTaskCommand, string>>, now: int): (r: Sys)
    requires |ids| == |cmds|
    ensures r.repository.Keys == s.repository.Keys + Created(ids, cmds)
    ensures forall id | id in Created(ids, cmds) :: r.repository[id].status == Queued
    decreases |cmds|
  {
    if |cmds| == 0 then s
    else
      var n := |cmds| - 1;
      Attempt(CreateEach(s, ids[..n], cmds[..n], now), ids[n], cmds[n], now).next
  }

  /** What a run that stops at the first failure reports. */
  datatype Delivery = Delivery(outcome: Outcome<string>, next: Sys)

  /** One order: its command could not be built, or task creation refused
    * or accepted it. */
  function Attempt(s: Sys, id: string, cmd: Result<CreateTaskCommand, string>, now: int): (r: Delivery)
    ensures r.outcome.Pass? <==> cmd.Ok? && Acceptable(cmd.value)
    ensures r.outcome.Fail? ==> r.next == s
    ensures (r.outcome.Pass? ==>
               && r.next.repository.Keys == s.repository.Keys + {id}
               && r.next.repository[id].status == Queued)
  {
    match cmd
    case Err(e) => Delivery(Fail(e), s)
    case Ok(c) =>
      CreateAcceptsAcceptable(s, id, c, now);
      var reply := CreateCommand(s, id, c, now);
      if reply.result.Ok? then Delivery(Pass, reply.next) else Delivery(Fail(reply.result.error), s)
  }

  /** The ids of the orders whose task gets created. */
  function Created(ids: seq<string>, cmds: seq<Result<CreateTaskCommand, string>>): (r: set<string>)
    requires |ids| == |cmds|
    ensures forall id | id in r :: id in ids
    ensures (forall id | id in r ::
               exists k | 0 <= k < |cmds| :: ids[k] == id && cmds[k].Ok? && Acceptable(cmds[k].value))
    ensures forall k | 0 <= k < |cmds| && cmds[k].Ok? && Acceptable(cmds[k].value) :: ids[k] in r
    decreases |cmds|
  {
    if |cmds| == 0 then {}
    else
      var n := |cmds| - 1;
      assert forall k | 0 <= k < n :: ids[..n][k] == ids[k] && cmds[..n][k] == cmds[k];
      Created(ids[..n], cmds[..n]) + if cmds[n].Ok? && Acceptable(cmds[n].value) then {ids[n]} else {}
  }

  /** The created ids are those of the accepted commands. */
  lemma CreatedIsAccepted(ids: seq<string>, cmds: seq<Result<CreateTaskCommand, string>>)
    requires |ids| == |cmds|
    ensures Created(ids, cmds) == set k | 0 <= k < |cmds| && cmds[k].Ok? && Acceptable(cmds[k].value) :: ids[k]
  {
  }

  /** An attempt with a command is a create command. */
  lemma AttemptCreates(s: Sys, id: string, c: CreateTaskCommand, now: int)
    ensures Attempt(s, id, Ok(c), now).next == CreateCommand(s, id, c, now).next
    ensures Attempt(s, id, Ok(c), now).outcome.Pass? <==> CreateCommand(s, id, c, now).result.Ok?
  {
    CreateAcceptsAcceptable(s, id, c, now);
  }

  /** One create command per order, in order, stopping at the first command
    * that could not be built or was refused (the consumer's loop). */
  function CreateUntilFailure(s: Sys, ids: seq<string>, cmds: seq<Result<CreateTaskCommand, string>>,
                              now: int): (r: Delivery)
    requires |ids| == |cmds|
    ensures r.outcome.Pass? <==> AllAccepted(cmds)
    decreases |cmds|
  {
    if |cmds| == 0 then Delivery(Pass, s)
    else
      var n := |cmds| - 1;
      var prior := CreateUntilFailure(s, ids[..n], cmds[..n], now);
      AllAcceptedSplit(cmds);
      if prior.outcome.Fail? then prior
      else Attempt(prior.next, ids[n], cmds[n], now)
  }

  /** A run that did not fail is the run that skips failures. */
  lemma {:induction false} UntilPassIsEach(s: Sys, ids: seq<string>, cmds: seq<Result<CreateTaskCommand, string>>,
                                           now: int)
    requires |ids| == |cmds|
    ensures (CreateUntilFailure(s, ids, cmds, now).outcome.Pass? ==>
               CreateUntilFailure(s, ids, cmds, now).next == CreateEach(s, ids, cmds, now))
    decreases |cmds|
  {
    if |cmds| > 0 {
      UntilPassIsEach(s, ids[..|cmds| - 1], cmds[..|cmds| - 1], now);
    }
  }

  lemma AllAcceptedSplit(cmds: seq<Result<CreateTaskCommand, string>>)
    requires |cmds| > 0
    ensures (AllAccepted(cmds) <==>
               AllAccepted(cmds[..|cmds| - 1]) && cmds[|cmds| - 1].Ok? && Acceptable(cmds[|cmds| - 1].value))
  {
    var n := |cmds| - 1;
    assert forall k | 0 <= k < n :: cmds[..n][k] == cmds[k];
  }

  predicate AllAccepted(cmds: seq<Result<CreateTaskCommand, string>>) {
    forall k | 0 <= k < |cmds| :: cmds[k].Ok? && Acceptable(cmds[k].value)
  }

  /** One more order on a run that has not failed yet. */
  lemma UntilStep(s: Sys, ids: seq<string>, cmds: seq<Result<CreateTaskCommand, string>>, now: int, k: nat)
    requires |ids| == |cmds| && k < |cmds|
    requires CreateUntilFailure(s, ids[..k], cmds[..k], now).outcome.Pass?
    ensures (CreateUntilFailure(s, ids[..k + 1], cmds[..k + 1], now) ==
             Attempt(CreateUntilFailure(s, ids[..k], cmds[..k], now).next, ids[k], cmds[k], now))
  {
    var a, c := ids[..k + 1], cmds[..k + 1];
    assert a[..k] == ids[..k] && c[..k] == cmds[..k];
    assert a[k] == ids[k] && c[k] == cmds[k];
    var prior := CreateUntilFailure(s, ids[..k], cmds[..k], now);
    calc {
      CreateUntilFailure(s, a, c, now);
      Attempt(CreateUntilFailure(s, a[..k], c[..k], now).next, a[k], c[k], now);
      Attempt(prior.next, ids[k], cmds[k], now);
    }
  }

  /** Once a run has failed, later orders change nothing. */
  lemma {:induction false} FailureSticks(s: Sys, ids: seq<string>, cmds: seq<Result<CreateTaskCommand, string>>,
                                         now: int, k: nat)
    requires |ids| == |cmds| && k <= |cmds|
    requires CreateUntilFailure(s, ids[..k], cmds[..k], now).outcome.Fail?
    ensures CreateUntilFailure(s, ids, cmds, now) == CreateUntilFailure(s, ids[..k], cmds[..k], now)
    decreases |cmds|
  {
    if k < |cmds| {
      var n := |cmds| - 1;
      assert ids[..n][..k] == ids[..k] && cmds[..n][..k] == cmds[..k];
      FailureSticks(s, ids[..n], cmds[..n], now, k);
    } else {
      assert ids[..k] == ids && cmds[..k] == cmds;
    }
  }

  // ------------------------------------------------------------ consistency

  predicate Distinct(ids: seq<string>) {
    forall i, j | 0 <= i < j < |ids| :: ids[i] != ids[j]
  }

  /** Creating tasks under fresh, distinct ids keeps every queued id backed
    * by a stored QUEUED task and every QUEUED task in its queue. */
  lemma {:induction false} CreateEachKeepsConsistent(s: Sys, ids: seq<string>,
                                                     cmds: seq<Result<CreateTaskCommand, string>>, now: int)
    requires |ids| == |cmds| && Consistent(s) && Distinct(ids)
    requires forall id | id in ids :: id !in s.repository
    ensures Consistent(CreateEach(s, ids, cmds, now))
    decreases |cmds|
  {
    if |cmds| > 0 {
      var n := |cmds| - 1;
      PrefixFresh(s, ids);
      CreateEachKeepsConsistent(s, ids[..n], cmds[..n], now);
      var prior := CreateEach(s, ids[..n], cmds[..n], now);
      if cmds[n].Ok? {
        FreshAtEnd(s, ids, cmds, now);
        CreateKeepsConsistent(prior, ids[n], cmds[n].value, now);
        AttemptCreates(prior, ids[n], cmds[n].value, now);
      }
      assert CreateEach(s, ids, cmds, now) == Attempt(prior, ids[n], cmds[n], now).next;
    }
  }

  /** Fresh, distinct ids stay so when the last is dropped. */
  lemma PrefixFresh(s: Sys, ids: seq<string>)
    requires |ids| > 0 && Distinct(ids) && forall id | id in ids :: id !in s.repository
    ensures (var p := ids[..|ids| - 1]; Distinct(p) && forall id | id in p :: id !in s.repository)
  {
    var p := ids[..|ids| - 1];
    assert forall k | 0 <= k < |p| :: p[k] == ids[k];
  }

  /** The last id is not yet stored when its order comes up. */
  lemma FreshAtEnd(s: Sys, ids: seq<string>, cmds: seq<Result<CreateTaskCommand, string>>, now: int)
    requires |ids| == |cmds| > 0 && Distinct(ids)
    requires forall id | id in ids :: id !in s.repository
    ensures ids[|ids| - 1] !in CreateEach(s, ids[..|ids| - 1], cmds[..|ids| - 1], now).repository
  {
    var n := |ids| - 1;
    assert ids[n] in ids;
    forall id | id in Created(ids[..n], cmds[..n])
      ensures id != ids[n]
    {
      var j :| 0 <= j < n && ids[..n][j] == id;
      assert ids[j] == id;
    }
  }

  /** The same for a run that stops at the first failure. */
  lemma {:induction false} CreateUntilFailureKeepsConsistent(s: Sys, ids: seq<string>,
                                                             cmds: seq<Result<CreateTaskCommand, string>>, now: int)
    requires |ids| == |cmds| && Consistent(s) && Distinct(ids)
    requires forall id | id in ids :: id !in s.repository
    ensures Consistent(CreateUntilFailure(s, ids, cmds, now).next)
    decreases |cmds|
  {
    var r := CreateUntilFailure(s, ids, cmds, now);
    if r.outcome.Pass? {
      UntilPassIsEach(s, ids, cmds, now);
      CreateEachKeepsConsistent(s, ids, cmds, now);
    } else if |cmds| > 0 {
      var n := |cmds| - 1;
      PrefixFresh(s, ids);
      CreateUntilFailureKeepsConsistent(s, ids[..n], cmds[..n], now);
      var prior := CreateUntilFailure(s, ids[..n], cmds[..n], now);
      if prior.outcome.Pass? {
        UntilPassIsEach(s, ids[..n], cmds[..n], now);
        CreateEachKeepsConsistent(s, ids[..n], cmds[..n], now);
        if cmds[n].Ok? {
          AttemptCreates(prior.next, ids[n], cmds[n].value, now);
        }
      }
    }
  }

  // ---------------------------------------------------------- the consumer

  /** The CloudEvent type the consumer handles. */
  const WaveReleasedType := "com.paklog.wms.wave-planning.wave.wave.released.v1"

  /** The decoded wave-released contract: the fields the consumer reads. */
  datatype WaveReleased = WaveReleased(waveId: Option<string>, priority: Option<string>,
                                       orderIds: Option<seq<string>>, zoneId: Option<string>)

  /** The anti-corruption mapping: the five names, upper case and exact, map
    * to the same-named priority, any other label to NORMAL; a null label is
    * a NullPointerException in the switch (None). */
  function MapPriority(external: Option<string>): (r: Option<Priority>)
    ensures r.None? <==> external.None?
    ensures r.Some? && r.value != Normal ==> Priorities.Name(r.value) == external.value
    ensures external.Some? ==> forall p :: Priorities.Name(p) == external.value ==> r == Some(p)
  {
    match external
    case None => None
    case Some(s) =>
      if s == "URGENT" then Some(Urgent)
      else if s == "HIGH" then Some(High)
      else if s == "NORMAL" then Some(Normal)
      else if s == "LOW" then Some(Low)
      else if s == "CRITICAL" then Some(Critical)
      else Some(Normal)
  }

  /** Unlike the lenient parser, the mapping is case-sensitive. */
  lemma MapPriorityIsCaseSensitive()
    ensures MapPriority(Some("urgent")) == Some(Normal)
    ensures FromString(Some("urgent")) == Urgent
  {
    assert ToUpper("urgent") == "URGENT";
  }

  const ConsumerWarehouse := "WH-001"
  const ConsumerLocation := Location("A", "01", "01", Some("01"))
  /** Fifteen minutes and two hours, in seconds. */
  const ConsumerDuration := 15 * 60
  const ConsumerDeadlineOffset := 2 * 3600

  /** The command the consumer builds for one order, given the pick
    * instructions of its context; building the context fails on a null
    * wave id. */
  function ConsumerCommand(waveId: Option<string>, orderId: string, priority: Priority,
                           zoneId: Option<string>, instructions: seq<PickInstruction>, now: int)
    : (r: Result<CreateTaskCommand, string>)
    ensures r.Err? <==> waveId.None?
    ensures (r.Ok? ==>
      && r.value.taskType == Some(Pick) && r.value.warehouseId == Some(ConsumerWarehouse)
      && r.value.zone == zoneId && r.value.location == Some(ConsumerLocation)
      && r.value.priority == Some(priority) && r.value.referenceId == waveId
      && r.value.estimatedDuration == Some(ConsumerDuration)
      && r.value.deadline == Some(now + ConsumerDeadlineOffset)
      && r.value.context.Some? && r.value.context.value.PickCtx?
      && r.value.context.value.pick.waveId == waveId
      && r.value.context.value.pick.orderId == Some(orderId)
      && r.value.context.value.pick.strategy == Some(Discrete)
      && r.value.context.value.pick.instructions == instructions)
  {
    match NewPickContext(waveId, Some(orderId), Some(Discrete), instructions)
    case Err(e) => Err(e)
    case Ok(ctx) =>
      Ok(CreateTaskCommand(Some(Pick), Some(ConsumerWarehouse), zoneId, Some(ConsumerLocation), Some(priority),
                           waveId, Some(ConsumerDuration), Some(now + ConsumerDeadlineOffset), Some(PickCtx(ctx))))
  }

  /** The command as written: a context with no pick instructions. */
  function WrittenPickCommand(waveId: Option<string>, orderId: string, priority: Priority,
                              zoneId: Option<string>, now: int): (r: Result<CreateTaskCommand, string>)
    ensures r.Ok? ==> r.value.context.Some? && r.value.context.value.PickCtx?
                      && r.value.context.value.pick.instructions == []
  {
    ConsumerCommand(waveId, orderId, priority, zoneId, [], now)
  }

  /** Task creation refuses every command the consumer writes: pick
    * validation requires at least one instruction. */
  lemma WrittenPickCommandRefused(waveId: Option<string>, orderId: string, priority: Priority,
                                  zoneId: Option<string>, now: int)
    ensures (var r := WrittenPickCommand(waveId, orderId, priority, zoneId, now);
             r.Ok? ==> !Acceptable(r.value))
    ensures (var r := WrittenPickCommand(waveId, orderId, priority, zoneId, now);
             r.Ok? && !NullOrBlank(waveId) && !IsBlank(orderId) ==>
               Validate(r.value.context.value).error == "Pick instructions cannot be empty")
  {
  }

  /** So a wave with at least one order fails at its first order and creates
    * no task at all. */
  lemma WrittenWaveCreatesNothing(s: Sys, w: WaveReleased, ids: seq<string>, now: int)
    requires w.orderIds.Some? && w.priority.Some? && |ids| == |w.orderIds.value| > 0
    ensures (var cmds := Commands(w, WrittenInstructions, now);
             var r := CreateUntilFailure(s, ids, cmds, now);
             r.outcome.Fail? && r.next == s)
  {
    var cmds := Commands(w, WrittenInstructions, now);
    var n := |cmds|;
    WrittenPickCommandRefused(w.waveId, w.orderIds.value[0], MapPriority(w.priority).value, w.zoneId, now);
    assert CreateUntilFailure(s, ids[..0], cmds[..0], now) == Delivery(Pass, s);
    assert ids[..1][..0] == ids[..0] && cmds[..1][..0] == cmds[..0];
    var first := CreateUntilFailure(s, ids[..1], cmds[..1], now);
    assert first.outcome.Fail? && first.next == s by {
      if cmds[0].Ok? {
        CreateAcceptsAcceptable(s, ids[0], cmds[0].value, now);
      }
    }
    FailureSticks(s, ids, cmds, now, 1);
  }

  /** The placeholder instruction a complete consumer would give each order,
    * as the map-based handler does: one unit of a placeholder SKU at the
    * default location, on the order's licence plate. */
  function PlaceholderInstruction(orderId: string, location: Location): (i: PickInstruction)
    ensures ValidatePickInstruction(i).Pass?
    ensures i.quantity == 1 && i.location == Some(location)
  {
    assert !IsWhitespace("SKU-PLACEHOLDER"[0]);
    PickInstruction(Some("SKU-PLACEHOLDER"), 1, Some(location), Some("LPN-" + orderId))
  }

  function WrittenInstructions(orderId: string): seq<PickInstruction> {
    []
  }

  function IntendedInstructions(orderId: string): seq<PickInstruction> {
    [PlaceholderInstruction(orderId, ConsumerLocation)]
  }

  /** The corrected command: one placeholder instruction per order. */
  function IntendedPickCommand(waveId: Option<string>, orderId: string, priority: Priority,
                               zoneId: Option<string>, now: int): (r: Result<CreateTaskCommand, string>)
    ensures r.Ok? ==> r.value.context.Some? && r.value.context.value.PickCtx?
                      && |r.value.context.value.pick.instructions| == 1
  {
    ConsumerCommand(waveId, orderId, priority, zoneId, IntendedInstructions(orderId), now)
  }

  /** Task creation accepts the corrected command exactly when the wave and
    * order ids are not blank. */
  lemma IntendedPickCommandAcceptable(waveId: Option<string>, orderId: string, priority: Priority,
                                      zoneId: Option<string>, now: int)
    ensures (var r := IntendedPickCommand(waveId, orderId, priority, zoneId, now);
             r.Ok? && Acceptable(r.value) <==> !NullOrBlank(waveId) && !IsBlank(orderId))
  {
    var r := IntendedPickCommand(waveId, orderId, priority, zoneId, now);
    if r.Ok? {
      assert ValidatePickInstruction(r.value.context.value.pick.instructions[0]).Pass?;
    }
  }

  /** ... and the task it creates is a queued pick for the wave. */
  lemma IntendedPickCommandCreates(s: Sys, taskId: string, waveId: Option<string>, orderId: string,
                                   priority: Priority, zoneId: Option<string>, now: int)
    requires !NullOrBlank(waveId) && !IsBlank(orderId)
    ensures (var r := IntendedPickCommand(waveId, orderId, priority, zoneId, now);
             && r.Ok?
             && var reply := CreateCommand(s, taskId, r.value, now);
             && reply.result.Ok?
             && var d := reply.result.value.next;
             && d.taskType == Pick && d.status == Queued && d.warehouseId == ConsumerWarehouse
             && d.referenceId == waveId.value && d.priority == priority && d.zone == zoneId
             && d.deadline == Some(now + ConsumerDeadlineOffset))
  {
    IntendedPickCommandAcceptable(waveId, orderId, priority, zoneId, now);
    var r := IntendedPickCommand(waveId, orderId, priority, zoneId, now);
    CreateAcceptsAcceptable(s, taskId, r.value, now);
  }

  /** The command list for a wave: one per order id, in order. */
  function Commands(w: WaveReleased, instructions: string -> seq<PickInstruction>, now: int)
    : (r: seq<Result<CreateTaskCommand, string>>)
    requires w.orderIds.Some? && w.priority.Some?
    ensures |r| == |w.orderIds.value|
    ensures (forall k | 0 <= k < |r| ::
               r[k] == ConsumerCommand(w.waveId, w.orderIds.value[k], MapPriority(w.priority).value,
                                       w.zoneId, instructions(w.orderIds.value[k]), now))
  {
    seq(|w.orderIds.value|, k requires 0 <= k < |w.orderIds.value| =>
      ConsumerCommand(w.waveId, w.orderIds.value[k], MapPriority(w.priority).value, w.zoneId,
                      instructions(w.orderIds.value[k]), now))
  }

  function OrderIds(orderIds: Option<seq<string>>): seq<string> {
    orderIds.UnwrapOr([])
  }

  /** The message of the exception the consumer rethrows. */
  const ProcessingFailed := "Failed to process wave released event"

  /** handleWaveEvent: other event types are ignored; a missing order list
    * or priority throws before any task is created; otherwise one task per
    * order, in order, until the first that cannot be created, which fails
    * the whole event (tasks created before it stay). The commands carry the
    * corrected context. */
  function ConsumerOutcome(s: Sys, eventType: string, w: WaveReleased, ids: seq<string>, now: int): (r: Delivery)
    requires |ids| == |OrderIds(w.orderIds)|
    ensures eventType != WaveReleasedType ==> r == Delivery(Pass, s)
    ensures (eventType == WaveReleasedType && (w.orderIds.None? || w.priority.None?)
             ==> r == Delivery(Fail(ProcessingFailed), s))
    ensures r.outcome.Fail? ==> r.outcome.error == ProcessingFailed
  {
    if eventType != WaveReleasedType then Delivery(Pass, s)
    else if w.orderIds.None? || w.priority.None? then Delivery(Fail(ProcessingFailed), s)
    else
      var run := CreateUntilFailure(s, ids, Commands(w, IntendedInstructions, now), now);
      if run.outcome.Fail? then Delivery(Fail(ProcessingFailed), run.next) else run
  }

  /** Whether the corrected consumer can create the task of one order. */
  predicate ConsumerOrderOk(w: WaveReleased, orderId: string) {
    !NullOrBlank(w.waveId) && !IsBlank(orderId)
  }

  /** A wave of the handled type with an order list and a priority succeeds
    * exactly when every order can be created, and then every order's task
    * is stored and queued. */
  lemma ConsumerCreatesEveryOrder(s: Sys, w: WaveReleased, ids: seq<string>, now: int)
    requires w.orderIds.Some? && w.priority.Some? && |ids| == |w.orderIds.value|
    ensures (var r := ConsumerOutcome(s, WaveReleasedType, w, ids, now);
      && (r.outcome.Pass? <==> forall k | 0 <= k < |ids| :: ConsumerOrderOk(w, w.orderIds.value[k]))
      && (r.outcome.Pass? ==>
            && r.next.repository.Keys == s.repository.Keys + (set k | 0 <= k < |ids| :: ids[k])
            && forall k | 0 <= k < |ids| :: r.next.repository[ids[k]].status == Queued))
  {
    var cmds := Commands(w, IntendedInstructions, now);
    var run := CreateUntilFailure(s, ids, cmds, now);
    var r := ConsumerOutcome(s, WaveReleasedType, w, ids, now);
    assert r == if run.outcome.Fail? then Delivery(Fail(ProcessingFailed), run.next) else run;
    ConsumerAccepts(w, now);
    if run.outcome.Pass? {
      UntilPassIsEach(s, ids, cmds, now);
      EveryOrderCreated(s, ids, cmds, now);
    }
  }

  /** When every command is accepted, every id gets a queued task. */
  lemma EveryOrderCreated(s: Sys, ids: seq<string>, cmds: seq<Result<CreateTaskCommand, string>>, now: int)
    requires |ids| == |cmds| && AllAccepted(cmds)
    ensures (var r := CreateEach(s, ids, cmds, now);
      && r.repository.Keys == s.repository.Keys + (set k | 0 <= k < |ids| :: ids[k])
      && forall k | 0 <= k < |ids| :: r.repository[ids[k]].status == Queued)
  {
    CreatedIsAccepted(ids, cmds);
    assert Created(ids, cmds) == set k | 0 <= k < |ids| :: ids[k];
  }

  /** Every command of a wave is accepted exactly when every order can be
    * created. */
  lemma ConsumerAccepts(w: WaveReleased, now: int)
    requires w.orderIds.Some? && w.priority.Some?
    ensures (var cmds := Commands(w, IntendedInstructions, now);
      && (forall k | 0 <= k < |cmds| ::
            cmds[k].Ok? && Acceptable(cmds[k].value) <==> ConsumerOrderOk(w, w.orderIds.value[k]))
      && (AllAccepted(cmds) <==> forall k | 0 <= k < |cmds| :: ConsumerOrderOk(w, w.orderIds.value[k])))
  {
    var cmds := Commands(w, IntendedInstructions, now);
    forall k | 0 <= k < |cmds|
      ensures cmds[k].Ok? && Acceptable(cmds[k].value) <==> ConsumerOrderOk(w, w.orderIds.value[k])
    {
      IntendedPickCommandAcceptable(w.waveId, w.orderIds.value[k], MapPriority(w.priority).value, w.zoneId, now);
    }
  }

  /** With fresh, distinct ids the consumer keeps the service consistent. */
  lemma ConsumerKeepsConsistent(s: Sys, eventType: string, w: WaveReleased, ids: seq<string>, now: int)
    requires |ids| == |OrderIds(w.orderIds)| && Consistent(s) && Distinct(ids)
    requires forall id | id in ids :: id !in s.repository
    ensures Consistent(ConsumerOutcome(s, eventType, w, ids, now).next)
  {
    if eventType == WaveReleasedType && w.orderIds.Some? && w.priority.Some? {
      CreateUntilFailureKeepsConsistent(s, ids, Commands(w, IntendedInstructions, now), now);
    }
  }

  class WaveEventConsumer {
    const taskService: TaskManagementService

    constructor (taskService: TaskManagementService)
      ensures this.taskService == taskService
    {
      this.taskService := taskService;
    }

    /** handleWaveEvent, with the wave's contract already decoded. */
    method HandleWaveEvent(eventType: string, w: WaveReleased, taskIds: seq<string>, now: int)
      returns (r: Outcome<string>)
      requires |taskIds| == |OrderIds(w.orderIds)|
      modifies taskService, taskService.queueManager
      ensures r == ConsumerOutcome(old(taskService.State()), eventType, w, taskIds, now).outcome
      ensures taskService.State() == ConsumerOutcome(old(taskService.State()), eventType, w, taskIds, now).next
    {
      if eventType != WaveReleasedType {
        return Pass;
      }
      if w.orderIds.None? || w.priority.None? {
        return Fail(ProcessingFailed);
      }
      var priority := MapPriority(w.priority).value;
      var orders := w.orderIds.value;
      ghost var before := taskService.State();
      ghost var cmds := Commands(w, IntendedInstructions, now);
      for k := 0 to |orders|
        invariant taskService.State() == CreateUntilFailure(before, taskIds[..k], cmds[..k], now).next
        invariant CreateUntilFailure(before, taskIds[..k], cmds[..k], now).outcome.Pass?
      {
        var command := IntendedPickCommand(w.waveId, orders[k], priority, w.zoneId, now);
        assert command == cmds[k];
        assert taskIds[..k + 1][..k] == taskIds[..k] && cmds[..k + 1][..k] == cmds[..k];
        if command.Err? {
          UntilStep(before, taskIds, cmds, now, k);
          FailureSticks(before, taskIds, cmds, now, k + 1);
          return Fail(ProcessingFailed);
        }
        ghost var attempt := Attempt(taskService.State(), taskIds[k], command, now);
        UntilStep(before, taskIds, cmds, now, k);
        AttemptCreates(taskService.State(), taskIds[k], command.value, now);
        var created := taskService.CreateTask(taskIds[k], command.value, now);
        assert taskService.State() == attempt.next && (created.Ok? <==> attempt.outcome.Pass?);
        if created.Err? {
          FailureSticks(before, taskIds, cmds, now, k + 1);
          return Fail(ProcessingFailed);
        }
      }
      assert taskIds[..|orders|] == taskIds && cmds[..|orders|] == cmds;
      return Pass;
    }
  }

  // ----------------------------------------------------------- the handler

  /** The event type the map-based handler reacts to. */
  const HandlerEventType := "WaveReleasedEvent"

  /** Ten minutes, in seconds. */
  const HandlerDuration := 10 * 60

  /** The fields the handler reads from the event map. */
  datatype WaveEventData = WaveEventData(eventType: Option<string>, waveId: Option<string>,
                                         warehouseId: Option<string>, assignedZone: Option<string>,
                                         priority: Option<string>, orderIds: Option<seq<string>>)

  /** NORMAL when absent; otherwise the constant with exactly that name, and
    * None where Priority.valueOf throws. */
  function HandlerPriority(name: Option<string>): (r: Option<Priority>)
    ensures name.None? ==> r == Some(Normal)
    ensures r.None? <==> name.Some? && forall p :: Priorities.Name(p) != name.value
    ensures r.Some? && name.Some? ==> Priorities.Name(r.value) == name.value
  {
    match name
    case None => Some(Normal)
    case Some(n) => Priorities.ValueOf(n)
  }

  /** createPickTask's command: one placeholder instruction at
    * (zone, "01", "01", "01"), the event's warehouse and zone, the wave as
    * reference, ten minutes and no deadline. A null zone fails the
    * location, a null wave id the context. */
  function HandlerCommand(waveId: Option<string>, warehouseId: Option<string>, zone: Option<string>,
                          orderId: string, priority: Priority): (r: Result<CreateTaskCommand, string>)
    ensures r.Ok? <==> zone.Some? && waveId.Some?
    ensures (r.Ok? ==>
      var loc := Location(zone.value, "01", "01", Some("01"));
      && r.value.taskType == Some(Pick) && r.value.warehouseId == warehouseId && r.value.zone == zone
      && r.value.location == Some(loc) && r.value.priority == Some(priority)
      && r.value.referenceId == waveId && r.value.estimatedDuration == Some(HandlerDuration)
      && r.value.deadline.None?
      && r.value.context == Some(PickCtx(NewPickContext(waveId, Some(orderId), Some(Discrete),
                                                        [PlaceholderInstruction(orderId, loc)]).value)))
  {
    match NewLocation(zone, Some("01"), Some("01"), Some("01"))
    case Err(e) => Err(e)
    case Ok(loc) =>
      match NewPickContext(waveId, Some(orderId), Some(Discrete), [PlaceholderInstruction(orderId, loc)])
      case Err(e) => Err(e)
      case Ok(ctx) =>
        Ok(CreateTaskCommand(Some(Pick), warehouseId, zone, Some(loc), Some(priority), waveId,
                             Some(HandlerDuration), None, Some(PickCtx(ctx))))
  }

  /** Whether the handler can create the task of one order. */
  predicate HandlerOrderOk(e: WaveEventData, orderId: string) {
    e.warehouseId.Some? && e.assignedZone.Some? && !NullOrBlank(e.waveId) && !IsBlank(orderId)
  }

  /** The placeholder context passes pick validation, so a command is
    * accepted exactly when warehouse, zone, wave and order are given. */
  lemma HandlerCommandAccepted(e: WaveEventData, orderId: string, priority: Priority)
    ensures (var r := HandlerCommand(e.waveId, e.warehouseId, e.assignedZone, orderId, priority);
             r.Ok? && Acceptable(r.value) <==> HandlerOrderOk(e, orderId))
  {
    var r := HandlerCommand(e.waveId, e.warehouseId, e.assignedZone, orderId, priority);
    if r.Ok? {
      assert ValidatePickInstruction(r.value.context.value.pick.instructions[0]).Pass?;
    }
  }

  /** The command list, or None where the event is ignored (other type) or
    * the handler aborts before the loop (unknown priority, no order list). */
  function HandlerCommands(e: WaveEventData): (r: Option<seq<Result<CreateTaskCommand, string>>>)
    ensures (r.Some? <==>
               e.eventType == Some(HandlerEventType) && HandlerPriority(e.priority).Some? && e.orderIds.Some?)
    ensures r.Some? ==> |r.value| == |e.orderIds.value|
    ensures (r.Some? ==> forall k | 0 <= k < |r.value| ::
               r.value[k] == HandlerCommand(e.waveId, e.warehouseId, e.assignedZone, e.orderIds.value[k],
                                            HandlerPriority(e.priority).value))
  {
    if e.eventType != Some(HandlerEventType) then None
    else match HandlerPriority(e.priority)
      case None => None
      case Some(p) =>
        match e.orderIds
        case None => None
        case Some(orders) =>
          Some(seq(|orders|, k requires 0 <= k < |orders| =>
                 HandlerCommand(e.waveId, e.warehouseId, e.assignedZone, orders[k], p)))
  }

  /** handleWaveReleased: nothing when ignored or aborted; otherwise one
    * create per order, each failure logged and skipped. */
  function HandlerOutcome(s: Sys, e: WaveEventData, ids: seq<string>, now: int): (r: Sys)
    requires |ids| == |OrderIds(e.orderIds)|
    ensures HandlerCommands(e).None? ==> r == s
  {
    match HandlerCommands(e)
    case None => s
    case Some(cmds) => CreateEach(s, ids, cmds, now)
  }

  /** The handler stores a task for exactly the orders that can be created,
    * whatever happens to the others. */
  lemma HandlerCreatesValidOrders(s: Sys, e: WaveEventData, ids: seq<string>, now: int)
    requires e.eventType == Some(HandlerEventType) && HandlerPriority(e.priority).Some? && e.orderIds.Some?
    requires |ids| == |e.orderIds.value|
    ensures (var r := HandlerOutcome(s, e, ids, now);
      && r.repository.Keys ==
           s.repository.Keys + (set k | 0 <= k < |ids| && HandlerOrderOk(e, e.orderIds.value[k]) :: ids[k])
      && forall k | 0 <= k < |ids| && HandlerOrderOk(e, e.orderIds.value[k]) :: r.repository[ids[k]].status == Queued)
  {
    var cmds := HandlerCommands(e).value;
    forall k | 0 <= k < |ids|
      ensures cmds[k].Ok? && Acceptable(cmds[k].value) <==> HandlerOrderOk(e, e.orderIds.value[k])
    {
      HandlerCommandAccepted(e, e.orderIds.value[k], HandlerPriority(e.priority).value);
    }
    CreatedIsAccepted(ids, cmds);
  }

  /** With fresh, distinct ids the handler keeps the service consistent. */
  lemma HandlerKeepsConsistent(s: Sys, e: WaveEventData, ids: seq<string>, now: int)
    requires |ids| == |OrderIds(e.orderIds)| && Consistent(s) && Distinct(ids)
    requires forall id | id in ids :: id !in s.repository
    ensures Consistent(HandlerOutcome(s, e, ids, now))
  {
    if HandlerCommands(e).Some? {
      CreateEachKeepsConsistent(s, ids, HandlerCommands(e).value, now);
    }
  }

  class WaveEventHandler {
    const taskService: TaskManagementService

    constructor (taskService: TaskManagementService)
      ensures this.taskService == taskService
    {
      this.taskService := taskService;
    }

    /** handleWaveReleased, with the event map already read into fields. */
    method HandleWaveReleased(e: WaveEventData, taskIds: seq<string>, now: int)
      requires |taskIds| == |OrderIds(e.orderIds)|
      modifies taskService, taskService.queueManager
      ensures taskService.State() == HandlerOutcome(old(taskService.State()), e, taskIds, now)
    {
      if e.eventType != Some(HandlerEventType) {
        return;
      }
      var priority := HandlerPriority(e.priority);
      if priority.None? || e.orderIds.None? {
        return;
      }
      var orders := e.orderIds.value;
      ghost var before := taskService.State();
      ghost var cmds := HandlerCommands(e).value;
      for k := 0 to |orders|
        invariant taskService.State() == CreateEach(before, taskIds[..k], cmds[..k], now)
      {
        var command := HandlerCommand(e.waveId, e.warehouseId, e.assignedZone, orders[k], priority.value);
        assert command == cmds[k];
        assert taskIds[..k + 1][..k] == taskIds[..k] && cmds[..k + 1][..k] == cmds[..k];
        if command.Ok? {
          var created := taskService.CreateTask(taskIds[k], command.value, now);
        }
      }
      assert taskIds[..|orders|] == taskIds && cmds[..|orders|] == cmds;
    }
  }
}
