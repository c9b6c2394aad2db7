/*
 * Type-specific task data: a tagged union of seven contexts, each with its
 * guard-chain validation, its flat metadata map and its complexity score.
 *
 * Contexts, their instructions and their items are modelled as values, and
 * their setters as functional updates.
 */
module TaskContexts {
  import opened Wrappers
  import opened JavaText
  import opened Locations
  import opened TaskTypes

  // --------------------------------------------------------------- metadata

  /** The values a metadata map holds: null, String, an integral Number,
    * Boolean, LocalDateTime (as seconds), or a fractional Number (which
    * getMetadata never produces, but a caller's context map may hold). */
  datatype MetaValue = Null | Str(s: string) | Int(i: int) | Bool(b: bool) | Time(t: int) | Real(r: real)

  type Metadata = map<string, MetaValue>

  function OptStr(s: Option<string>): MetaValue {
    if s.Some? then Str(s.value) else Null
  }

  /** A location as its code, or null. */
  function OptCode(l: Option<Location>): MetaValue {
    if l.Some? then Str(LocationCode(l.value)) else Null
  }

  /** `list.forEach(X::validate)`: the first failure in list order, if any. */
  function ValidateAll<T>(xs: seq<T>, check: T -> Outcome<string>): (r: Outcome<string>)
    ensures r.Pass? <==> forall k | 0 <= k < |xs| :: check(xs[k]).Pass?
    ensures r.Fail? ==> exists k | 0 <= k < |xs| ::
      check(xs[k]) == r && forall j | 0 <= j < k :: check(xs[j]).Pass?
  {
    if |xs| == 0 then Pass
    else if check(xs[0]).Fail? then check(xs[0])
    else
      var rest := ValidateAll(xs[1..], check);
      assert forall k | 1 <= k < |xs| :: xs[k] == xs[1..][k - 1];
      rest
  }

  // ------------------------------------------------------------------ pick

  datatype PickStrategy = Discrete | Batch | Zone | Wave | Cluster

  function PickStrategyName(s: PickStrategy): string {
    match s
    case Discrete => "DISCRETE"
    case Batch => "BATCH"
    case Zone => "ZONE"
    case Wave => "WAVE"
    case Cluster => "CLUSTER"
  }

  datatype PickInstruction =
    PickInstruction(sku: Option<string>, quantity: int, location: Option<Location>, lpn: Option<string>)

  datatype PickTaskContext = PickTaskContext(
    waveId: Option<string>,
    orderId: Option<string>,
    strategy: Option<PickStrategy>,
    instructions: seq<PickInstruction>,
    isMultiOrder: bool,
    totalQuantity: int)

  /** The exact sum of the instruction quantities. */
  function SumQuantities(xs: seq<PickInstruction>): int {
    if |xs| == 0 then 0 else SumQuantities(xs[..|xs| - 1]) + xs[|xs| - 1].quantity
  }

  /** `mapToInt(PickInstruction::getQuantity).sum()`, an int sum that wraps. */
  function TotalQuantity(xs: seq<PickInstruction>): int {
    Wrap32(SumQuantities(xs))
  }

  /** The no-argument constructor: an empty instruction list, all else unset. */
  function EmptyPickContext(): (c: PickTaskContext)
    ensures c.instructions == [] && c.totalQuantity == 0 && !c.isMultiOrder
  {
    PickTaskContext(None, None, None, [], false, 0)
  }

  /** The four-argument constructor: every argument must be non-null; the
    * context is single-order and its total is the instructions' sum. */
  function NewPickContext(waveId: Option<string>, orderId: Option<string>,
                          strategy: Option<PickStrategy>, instructions: seq<PickInstruction>)
    : (r: Result<PickTaskContext, string>)
    ensures r.Ok? <==> waveId.Some? && orderId.Some? && strategy.Some?
    ensures r.Ok? ==> (r.value.waveId == waveId && r.value.orderId == orderId
      && r.value.strategy == strategy && r.value.instructions == instructions
      && !r.value.isMultiOrder && r.value.totalQuantity == TotalQuantity(instructions))
    ensures waveId.None? ==> r == Err("Wave ID cannot be null")
  {
    if waveId.None? then Err("Wave ID cannot be null")
    else if orderId.None? then Err("Order ID cannot be null")
    else if strategy.None? then Err("Pick strategy cannot be null")
    else Ok(PickTaskContext(waveId, orderId, strategy, instructions, false, TotalQuantity(instructions)))
  }

  /** setInstructions: replaces the list and recomputes the total. */
  function WithInstructions(c: PickTaskContext, xs: seq<PickInstruction>): (r: PickTaskContext)
    ensures r.instructions == xs && r.totalQuantity == TotalQuantity(xs)
    ensures r.(instructions := c.instructions, totalQuantity := c.totalQuantity) == c
  {
    c.(instructions := xs, totalQuantity := TotalQuantity(xs))
  }

  function ValidatePickInstruction(i: PickInstruction): (r: Outcome<string>)
    ensures r.Pass? <==> !NullOrBlank(i.sku) && i.quantity > 0 && i.location.Some?
  {
    if NullOrBlank(i.sku) then Fail("SKU is required")
    else if i.quantity <= 0 then Fail("Quantity must be positive")
    else if i.location.None? then Fail("Pick location is required")
    else Pass
  }

  function ValidatePick(c: PickTaskContext): (r: Outcome<string>)
    ensures r.Pass? <==> (!NullOrBlank(c.waveId) && !NullOrBlank(c.orderId) && |c.instructions| > 0
      && forall k | 0 <= k < |c.instructions| :: ValidatePickInstruction(c.instructions[k]).Pass?)
    ensures NullOrBlank(c.waveId) ==> r == Fail("Wave ID is required for pick tasks")
    ensures !NullOrBlank(c.waveId) && NullOrBlank(c.orderId) ==> r == Fail("Order ID is required for pick tasks")
    ensures !NullOrBlank(c.waveId) && !NullOrBlank(c.orderId) && |c.instructions| == 0
      ==> r == Fail("Pick instructions cannot be empty")
    ensures !NullOrBlank(c.waveId) && !NullOrBlank(c.orderId) && |c.instructions| > 0
      ==> r == ValidateAll(c.instructions, ValidatePickInstruction)
  {
    if NullOrBlank(c.waveId) then Fail("Wave ID is required for pick tasks")
    else if NullOrBlank(c.orderId) then Fail("Order ID is required for pick tasks")
    else if |c.instructions| == 0 then Fail("Pick instructions cannot be empty")
    else ValidateAll(c.instructions, ValidatePickInstruction)
  }

  function PickMetadata(c: PickTaskContext): (m: Metadata)
    ensures m.Keys == {"waveId", "orderId", "strategy", "instructionCount", "totalQuantity", "isMultiOrder"}
    ensures m["instructionCount"] == Int(|c.instructions|)
    ensures m["totalQuantity"] == Int(c.totalQuantity) && m["isMultiOrder"] == Bool(c.isMultiOrder)
    ensures m["strategy"] == (if c.strategy.Some? then Str(PickStrategyName(c.strategy.value)) else Null)
  {
    map["waveId" := OptStr(c.waveId),
        "orderId" := OptStr(c.orderId),
        "strategy" := if c.strategy.Some? then Str(PickStrategyName(c.strategy.value)) else Null,
        "instructionCount" := Int(|c.instructions|),
        "totalQuantity" := Int(c.totalQuantity),
        "isMultiOrder" := Bool(c.isMultiOrder)]
  }

  /** 1 + 0.1 per instruction + 0.05 per unit, times 1.3 for multi-order picks. */
  function PickComplexity(c: PickTaskContext): real {
    var score := 1.0 + |c.instructions| as real * 0.1 + c.totalQuantity as real * 0.05;
    if c.isMultiOrder then score * 1.3 else score
  }

  lemma PickComplexityAtLeastOne(c: PickTaskContext)
    requires c.totalQuantity >= 0
    ensures PickComplexity(c) >= 1.0
  {
  }

  /** More instructions or more units never make a pick simpler. */
  lemma PickComplexityMonotone(c: PickTaskContext, d: PickTaskContext)
    requires c.isMultiOrder == d.isMultiOrder
    requires |c.instructions| <= |d.instructions| && c.totalQuantity <= d.totalQuantity
    ensures PickComplexity(c) <= PickComplexity(d)
  {
  }

  // ------------------------------------------------------------------ pack

  datatype PackStrategy = SingleOrder | MultiOrder | Consolidation | Express

  function PackStrategyName(s: PackStrategy): string {
    match s
    case SingleOrder => "SINGLE_ORDER"
    case MultiOrder => "MULTI_ORDER"
    case Consolidation => "CONSOLIDATION"
    case Express => "EXPRESS"
  }

  datatype PackItem = PackItem(
    sku: Option<string>, quantity: int, isFragile: bool, requiresBubbleWrap: bool, containerType: Option<string>)

  datatype PackTaskContext = PackTaskContext(
    orderId: Option<string>,
    shipmentId: Option<string>,
    strategy: Option<PackStrategy>,
    items: seq<PackItem>,
    packStationId: Option<string>,
    requiresGiftWrap: bool,
    requiresFragileHandling: bool,
    totalItems: int)

  function EmptyPackContext(): (c: PackTaskContext)
    ensures c.items == [] && c.totalItems == 0 && c.orderId.None?
  {
    PackTaskContext(None, None, None, [], None, false, false, 0)
  }

  /** The four-argument constructor: orderId, strategy and items must be
    * non-null, the shipment may be null; totalItems is the item count. */
  function NewPackContext(orderId: Option<string>, shipmentId: Option<string>,
                          strategy: Option<PackStrategy>, items: seq<PackItem>)
    : (r: Result<PackTaskContext, string>)
    ensures r.Ok? <==> orderId.Some? && strategy.Some?
    ensures r.Ok? ==> (r.value.orderId == orderId && r.value.shipmentId == shipmentId
      && r.value.strategy == strategy && r.value.items == items && r.value.totalItems == |items|
      && !r.value.requiresGiftWrap && !r.value.requiresFragileHandling && r.value.packStationId.None?)
  {
    if orderId.None? then Err("Order ID cannot be null")
    else if strategy.None? then Err("Pack strategy cannot be null")
    else Ok(PackTaskContext(orderId, shipmentId, strategy, items, None, false, false, |items|))
  }

  /** setItems: replaces the list and its count. */
  function WithItems(c: PackTaskContext, items: seq<PackItem>): (r: PackTaskContext)
    ensures r.items == items && r.totalItems == |items|
    ensures r.(items := c.items, totalItems := c.totalItems) == c
  {
    c.(items := items, totalItems := |items|)
  }

  function ValidatePackItem(i: PackItem): (r: Outcome<string>)
    ensures r.Pass? <==> !NullOrBlank(i.sku) && i.quantity > 0
  {
    if NullOrBlank(i.sku) then Fail("SKU is required")
    else if i.quantity <= 0 then Fail("Quantity must be positive")
    else Pass
  }

  function ValidatePack(c: PackTaskContext): (r: Outcome<string>)
    ensures r.Pass? <==> (!NullOrBlank(c.orderId) && |c.items| > 0
      && forall k | 0 <= k < |c.items| :: ValidatePackItem(c.items[k]).Pass?)
  {
    if NullOrBlank(c.orderId) then Fail("Order ID is required for pack tasks")
    else if |c.items| == 0 then Fail("Pack items cannot be empty")
    else ValidateAll(c.items, ValidatePackItem)
  }

  function PackMetadata(c: PackTaskContext): (m: Metadata)
    ensures m.Keys == {"orderId", "shipmentId", "strategy", "itemCount", "packStationId",
                       "requiresGiftWrap", "requiresFragileHandling"}
    ensures m["itemCount"] == Int(|c.items|) && m["orderId"] == OptStr(c.orderId)
    ensures m["requiresGiftWrap"] == Bool(c.requiresGiftWrap)
    ensures m["requiresFragileHandling"] == Bool(c.requiresFragileHandling)
  {
    map["orderId" := OptStr(c.orderId),
        "shipmentId" := OptStr(c.shipmentId),
        "strategy" := if c.strategy.Some? then Str(PackStrategyName(c.strategy.value)) else Null,
        "itemCount" := Int(|c.items|),
        "packStationId" := OptStr(c.packStationId),
        "requiresGiftWrap" := Bool(c.requiresGiftWrap),
        "requiresFragileHandling" := Bool(c.requiresFragileHandling)]
  }

  /** 1 + 0.15 per item, then times 1.2 for gift wrap and 1.3 for fragile goods. */
  function PackComplexity(c: PackTaskContext): real {
    var score := 1.0 + |c.items| as real * 0.15;
    var wrapped := if c.requiresGiftWrap then score * 1.2 else score;
    if c.requiresFragileHandling then wrapped * 1.3 else wrapped
  }

  /** Packing is never simpler than the base, and strictly harder with items. */
  lemma PackComplexityAboveBase(c: PackTaskContext)
    ensures PackComplexity(c) >= 1.0
    ensures |c.items| > 0 ==> PackComplexity(c) > 1.0
  {
  }

  // --------------------------------------------------------------- putaway

  datatype PutawayTaskContext = PutawayTaskContext(
    receiptId: Option<string>,
    lpn: Option<string>,
    sku: Option<string>,
    quantity: int,
    destinationLocation: Option<Location>,
    storageType: Option<string>)

  function ValidatePutaway(c: PutawayTaskContext): (r: Outcome<string>)
    ensures r.Pass? <==> (!NullOrBlank(c.receiptId) && !NullOrBlank(c.lpn) && !NullOrBlank(c.sku)
      && c.quantity > 0 && c.destinationLocation.Some?)
    ensures !NullOrBlank(c.receiptId) && !NullOrBlank(c.lpn) && !NullOrBlank(c.sku) && c.quantity <= 0
      ==> r == Fail("Quantity must be positive")
  {
    if NullOrBlank(c.receiptId) then Fail("Receipt ID is required for putaway tasks")
    else if NullOrBlank(c.lpn) then Fail("LPN is required")
    else if NullOrBlank(c.sku) then Fail("SKU is required")
    else if c.quantity <= 0 then Fail("Quantity must be positive")
    else if c.destinationLocation.None? then Fail("Destination location is required")
    else Pass
  }

  function PutawayMetadata(c: PutawayTaskContext): (m: Metadata)
    ensures m.Keys == {"receiptId", "lpn", "sku", "quantity", "destinationLocation", "storageType"}
    ensures m["receiptId"] == OptStr(c.receiptId)
    ensures m["destinationLocation"] == OptCode(c.destinationLocation)
  {
    map["receiptId" := OptStr(c.receiptId),
        "lpn" := OptStr(c.lpn),
        "sku" := OptStr(c.sku),
        "quantity" := Int(c.quantity),
        "destinationLocation" := OptCode(c.destinationLocation),
        "storageType" := OptStr(c.storageType)]
  }

  // ------------------------------------------------------------- replenish

  datatype ReplenishTaskContext = ReplenishTaskContext(
    sku: Option<string>,
    quantity: int,
    sourceLocation: Option<Location>,
    destinationLocation: Option<Location>,
    replenishmentType: Option<string>)

  function ValidateReplenish(c: ReplenishTaskContext): (r: Outcome<string>)
    ensures r.Pass? <==> (!NullOrBlank(c.sku) && c.quantity > 0
      && c.sourceLocation.Some? && c.destinationLocation.Some?)
  {
    if NullOrBlank(c.sku) then Fail("SKU is required for replenish tasks")
    else if c.quantity <= 0 then Fail("Quantity must be positive")
    else if c.sourceLocation.None? || c.destinationLocation.None? then
      Fail("Source and destination locations are required")
    else Pass
  }

  function ReplenishMetadata(c: ReplenishTaskContext): (m: Metadata)
    ensures m.Keys == {"sku", "quantity", "sourceLocation", "destinationLocation", "replenishmentType"}
    ensures m["sourceLocation"] == OptCode(c.sourceLocation)
    ensures m["destinationLocation"] == OptCode(c.destinationLocation)
    ensures m["replenishmentType"] == OptStr(c.replenishmentType)
  {
    map["sku" := OptStr(c.sku),
        "quantity" := Int(c.quantity),
        "sourceLocation" := OptCode(c.sourceLocation),
        "destinationLocation" := OptCode(c.destinationLocation),
        "replenishmentType" := OptStr(c.replenishmentType)]
  }

  // ----------------------------------------------------------------- count

  datatype CountType = CycleCount | LocationAudit | SkuAudit | BlindCount

  function CountTypeName(t: CountType): string {
    match t
    case CycleCount => "CYCLE_COUNT"
    case LocationAudit => "LOCATION_AUDIT"
    case SkuAudit => "SKU_AUDIT"
    case BlindCount => "BLIND_COUNT"
  }

  datatype CountTaskContext = CountTaskContext(
    countId: Option<string>,
    countType: Option<CountType>,
    location: Option<Location>,
    sku: Option<string>,
    expectedQuantity: Option<int>)

  function ValidateCount(c: CountTaskContext): (r: Outcome<string>)
    ensures r.Pass? <==> !NullOrBlank(c.countId) && c.countType.Some? && c.location.Some?
  {
    if NullOrBlank(c.countId) then Fail("Count ID is required for count tasks")
    else if c.countType.None? then Fail("Count type is required")
    else if c.location.None? then Fail("Location is required for count tasks")
    else Pass
  }

  function CountMetadata(c: CountTaskContext): (m: Metadata)
    ensures m.Keys == {"countId", "countType", "location", "sku", "expectedQuantity"}
    ensures m["countType"] == (if c.countType.Some? then Str(CountTypeName(c.countType.value)) else Null)
    ensures m["location"] == OptCode(c.location)
    ensures m["expectedQuantity"] == (if c.expectedQuantity.Some? then Int(c.expectedQuantity.value) else Null)
  {
    map["countId" := OptStr(c.countId),
        "countType" := if c.countType.Some? then Str(CountTypeName(c.countType.value)) else Null,
        "location" := OptCode(c.location),
        "sku" := OptStr(c.sku),
        "expectedQuantity" := if c.expectedQuantity.Some? then Int(c.expectedQuantity.value) else Null]
  }

  // ------------------------------------------------------------------ move

  datatype MoveTaskContext = MoveTaskContext(
    lpn: Option<string>,
    sourceLocation: Option<Location>,
    destinationLocation: Option<Location>,
    reason: Option<string>)

  function ValidateMove(c: MoveTaskContext): (r: Outcome<string>)
    ensures r.Pass? <==> !NullOrBlank(c.lpn) && c.sourceLocation.Some? && c.destinationLocation.Some?
  {
    if NullOrBlank(c.lpn) then Fail("LPN is required for move tasks")
    else if c.sourceLocation.None? || c.destinationLocation.None? then
      Fail("Source and destination locations are required")
    else Pass
  }

  function MoveMetadata(c: MoveTaskContext): (m: Metadata)
    ensures m.Keys == {"lpn", "sourceLocation", "destinationLocation", "reason"}
    ensures m["sourceLocation"] == OptCode(c.sourceLocation)
    ensures m["destinationLocation"] == OptCode(c.destinationLocation)
    ensures m["reason"] == OptStr(c.reason)
  {
    map["lpn" := OptStr(c.lpn),
        "sourceLocation" := OptCode(c.sourceLocation),
        "destinationLocation" := OptCode(c.destinationLocation),
        "reason" := OptStr(c.reason)]
  }

  // ------------------------------------------------------------------ ship

  datatype ShipTaskContext = ShipTaskContext(
    shipmentId: Option<string>,
    carrier: Option<string>,
    trackingNumber: Option<string>,
    dockDoor: Option<string>,
    scheduledPickupTime: Option<int>,
    totalPackages: int)

  function ValidateShip(c: ShipTaskContext): (r: Outcome<string>)
    ensures r.Pass? <==> !NullOrBlank(c.shipmentId) && !NullOrBlank(c.carrier)
  {
    if NullOrBlank(c.shipmentId) then Fail("Shipment ID is required for ship tasks")
    else if NullOrBlank(c.carrier) then Fail("Carrier is required")
    else Pass
  }

  function ShipMetadata(c: ShipTaskContext): (m: Metadata)
    ensures m.Keys == {"shipmentId", "carrier", "trackingNumber", "dockDoor", "scheduledPickupTime", "totalPackages"}
    ensures m["carrier"] == OptStr(c.carrier) && m["totalPackages"] == Int(c.totalPackages)
    ensures m["scheduledPickupTime"] == (if c.scheduledPickupTime.Some? then Time(c.scheduledPickupTime.value) else Null)
  {
    map["shipmentId" := OptStr(c.shipmentId),
        "carrier" := OptStr(c.carrier),
        "trackingNumber" := OptStr(c.trackingNumber),
        "dockDoor" := OptStr(c.dockDoor),
        "scheduledPickupTime" := if c.scheduledPickupTime.Some? then Time(c.scheduledPickupTime.value) else Null,
        "totalPackages" := Int(c.totalPackages)]
  }

  // ----------------------------------------------------------------- union

  /** The TaskContext interface: one variant per JSON subtype name. */
  datatype TaskContext =
    | PickCtx(pick: PickTaskContext)
    | PackCtx(pack: PackTaskContext)
    | PutawayCtx(putaway: PutawayTaskContext)
    | ReplenishCtx(replenish: ReplenishTaskContext)
    | CountCtx(count: CountTaskContext)
    | MoveCtx(move: MoveTaskContext)
    | ShipCtx(ship: ShipTaskContext)

  /** The subtype tag, which is the name of the matching task type. */
  function Tag(ctx: TaskContext): TaskType {
    match ctx
    case PickCtx(_) => Pick
    case PackCtx(_) => Pack
    case PutawayCtx(_) => Putaway
    case ReplenishCtx(_) => Replenish
    case CountCtx(_) => Count
    case MoveCtx(_) => Move
    case ShipCtx(_) => Ship
  }

  /** The variant's no-argument constructor. */
  function EmptyContext(t: TaskType): TaskContext {
    match t
    case Pick => PickCtx(EmptyPickContext())
    case Pack => PackCtx(EmptyPackContext())
    case Putaway => PutawayCtx(PutawayTaskContext(None, None, None, 0, None, None))
    case Replenish => ReplenishCtx(ReplenishTaskContext(None, 0, None, None, None))
    case Count => CountCtx(CountTaskContext(None, None, None, None, None))
    case Move => MoveCtx(MoveTaskContext(None, None, None, None))
    case Ship => ShipCtx(ShipTaskContext(None, None, None, None, None, 0))
  }

  /** validate: passes or fails with an IllegalArgumentException message. */
  function Validate(ctx: TaskContext): Outcome<string> {
    match ctx
    case PickCtx(c) => ValidatePick(c)
    case PackCtx(c) => ValidatePack(c)
    case PutawayCtx(c) => ValidatePutaway(c)
    case ReplenishCtx(c) => ValidateReplenish(c)
    case CountCtx(c) => ValidateCount(c)
    case MoveCtx(c) => ValidateMove(c)
    case ShipCtx(c) => ValidateShip(c)
  }

  function GetMetadata(ctx: TaskContext): Metadata {
    match ctx
    case PickCtx(c) => PickMetadata(c)
    case PackCtx(c) => PackMetadata(c)
    case PutawayCtx(c) => PutawayMetadata(c)
    case ReplenishCtx(c) => ReplenishMetadata(c)
    case CountCtx(c) => CountMetadata(c)
    case MoveCtx(c) => MoveMetadata(c)
    case ShipCtx(c) => ShipMetadata(c)
  }

  /** getComplexityScore: overridden by pick and pack, 1.0 elsewhere. */
  function ComplexityScore(ctx: TaskContext): real {
    match ctx
    case PickCtx(c) => PickComplexity(c)
    case PackCtx(c) => PackComplexity(c)
    case _ => 1.0
  }

  // ------------------------------------------------------------ properties

  /** Every task type has exactly one context variant, and it carries that tag. */
  lemma OneVariantPerType(t: TaskType, ctx: TaskContext)
    ensures Tag(EmptyContext(t)) == t
    ensures (Tag(ctx) == Pick <==> ctx.PickCtx?) && (Tag(ctx) == Pack <==> ctx.PackCtx?)
    ensures (Tag(ctx) == Putaway <==> ctx.PutawayCtx?) && (Tag(ctx) == Replenish <==> ctx.ReplenishCtx?)
    ensures (Tag(ctx) == Count <==> ctx.CountCtx?) && (Tag(ctx) == Move <==> ctx.MoveCtx?)
    ensures Tag(ctx) == Ship <==> ctx.ShipCtx?
  {
  }

  /** A freshly constructed context of any type fails validation: every
    * variant has a required field that starts out unset. */
  lemma EmptyContextIsInvalid(t: TaskType)
    ensures Validate(EmptyContext(t)).Fail?
  {
  }

  /** The variants that do not override getComplexityScore score 1.0. */
  lemma DefaultComplexity(ctx: TaskContext)
    ensures !ctx.PickCtx? && !ctx.PackCtx? ==> ComplexityScore(ctx) == 1.0
    ensures ctx.PickCtx? && ctx.pick.totalQuantity >= 0 ==> ComplexityScore(ctx) >= 1.0
    ensures ctx.PackCtx? ==> ComplexityScore(ctx) >= 1.0
  {
  }

  /** The metadata keys the priority calculator reads; none of the seven
    * contexts supplies any of them. */
  const UrgencyKeys: set<string> := {"customerTier", "express", "isExpress", "carrierCutoffTime"}

  lemma PickPackKeysAvoidUrgency(p: PickTaskContext, q: PackTaskContext)
    ensures PickMetadata(p).Keys !! UrgencyKeys && PackMetadata(q).Keys !! UrgencyKeys
  {
  }

  lemma PutawayReplenishKeysAvoidUrgency(p: PutawayTaskContext, q: ReplenishTaskContext)
    ensures PutawayMetadata(p).Keys !! UrgencyKeys && ReplenishMetadata(q).Keys !! UrgencyKeys
  {
  }

  lemma CountMoveShipKeysAvoidUrgency(p: CountTaskContext, q: MoveTaskContext, r: ShipTaskContext)
    ensures CountMetadata(p).Keys !! UrgencyKeys && MoveMetadata(q).Keys !! UrgencyKeys
    ensures ShipMetadata(r).Keys !! UrgencyKeys
  {
  }

  /** No context's metadata carries the keys the priority calculator looks
    * for (customer tier, express flags, carrier cutoff). */
  lemma MetadataHasNoUrgencyKeys(ctx: TaskContext)
    ensures GetMetadata(ctx).Keys !! UrgencyKeys
  {
    match ctx
    case PickCtx(c) => PickPackKeysAvoidUrgency(c, EmptyPackContext());
    case PackCtx(c) => PickPackKeysAvoidUrgency(EmptyPickContext(), c);
    case PutawayCtx(c) => PutawayReplenishKeysAvoidUrgency(c, ReplenishTaskContext(None, 0, None, None, None));
    case ReplenishCtx(c) => PutawayReplenishKeysAvoidUrgency(PutawayTaskContext(None, None, None, 0, None, None), c);
    case CountCtx(c) => CountMoveShipKeysAvoidUrgency(c, MoveTaskContext(None, None, None, None), ShipTaskContext(None, None, None, None, None, 0));
    case MoveCtx(c) => CountMoveShipKeysAvoidUrgency(CountTaskContext(None, None, None, None, None), c, ShipTaskContext(None, None, None, None, None, 0));
    case ShipCtx(c) => CountMoveShipKeysAvoidUrgency(CountTaskContext(None, None, None, None, None), MoveTaskContext(None, None, None, None), c);
  }

  /** A putaway that is complete except for its quantity of 0 fails on the
    * quantity check. */
  lemma PutawayZeroQuantityFails(receipt: string, lpn: string, sku: string, dest: Location)
    requires !IsBlank(receipt) && !IsBlank(lpn) && !IsBlank(sku)
    ensures ValidatePutaway(PutawayTaskContext(Some(receipt), Some(lpn), Some(sku), 0, Some(dest), None))
      == Fail("Quantity must be positive")
  {
  }

  /** A pack context with only its order id set has no items and fails. */
  lemma PackWithOnlyOrderIdFails(orderId: string)
    requires !IsBlank(orderId)
    ensures ValidatePack(EmptyPackContext().(orderId := Some(orderId))) == Fail("Pack items cannot be empty")
  {
  }

  /** The constructors' totals agree with their lists. */
  lemma ConstructorTotals(waveId: string, orderId: string, s: PickStrategy, xs: seq<PickInstruction>,
                          packOrder: string, ps: PackStrategy, items: seq<PackItem>)
    requires Int32Min <= SumQuantities(xs) <= Int32Max
    ensures NewPickContext(Some(waveId), Some(orderId), Some(s), xs).value.totalQuantity == SumQuantities(xs)
    ensures NewPackContext(Some(packOrder), None, Some(ps), items).value.totalItems == |items|
  {
  }
}
