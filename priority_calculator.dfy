/*
 * Dynamic task priority: five tiered sub-scores (SLA urgency, carrier
 * cut-off, customer tier, zone, age) weighted into an integer score, a
 * task-type modifier, an express boost and a clamp to [0, 1000]; the
 * baseline overload, the contextual boosts and the adjustment recommender.
 * Higher is more urgent. Times are seconds; the current time and the
 * ISO-8601 date parser are parameters.
 */
module PriorityCalculation {
  import opened Wrappers
  import opened JavaText
  import opened TaskTypes
  import opened Priorities
  import TaskContexts
  import TaskLifecycle

  type Metadata = TaskContexts.Metadata
  type MetaValue = TaskContexts.MetaValue

  /** An ISO_DATE_TIME parser: the time it denotes, or None where Java
    * throws DateTimeParseException. */
  type DateParser = string -> Option<int>

  /** What the calculator reads from a task. Type, priority and creation
    * time can be null through the aggregate's setters. */
  datatype Snapshot = Snapshot(
    taskId: string,
    taskType: Option<TaskType>,
    priority: Option<Priority>,
    zone: Option<string>,
    deadline: Option<int>,
    createdAt: Option<int>,
    metadata: Metadata)

  /** The snapshot of a task built by the lifecycle. */
  function FromTask(d: TaskLifecycle.TaskData): Snapshot {
    Snapshot(d.taskId, Some(d.taskType), Some(d.priority), d.zone, d.deadline, Some(d.createdAt),
             TaskContexts.GetMetadata(d.context))
  }

  /** Map.get: null for a missing key. */
  function Get(m: Metadata, key: string): MetaValue {
    if key in m then m[key] else TaskContexts.Null
  }

  predicate Expedited(p: Option<Priority>) {
    p.Some? && IsExpedited(p.value)
  }

  // ------------------------------------------------------ metadata readers

  /** isExpress: the "express" flag, or "isExpress" when that is null; a
    * Boolean is taken as is, a String through Boolean.parseBoolean; any
    * other value falls back to the priority being expedited. */
  predicate IsExpress(s: Snapshot) {
    var flag := if Get(s.metadata, "express") != TaskContexts.Null then Get(s.metadata, "express")
                else Get(s.metadata, "isExpress");
    match flag
    case Bool(b) => b
    case Str(v) => EqualsIgnoreCase(v, "true")
    case _ => Expedited(s.priority)
  }

  /** An explicit "express" flag decides, whatever the priority; an
    * "isExpress" flag counts only when "express" is null; without either
    * flag an expedited priority makes the task express. */
  lemma ExpressFlagPrecedence(s: Snapshot, b: bool)
    ensures Get(s.metadata, "express") == TaskContexts.Bool(b) ==> IsExpress(s) == b
    ensures Get(s.metadata, "express") == TaskContexts.Null && Get(s.metadata, "isExpress") == TaskContexts.Bool(b)
            ==> IsExpress(s) == b
    ensures Get(s.metadata, "express") == TaskContexts.Str("TRUE") ==> IsExpress(s)
    ensures Get(s.metadata, "express") == TaskContexts.Null && Get(s.metadata, "isExpress") == TaskContexts.Null
            ==> (IsExpress(s) <==> Expedited(s.priority))
    ensures Get(s.metadata, "express").Int? ==> (IsExpress(s) <==> Expedited(s.priority))
  {
  }

  /** getCarrierCutoffTime: a date-time value, or a non-blank string that
    * parses; anything else is null. */
  function CarrierCutoff(s: Snapshot, parse: DateParser): (r: Option<int>)
    ensures "carrierCutoffTime" !in s.metadata ==> r.None?
    ensures Get(s.metadata, "carrierCutoffTime").Time? ==> r == Some(Get(s.metadata, "carrierCutoffTime").t)
  {
    match Get(s.metadata, "carrierCutoffTime")
    case Time(t) => Some(t)
    case Str(v) => if IsBlank(v) then None else parse(v)
    case _ => None
  }

  /** getCustomerTier: a non-blank string value, else PLATINUM for an
    * expedited priority, else null. */
  function CustomerTier(s: Snapshot): (r: Option<string>)
    ensures r.Some? ==> !IsBlank(r.value)
    ensures r.None? <==> !(Get(s.metadata, "customerTier").Str? && !IsBlank(Get(s.metadata, "customerTier").s))
                         && !Expedited(s.priority)
  {
    var v := Get(s.metadata, "customerTier");
    if v.Str? && !IsBlank(v.s) then Some(v.s)
    else if Expedited(s.priority) then assert "PLATINUM"[0] == 'P'; Some("PLATINUM")
    else None
  }

  // ------------------------------------------------------------ sub-scores

  /** The SLA tier for the whole hours left before the deadline. */
  function SlaTier(hoursRemaining: int): (r: int)
    ensures 20 <= r <= 100
  {
    if hoursRemaining < 0 then 100
    else if hoursRemaining < 1 then 95
    else if hoursRemaining < 2 then 90
    else if hoursRemaining < 4 then 80
    else if hoursRemaining < 8 then 70
    else if hoursRemaining < 24 then 60
    else if hoursRemaining < 48 then 40
    else 20
  }

  /** calculateSLAScore: 50 without a deadline. */
  function SlaScore(s: Snapshot, now: int): (r: int)
    ensures 20 <= r <= 100
    ensures s.deadline.None? ==> r == 50
  {
    if s.deadline.None? then 50 else SlaTier(TruncDiv(s.deadline.value - now, 3600))
  }

  /** The cut-off tier for the whole minutes left before the carrier cut-off. */
  function CutoffTier(minutesRemaining: int): (r: int)
    ensures 20 <= r <= 100
  {
    if minutesRemaining < 0 then 100
    else if minutesRemaining < 30 then 95
    else if minutesRemaining < 60 then 90
    else if minutesRemaining < 120 then 80
    else if minutesRemaining < 240 then 70
    else if minutesRemaining < 480 then 50
    else 20
  }

  /** calculateCutoffScore: 30 when the cut-off is absent or does not parse. */
  function CutoffScore(s: Snapshot, now: int, parse: DateParser): (r: int)
    ensures 20 <= r <= 100
    ensures CarrierCutoff(s, parse).None? ==> r == 30
  {
    match CarrierCutoff(s, parse)
    case None => 30
    case Some(t) => CutoffTier(TruncDiv(t - now, 60))
  }

  /** CUSTOMER_TIER_MULTIPLIERS, consulted only for tiers outside the table
    * of named tiers, which it never contains. */
  const TierMultipliers: map<string, real> :=
    map["PLATINUM" := 2.0, "GOLD" := 1.5, "SILVER" := 1.2, "BRONZE" := 1.0, "STANDARD" := 0.8]

  /** CUSTOMER_TIER_MULTIPLIERS.getOrDefault(tier, 1.0). */
  function TierMultiplier(tier: string): (m: real)
    ensures 0.8 <= m <= 2.0
  {
    if tier in TierMultipliers then TierMultipliers[tier] else 1.0
  }

  /** calculateCustomerScore: the trimmed, upper-cased tier looked up in the
    * tier table; 50 without a tier. */
  function CustomerScore(s: Snapshot): (r: int)
    ensures 40 <= r <= 100
    ensures CustomerTier(s).None? ==> r == 50
  {
    match CustomerTier(s)
    case None => 50
    case Some(tier) =>
      var n := ToUpper(Trim(tier));
      if n == "PLATINUM" then 100
      else if n == "GOLD" then 85
      else if n == "SILVER" then 70
      else if n == "BRONZE" then 55
      else if n == "STANDARD" then 40
      else Round(50.0 * TierMultiplier(n))
  }

  /** calculateZoneScore: by zone prefix, case-insensitively; 50 for a
    * missing or blank zone. */
  function ZoneScore(s: Snapshot): (r: int)
    ensures 30 <= r <= 90
    ensures s.zone.None? ==> r == 50
  {
    if s.zone.None? || IsBlank(s.zone.value) then 50
    else
      var n := ToUpper(s.zone.value);
      if StartsWith(n, "PICK-A") || StartsWith(n, "ZONE-A") then 90
      else if StartsWith(n, "PICK-B") || StartsWith(n, "ZONE-B") then 70
      else if StartsWith(n, "PICK-C") || StartsWith(n, "ZONE-C") then 50
      else 30
  }

  /** The age tier for the whole hours since creation. */
  function AgeTier(hoursOld: int): (r: int)
    ensures 20 <= r <= 100
  {
    if hoursOld > 24 then 100
    else if hoursOld > 12 then 80
    else if hoursOld > 6 then 60
    else if hoursOld > 2 then 40
    else 20
  }

  /** calculateAgeScore: 0 without a creation time. */
  function AgeScore(s: Snapshot, now: int): (r: int)
    ensures 0 <= r <= 100
    ensures s.createdAt.None? <==> r == 0
  {
    if s.createdAt.None? then 0 else AgeTier(TruncDiv(now - s.createdAt.value, 3600))
  }

  /** The weighted sum of the five sub-scores, each term truncated on its
    * own: SLA 35%, cut-off 30%, customer 20%, zone 10%, age 5%. */
  function WeightedSum(s: Snapshot, now: int, parse: DateParser): (r: int)
    ensures 24 <= r <= 99
  {
    var sla := SlaScore(s, now) * 35 / 100;
    var cutoff := CutoffScore(s, now, parse) * 30 / 100;
    var customer := CustomerScore(s) * 20 / 100;
    var zone := ZoneScore(s) * 10 / 100;
    var age := AgeScore(s, now) * 5 / 100;
    assert 7 <= sla <= 35 && 6 <= cutoff <= 30 && 8 <= customer <= 20 && 3 <= zone <= 9 && 0 <= age <= 5;
    sla + cutoff + customer + zone + age
  }

  /** applyTaskTypeModifier: a per-type factor, truncated; unchanged for a
    * null type or a PICK task. */
  function TypeModifier(base: int, t: Option<TaskType>): (r: int)
    ensures t == Some(Pick) || t.None? ==> r == base
    ensures 0 <= base ==> 0 <= r <= base + base / 5
  {
    if t.None? then base
    else match t.value
      case Count => TruncReal(base as real * 0.6)
      case Replenish => TruncReal(base as real * 0.8)
      case Pick => base
      case Pack => TruncReal(base as real * 0.9)
      case Putaway => TruncReal(base as real * 1.1)
      case Move => TruncReal(base as real * 0.7)
      case Ship => TruncReal(base as real * 1.2)
  }

  /** The type modifier keeps the order of scores. */
  lemma TypeModifierMonotone(a: int, b: int, t: Option<TaskType>)
    requires a <= b
    ensures TypeModifier(a, t) <= TypeModifier(b, t)
  {
    if t.Some? {
      match t.value
      case Count => TruncRealMonotone(a as real * 0.6, b as real * 0.6);
      case Replenish => TruncRealMonotone(a as real * 0.8, b as real * 0.8);
      case Pick =>
      case Pack => TruncRealMonotone(a as real * 0.9, b as real * 0.9);
      case Putaway => TruncRealMonotone(a as real * 1.1, b as real * 1.1);
      case Move => TruncRealMonotone(a as real * 0.7, b as real * 0.7);
      case Ship => TruncRealMonotone(a as real * 1.2, b as real * 1.2);
    }
  }

  /** The express boost: times 1.5, truncated. */
  function ExpressBoost(score: int, express: bool): (r: int)
    ensures !express ==> r == score
    ensures 0 <= score ==> score <= r <= score + score / 2
  {
    if express then TruncReal(score as real * 1.5) else score
  }

  /** The score before the final scale-and-clamp. */
  function Unscaled(s: Snapshot, now: int, parse: DateParser): int {
    ExpressBoost(TypeModifier(WeightedSum(s, now, parse), s.taskType), IsExpress(s))
  }

  /** calculatePriority(task). */
  function CalculatePriority(s: Snapshot, now: int, parse: DateParser): (r: int)
    ensures 0 <= r <= 1000
  {
    Max(0, Min(1000, Unscaled(s, now, parse) * 5))
  }

  /** priorityToScore: 450 for a null priority. */
  function PriorityToScore(p: Option<Priority>): (r: int)
    ensures 300 <= r <= 900
    ensures p.None? ==> r == 450
  {
    if p.None? then 450
    else match p.value
      case Critical => 900
      case Urgent => 750
      case High => 600
      case Normal => 450
      case Low => 300
  }

  /** calculatePriority(task, basePriority): never below the baseline
    * priority's static score, and equal to one of the two. */
  function CalculatePriorityAtLeast(s: Snapshot, now: int, parse: DateParser, base: Option<Priority>): (r: int)
    ensures r >= PriorityToScore(base) && r >= CalculatePriority(s, now, parse)
    ensures r == PriorityToScore(base) || r == CalculatePriority(s, now, parse)
  {
    Max(CalculatePriority(s, now, parse), PriorityToScore(base))
  }

  // --------------------------------------------------------- dynamic boost

  /** `(int) (score * factor)` applied when the condition holds. */
  function ScaleIf(cond: bool, score: int, factor: real): int {
    if cond then IntCast(score as real * factor) else score
  }

  /** The surge factor for a numeric systemSurgeLevel: 5% per level, at
    * most three levels. */
  function SurgeFactor(level: real): (f: real)
    ensures level >= 0.0 ==> 1.0 <= f <= 1.15
  {
    1.0 + MinReal(level, 3.0) * 0.05
  }

  /** The contextual boosts, in the order they are applied: same-zone
    * operator, batch membership, unreleased wave, exception resolution and
    * a numeric surge level. */
  function Boosts(base: int, sameZone: bool, batch: bool, unreleased: bool, exception: bool,
                  surge: Option<real>): int
  {
    var b1 := ScaleIf(sameZone, base, 1.15);
    var b2 := ScaleIf(batch, b1, 1.1);
    var b3 := ScaleIf(unreleased, b2, 0.5);
    var b4 := ScaleIf(exception, b3, 1.3);
    ApplySurge(b4, surge)
  }

  /** `(int) (score * (1 + min(level, 3) * 0.05))` for a numeric level. */
  function ApplySurge(score: int, surge: Option<real>): int {
    if surge.Some? then IntCast(score as real * SurgeFactor(surge.value)) else score
  }

  /** `surgeLevel instanceof Number number ? number.doubleValue() : none`. */
  function SurgeLevel(c: Metadata): (r: Option<real>)
    ensures Get(c, "systemSurgeLevel").Int? ==> r == Some(Get(c, "systemSurgeLevel").i as real)
    ensures Get(c, "systemSurgeLevel").Real? ==> r == Some(Get(c, "systemSurgeLevel").r)
    ensures r.None? <==> !Get(c, "systemSurgeLevel").Int? && !Get(c, "systemSurgeLevel").Real?
  {
    var v := Get(c, "systemSurgeLevel");
    match v
    case Int(i) => Some(i as real)
    case Real(x) => Some(x)
    case _ => None
  }

  /** The contextual boosts a metadata map asks for. */
  function ContextBoost(base: int, c: Metadata): int {
    Boosts(base, Get(c, "operatorInSameZone") == TaskContexts.Bool(true),
           Get(c, "partOfBatch") == TaskContexts.Bool(true),
           Get(c, "waveReleased") == TaskContexts.Bool(false),
           Get(c, "resolvingException") == TaskContexts.Bool(true),
           SurgeLevel(c))
  }

  /** calculateDynamicPriority: contextual boosts on top of the computed
    * priority, capped at 1000 (but not floored). */
  function DynamicPriority(s: Snapshot, now: int, parse: DateParser, context: Option<Metadata>): (r: int)
    ensures r <= 1000
    ensures context.None? ==> r == CalculatePriority(s, now, parse)
  {
    var base := CalculatePriority(s, now, parse);
    if context.None? then Min(1000, base) else Min(1000, ContextBoost(base, context.value))
  }

  /** A boost by a factor between one and two never lowers a score. */
  lemma ScaleUp(b: int, f: real)
    requires 0 <= b <= 1000000 && 1.0 <= f <= 2.0
    ensures b <= IntCast(b as real * f) <= 2 * b
  {
    var x := b as real * f;
    assert x - b as real == b as real * (f - 1.0);
    MulNonneg(b as real, f - 1.0);
    assert 2.0 * b as real - x == b as real * (2.0 - f);
    MulNonneg(b as real, 2.0 - f);
    assert b as real <= x <= 2.0 * b as real;
  }

  lemma MulNonneg(x: real, y: real)
    requires x >= 0.0 && y >= 0.0
    ensures x * y >= 0.0
  {
  }

  /** A conditional boost by a factor between one and two. */
  lemma ScaleIfUp(cond: bool, b: int, f: real)
    requires 0 <= b <= 1000000 && 1.0 <= f <= 2.0
    ensures b <= ScaleIf(cond, b, f) <= 2 * b
  {
    ScaleUp(b, f);
  }

  /** Without an unreleased wave and with a non-negative surge level, the
    * boosts never lower a score. */
  lemma BoostsNotBelow(base: int, sameZone: bool, batch: bool, exception: bool, surge: Option<real>)
    requires 0 <= base <= 1000
    requires surge.Some? ==> surge.value >= 0.0
    ensures Boosts(base, sameZone, batch, false, exception, surge) >= base
  {
    var b1 := ScaleIf(sameZone, base, 1.15);
    ScaleIfUp(sameZone, base, 1.15);
    var b2 := ScaleIf(batch, b1, 1.1);
    ScaleIfUp(batch, b1, 1.1);
    assert ScaleIf(false, b2, 0.5) == b2;
    var b4 := ScaleIf(exception, b2, 1.3);
    ScaleIfUp(exception, b2, 1.3);
    assert 0 <= base <= b4 <= 8000;
    SurgeNotBelow(b4, surge);
  }

  /** A non-negative surge level never lowers a score. */
  lemma SurgeNotBelow(b: int, surge: Option<real>)
    requires 0 <= b <= 1000000
    requires surge.Some? ==> surge.value >= 0.0
    ensures ApplySurge(b, surge) >= b
  {
    if surge.Some? {
      ScaleUp(b, SurgeFactor(surge.value));
    }
  }

  /** With the wave released (or not mentioned) and a non-negative surge
    * level, the dynamic priority is never below the computed one. */
  lemma DynamicNotBelowComputed(s: Snapshot, now: int, parse: DateParser, c: Metadata)
    requires Get(c, "waveReleased") != TaskContexts.Bool(false)
    requires Get(c, "systemSurgeLevel").Int? ==> Get(c, "systemSurgeLevel").i >= 0
    requires Get(c, "systemSurgeLevel").Real? ==> Get(c, "systemSurgeLevel").r >= 0.0
    ensures DynamicPriority(s, now, parse, Some(c)) >= CalculatePriority(s, now, parse)
  {
    BoostsNotBelow(CalculatePriority(s, now, parse), Get(c, "operatorInSameZone") == TaskContexts.Bool(true),
                   Get(c, "partOfBatch") == TaskContexts.Bool(true),
                   Get(c, "resolvingException") == TaskContexts.Bool(true),
                   SurgeLevel(c));
  }

  /** Surge levels above three all boost like level three. */
  lemma SurgeCapsAtThree(b: int, level: real)
    requires level >= 3.0
    ensures ApplySurge(b, Some(level)) == ApplySurge(b, Some(3.0))
  {
  }

  /** A fractional surge level counts with its fraction: level 0.5 adds 2.5%. */
  lemma FractionalSurgeCounts(c: Metadata)
    requires Get(c, "systemSurgeLevel") == TaskContexts.Real(0.5)
    ensures ContextBoost(200, c[ "operatorInSameZone" := TaskContexts.Null]
                              ["partOfBatch" := TaskContexts.Null]
                              ["waveReleased" := TaskContexts.Null]
                              ["resolvingException" := TaskContexts.Null]) == 205
  {
  }

  /** An unreleased wave alone halves the score, truncated. */
  lemma UnreleasedWaveHalves(base: int)
    requires 0 <= base <= 1000
    ensures Boosts(base, false, false, true, false, None) == base / 2
  {
  }

  // ----------------------------------------------------------- adjustment

  datatype LoadMetrics = LoadMetrics(queueDepth: Int32, activeOperators: Int32, averageTaskTime: real)

  datatype PriorityAdjustment = PriorityAdjustment(
    taskId: string, currentPriority: int, recommendedPriority: int, shouldAdjust: bool, reason: string)

  /** currentSystemBaseline: 500 adjusted by queue depth, operators and task
    * time in Java int arithmetic, clamped to [200, 900]. */
  function SystemBaseline(lm: Option<LoadMetrics>): (r: int)
    ensures 200 <= r <= 900
    ensures lm.None? ==> r == 500
  {
    if lm.None? then 500
    else
      var m := lm.value;
      var b1 := Wrap32(500 + Wrap32(Min(m.queueDepth, 20) * 5));
      var b2 := Wrap32(b1 - Wrap32(Min(m.activeOperators, 10) * 10));
      var b3 := Wrap32(b2 + IntCast(MinReal(m.averageTaskTime * 2.0, 100.0)));
      Max(200, Min(900, b3))
  }

  /** With non-negative metrics nothing wraps: 500 plus 5 per queued task
    * (up to 20), minus 10 per operator (up to 10), plus twice the average
    * task time (up to 100), clamped. */
  lemma BaselineFormula(lm: LoadMetrics)
    requires lm.queueDepth >= 0 && lm.activeOperators >= 0 && lm.averageTaskTime >= 0.0
    ensures SystemBaseline(Some(lm))
         == Max(200, Min(900, 500 + 5 * Min(lm.queueDepth, 20) - 10 * Min(lm.activeOperators, 10)
                               + TruncReal(MinReal(lm.averageTaskTime * 2.0, 100.0))))
  {
  }

  const ReasonPrefix := "Priority adjustment recommended: "

  /** The clauses an adjustment reason can name. */
  datatype Clause =
    | SlaDeadline | CutoffImminent | ExpressHandling | HighValueCustomer
    | HighQueueDepth | OperatorShortage | AboveBaseline

  /** Each clause's sentence, followed by a space. */
  function ClauseText(c: Clause): (r: string)
    ensures |r| >= 3 && r[|r| - 2..] == ". " && r[|r| - 3] > ' '
  {
    match c
    case SlaDeadline => "Approaching SLA deadline. "
    case CutoffImminent => "Carrier cutoff imminent. "
    case ExpressHandling => "Express handling required. "
    case HighValueCustomer => "High value customer. "
    case HighQueueDepth => "High queue depth. "
    case OperatorShortage => "Operator shortage. "
    case AboveBaseline => "Calculated priority above system baseline. "
  }

  /** Every clause, in the order the reason lists them. */
  const AllClauses: seq<Clause> :=
    [SlaDeadline, CutoffImminent, ExpressHandling, HighValueCustomer, HighQueueDepth, OperatorShortage,
     AboveBaseline]

  lemma AllClausesListed()
    ensures forall c: Clause :: c in AllClauses
  {
    forall c: Clause
      ensures c in AllClauses
    {
      match c
      case SlaDeadline => assert AllClauses[0] == c;
      case CutoffImminent => assert AllClauses[1] == c;
      case ExpressHandling => assert AllClauses[2] == c;
      case HighValueCustomer => assert AllClauses[3] == c;
      case HighQueueDepth => assert AllClauses[4] == c;
      case OperatorShortage => assert AllClauses[5] == c;
      case AboveBaseline => assert AllClauses[6] == c;
    }
  }

  /** When buildAdjustmentReason appends each clause. The load clauses need
    * load metrics. */
  predicate Triggered(c: Clause, s: Snapshot, now: int, parse: DateParser, lm: Option<LoadMetrics>,
                      calculated: int)
  {
    match c
    case SlaDeadline => s.deadline.Some? && TruncDiv(s.deadline.value - now, 3600) < 2
    case CutoffImminent =>
      CarrierCutoff(s, parse).Some? && TruncDiv(CarrierCutoff(s, parse).value - now, 60) < 60
    case ExpressHandling => IsExpress(s)
    case HighValueCustomer =>
      CustomerTier(s).Some?
      && (EqualsIgnoreCase(CustomerTier(s).value, "PLATINUM") || EqualsIgnoreCase(CustomerTier(s).value, "GOLD"))
    case HighQueueDepth => lm.Some? && lm.value.queueDepth > 10
    case OperatorShortage => lm.Some? && lm.value.activeOperators < 2
    case AboveBaseline => lm.Some? && calculated > SystemBaseline(lm)
  }

  /** The elements of `cs` that `keep` accepts, in their order. */
  function Filter(cs: seq<Clause>, keep: Clause -> bool): (r: seq<Clause>)
    ensures |r| <= |cs|
    ensures forall c :: c in r <==> c in cs && keep(c)
  {
    if |cs| == 0 then []
    else if keep(cs[0]) then [cs[0]] + Filter(cs[1..], keep)
    else Filter(cs[1..], keep)
  }

  /** The clauses buildAdjustmentReason appends: exactly the triggered ones,
    * in the listed order. */
  function ReasonClauses(s: Snapshot, now: int, parse: DateParser, lm: Option<LoadMetrics>,
                         calculated: int): (r: seq<Clause>)
    ensures forall c :: c in r <==> Triggered(c, s, now, parse, lm, calculated)
  {
    AllClausesListed();
    Filter(AllClauses, c => Triggered(c, s, now, parse, lm, calculated))
  }

  /** The clauses' sentences, concatenated. */
  function Sentences(cs: seq<Clause>): string {
    if |cs| == 0 then "" else ClauseText(cs[0]) + Sentences(cs[1..])
  }

  /** A non-empty run of sentences ends in a visible character and a space. */
  lemma {:induction false} SentencesEnd(cs: seq<Clause>)
    requires |cs| > 0
    ensures var t := Sentences(cs); |t| >= 3 && t[|t| - 1] == ' ' && t[|t| - 2] > ' '
  {
    var t := Sentences(cs);
    if |cs| > 1 {
      SentencesEnd(cs[1..]);
      var tail := Sentences(cs[1..]);
      assert t == ClauseText(cs[0]) + tail;
      assert t[|t| - 1] == tail[|tail| - 1] && t[|t| - 2] == tail[|tail| - 2];
    } else {
      assert Sentences(cs[1..]) == "";
      assert t == ClauseText(cs[0]) + "";
    }
  }

  /** String.trim of a text that starts with a visible character and ends
    * in one visible character and a space drops just that space. */
  lemma TrimFinalSpace(t: string)
    requires |t| >= 2 && t[0] > ' ' && t[|t| - 2] > ' ' && t[|t| - 1] == ' '
    ensures Trim(t) == t[..|t| - 1]
  {
    assert TrimLeading(t) == t;
    var u := t[..|t| - 1];
    assert TrimTrailing(u) == u;
  }

  /** The untrimmed reason: the prefix and the triggered clauses' sentences. */
  function ReasonBody(s: Snapshot, now: int, parse: DateParser, lm: Option<LoadMetrics>, calculated: int)
    : string
  {
    ReasonPrefix + Sentences(ReasonClauses(s, now, parse, lm, calculated))
  }

  /** The untrimmed reason starts with the prefix and ends in a visible
    * character and a space. */
  lemma ReasonBodyShape(s: Snapshot, now: int, parse: DateParser, lm: Option<LoadMetrics>, calculated: int)
    ensures var body := ReasonBody(s, now, parse, lm, calculated);
      |body| >= |ReasonPrefix| && body[..|ReasonPrefix|] == ReasonPrefix
      && body[0] > ' ' && body[|body| - 2] > ' ' && body[|body| - 1] == ' '
  {
    var clauses := ReasonClauses(s, now, parse, lm, calculated);
    var body := ReasonBody(s, now, parse, lm, calculated);
    assert body[..|ReasonPrefix|] == ReasonPrefix;
    if |clauses| > 0 {
      SentencesEnd(clauses);
      var f := Sentences(clauses);
      assert body[|body| - 1] == f[|f| - 1] && body[|body| - 2] == f[|f| - 2];
    } else {
      assert body == ReasonPrefix + "";
    }
  }

  /** buildAdjustmentReason: the prefix followed by the triggered clauses'
    * sentences, trimmed; that is, without the final space. */
  function AdjustmentReason(s: Snapshot, now: int, parse: DateParser, lm: Option<LoadMetrics>,
                            calculated: int): (r: string)
    ensures var body := ReasonBody(s, now, parse, lm, calculated);
      r == body[..|body| - 1]
  {
    ReasonBodyShape(s, now, parse, lm, calculated);
    TrimFinalSpace(ReasonBody(s, now, parse, lm, calculated));
    Trim(ReasonBody(s, now, parse, lm, calculated))
  }

  /** recommendAdjustment: recommends the computed priority exactly when it
    * is more than 50 away from the static score of the task's priority;
    * otherwise keeps the current one. */
  function RecommendAdjustment(s: Snapshot, now: int, parse: DateParser, lm: Option<LoadMetrics>)
    : (r: PriorityAdjustment)
    ensures r.taskId == s.taskId && r.currentPriority == PriorityToScore(s.priority)
    ensures r.shouldAdjust <==> Abs(PriorityToScore(s.priority) - CalculatePriority(s, now, parse)) > 50
    ensures r.shouldAdjust ==> r.recommendedPriority == CalculatePriority(s, now, parse)
    ensures (!r.shouldAdjust ==> r.recommendedPriority == r.currentPriority
                                 && r.reason == "Priority within acceptable range")
    ensures r.shouldAdjust ==> r.reason == AdjustmentReason(s, now, parse, lm, CalculatePriority(s, now, parse))
  {
    var current := PriorityToScore(s.priority);
    var calculated := CalculatePriority(s, now, parse);
    if Abs(current - calculated) > 50 then
      PriorityAdjustment(s.taskId, current, calculated, true, AdjustmentReason(s, now, parse, lm, calculated))
    else
      PriorityAdjustment(s.taskId, current, current, false, "Priority within acceptable range")
  }

  // ------------------------------------------------------------ properties

  /** A tier outside the named ones scores 50: the multiplier table holds
    * only the named tiers, so its default of 1.0 always applies. */
  lemma UnknownTierScoresFifty(s: Snapshot)
    requires CustomerTier(s).Some?
    requires ToUpper(Trim(CustomerTier(s).value)) !in {"PLATINUM", "GOLD", "SILVER", "BRONZE", "STANDARD"}
    ensures CustomerScore(s) == 50
  {
    var n := ToUpper(Trim(CustomerTier(s).value));
    UnlistedTierMultiplier(n);
    assert Round(50.0 * 1.0) == 50;
  }

  /** The multiplier table holds only the named tiers. */
  lemma UnlistedTierMultiplier(n: string)
    requires n !in {"PLATINUM", "GOLD", "SILVER", "BRONZE", "STANDARD"}
    ensures TierMultiplier(n) == 1.0
  {
    assert n !in TierMultipliers;
  }

  /** Without a customer tier in the metadata, an expedited task is treated
    * as a PLATINUM customer (100) and any other as having no tier (50). */
  lemma MissingTierFollowsPriority(s: Snapshot)
    requires !(Get(s.metadata, "customerTier").Str? && !IsBlank(Get(s.metadata, "customerTier").s))
    ensures CustomerScore(s) == (if Expedited(s.priority) then 100 else 50)
  {
    if Expedited(s.priority) {
      assert CustomerTier(s) == Some("PLATINUM");
      TrimOfTrimmed("PLATINUM");
      assert ToUpper("PLATINUM") == "PLATINUM";
    }
  }

  /** The SLA tier never falls as the remaining time shrinks. */
  lemma SlaTierAntitone(h1: int, h2: int)
    requires h1 <= h2
    ensures SlaTier(h2) <= SlaTier(h1)
  {
  }

  /** The cut-off tier never falls as the remaining time shrinks. */
  lemma CutoffTierAntitone(m1: int, m2: int)
    requires m1 <= m2
    ensures CutoffTier(m2) <= CutoffTier(m1)
  {
  }

  /** The age tier never falls as the task gets older. */
  lemma AgeTierMonotone(h1: int, h2: int)
    requires h1 <= h2
    ensures AgeTier(h1) <= AgeTier(h2)
  {
  }

  /** As time passes, no sub-score falls: the deadline and the cut-off come
    * closer and the task gets older. */
  lemma SubScoresRiseOverTime(s: Snapshot, parse: DateParser, t1: int, t2: int)
    requires t1 <= t2
    ensures SlaScore(s, t1) <= SlaScore(s, t2)
    ensures CutoffScore(s, t1, parse) <= CutoffScore(s, t2, parse)
    ensures AgeScore(s, t1) <= AgeScore(s, t2)
  {
    if s.deadline.Some? {
      TruncDivMonotone(s.deadline.value - t2, s.deadline.value - t1, 3600);
      SlaTierAntitone(TruncDiv(s.deadline.value - t2, 3600), TruncDiv(s.deadline.value - t1, 3600));
    }
    var cutoff := CarrierCutoff(s, parse);
    if cutoff.Some? {
      TruncDivMonotone(cutoff.value - t2, cutoff.value - t1, 60);
      CutoffTierAntitone(TruncDiv(cutoff.value - t2, 60), TruncDiv(cutoff.value - t1, 60));
    }
    if s.createdAt.Some? {
      TruncDivMonotone(t1 - s.createdAt.value, t2 - s.createdAt.value, 3600);
      AgeTierMonotone(TruncDiv(t1 - s.createdAt.value, 3600), TruncDiv(t2 - s.createdAt.value, 3600));
    }
  }

  /** The weighted sum never falls as time passes. */
  lemma WeightedSumRisesOverTime(s: Snapshot, parse: DateParser, t1: int, t2: int)
    requires t1 <= t2
    ensures WeightedSum(s, t1, parse) <= WeightedSum(s, t2, parse)
  {
    SubScoresRiseOverTime(s, parse, t1, t2);
    DivMonotone(SlaScore(s, t1) * 35, SlaScore(s, t2) * 35, 100);
    DivMonotone(CutoffScore(s, t1, parse) * 30, CutoffScore(s, t2, parse) * 30, 100);
    DivMonotone(AgeScore(s, t1) * 5, AgeScore(s, t2) * 5, 100);
  }

  /** A task's computed priority never falls as time passes. */
  lemma PriorityRisesOverTime(s: Snapshot, parse: DateParser, t1: int, t2: int)
    requires t1 <= t2
    ensures CalculatePriority(s, t1, parse) <= CalculatePriority(s, t2, parse)
  {
    WeightedSumRisesOverTime(s, parse, t1, t2);
    var m1 := TypeModifier(WeightedSum(s, t1, parse), s.taskType);
    var m2 := TypeModifier(WeightedSum(s, t2, parse), s.taskType);
    TypeModifierMonotone(WeightedSum(s, t1, parse), WeightedSum(s, t2, parse), s.taskType);
    TruncRealMonotone(m1 as real * 1.5, m2 as real * 1.5);
    assert Unscaled(s, t1, parse) <= Unscaled(s, t2, parse);
  }

  /** On the weighted sum's range [24, 99] the type modifier yields a score
    * in [14, 118]. */
  lemma TypeModifierBounds(w: int, t: Option<TaskType>)
    requires 24 <= w <= 99
    ensures 14 <= TypeModifier(w, t) <= 118
  {
    if t.Some? {
      match t.value
      case Count => assert 14.4 <= w as real * 0.6;
      case Replenish => assert 19.2 <= w as real * 0.8;
      case Pick =>
      case Pack => assert 21.6 <= w as real * 0.9;
      case Putaway => assert w as real * 1.1 <= 108.9;
      case Move => assert 16.8 <= w as real * 0.7;
      case Ship => assert w as real * 1.2 <= 118.8;
    }
  }

  /** The clamp never acts: the priority is five times the unscaled score,
    * between 70 (a relaxed COUNT task) and 885 (an express SHIP task with
    * every sub-score at its top). */
  lemma PriorityRange(s: Snapshot, now: int, parse: DateParser)
    ensures 70 <= CalculatePriority(s, now, parse) <= 885
    ensures CalculatePriority(s, now, parse) == Unscaled(s, now, parse) * 5
  {
    var m := TypeModifier(WeightedSum(s, now, parse), s.taskType);
    TypeModifierBounds(WeightedSum(s, now, parse), s.taskType);
    assert 14 <= ExpressBoost(m, IsExpress(s)) <= 177;
  }

  /** Tasks built by the lifecycle carry none of the urgency keys: their
    * cut-off score is the default 30, express means an expedited priority,
    * and the customer score is 100 for an expedited priority, else 50. */
  lemma LifecycleTasksUseDefaults(d: TaskLifecycle.TaskData, now: int, parse: DateParser)
    ensures CutoffScore(FromTask(d), now, parse) == 30
    ensures IsExpress(FromTask(d)) <==> IsExpedited(d.priority)
    ensures CustomerScore(FromTask(d)) == (if IsExpedited(d.priority) then 100 else 50)
  {
    var m := TaskContexts.GetMetadata(d.context);
    TaskContexts.MetadataHasNoUrgencyKeys(d.context);
    assert "carrierCutoffTime" in TaskContexts.UrgencyKeys && "customerTier" in TaskContexts.UrgencyKeys;
    assert "express" in TaskContexts.UrgencyKeys && "isExpress" in TaskContexts.UrgencyKeys;
    assert "carrierCutoffTime" !in m && "customerTier" !in m && "express" !in m && "isExpress" !in m;
    MissingTierFollowsPriority(FromTask(d));
  }
}
