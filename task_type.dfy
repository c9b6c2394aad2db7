/*
 * The seven kinds of warehouse work and their classification predicates.
 */
module TaskTypes {
  import opened Wrappers

  datatype TaskType = Pick | Pack | Putaway | Replenish | Count | Move | Ship

  const AllTypes: seq<TaskType> := [Pick, Pack, Putaway, Replenish, Count, Move, Ship]

  /** The enum constant's name (`name()`), used in queue keys. */
  function Name(t: TaskType): string {
    match t
    case Pick => "PICK"
    case Pack => "PACK"
    case Putaway => "PUTAWAY"
    case Replenish => "REPLENISH"
    case Count => "COUNT"
    case Move => "MOVE"
    case Ship => "SHIP"
  }

  /** TaskType.valueOf: the constant with exactly this name, or None where
    * Java throws IllegalArgumentException. */
  function ValueOf(s: string): (r: Option<TaskType>)
    ensures r.Some? ==> Name(r.value) == s
    ensures forall t :: Name(t) == s ==> r == Some(t)
  {
    if s == "PICK" then Some(Pick)
    else if s == "PACK" then Some(Pack)
    else if s == "PUTAWAY" then Some(Putaway)
    else if s == "REPLENISH" then Some(Replenish)
    else if s == "COUNT" then Some(Count)
    else if s == "MOVE" then Some(Move)
    else if s == "SHIP" then Some(Ship)
    else None
  }

  predicate RequiresLocation(t: TaskType) {
    t == Pick || t == Putaway || t == Replenish || t == Count
  }

  predicate IsOrderRelated(t: TaskType) {
    t == Pick || t == Pack || t == Ship
  }

  /** getComplexityMultiplier. */
  function ComplexityMultiplier(t: TaskType): (m: real)
    ensures 0.5 <= m <= 1.5
  {
    match t
    case Pick => 1.0
    case Pack => 1.2
    case Putaway => 0.8
    case Replenish => 1.5
    case Count => 1.0
    case Move => 0.5
    case Ship => 1.3
  }

  /** Names are distinct, so valueOf(name()) is the identity. */
  lemma NameRoundTrip(t: TaskType)
    ensures ValueOf(Name(t)) == Some(t)
  {
  }

  /** The classification table: location-bound work is PICK, PUTAWAY,
    * REPLENISH and COUNT; order-related work is PICK, PACK and SHIP. */
  lemma Classification(t: TaskType)
    ensures RequiresLocation(t) <==> t in {Pick, Putaway, Replenish, Count}
    ensures IsOrderRelated(t) <==> t in {Pick, Pack, Ship}
    ensures RequiresLocation(t) && IsOrderRelated(t) <==> t == Pick
  {
  }

  /** PICK is the neutral multiplier; REPLENISH is harder, MOVE easier. */
  lemma MultiplierOrdering()
    ensures ComplexityMultiplier(Pick) == 1.0
    ensures ComplexityMultiplier(Replenish) > 1.0
    ensures ComplexityMultiplier(Move) < 1.0
    ensures forall t :: ComplexityMultiplier(Move) <= ComplexityMultiplier(t) <= ComplexityMultiplier(Replenish)
  {
  }
}
