/*
 * A warehouse storage location "aisle-bay-level[-position]": parsing from
 * and printing to its code, and the simplified Manhattan distance used by
 * worker scoring.
 */
module Locations {
  import opened Wrappers
  import opened JavaText

  datatype Location = Location(aisle: string, bay: string, level: string, position: Option<string>)

  /** Double.MAX_VALUE, (2 - 2^-52) * 2^1023, the distance to an unknown location. */
  const MaxDouble: real := 179769313486231570814527423731704356798070567525844996598917476803157260780028538760589558632766878171540458953514382464234321326889464182768467546703537516986049910576551282076245490090389328944075868508455133942304583236903222948165808559332123348274797826204144723168738177180919299881250404026184124858368.0

  /** The constructor: aisle, bay and level must be present (the first null
    * one is reported); the position is optional. */
  function NewLocation(aisle: Option<string>, bay: Option<string>, level: Option<string>,
                       position: Option<string>): (r: Result<Location, string>)
    ensures r.Ok? <==> aisle.Some? && bay.Some? && level.Some?
    ensures r.Ok? ==> r.value.aisle == aisle.value && r.value.bay == bay.value
                      && r.value.level == level.value && r.value.position == position
    ensures aisle.None? ==> r == Err("Aisle cannot be null")
    ensures aisle.Some? && bay.None? ==> r == Err("Bay cannot be null")
    ensures aisle.Some? && bay.Some? && level.None? ==> r == Err("Level cannot be null")
  {
    if aisle.None? then Err("Aisle cannot be null")
    else if bay.None? then Err("Bay cannot be null")
    else if level.None? then Err("Level cannot be null")
    else Ok(Location(aisle.value, bay.value, level.value, position))
  }

  /** fromCode: split on '-', fail with fewer than three parts, take the
    * fourth part (if any) as the position and ignore any further parts. */
  function FromCode(code: string): (r: Result<Location, string>)
    ensures var parts := Split(code, '-');
      && (r.Err? <==> |parts| < 3)
      && (r.Err? ==> r.error == "Invalid location code format: " + code)
      && (r.Ok? ==> r.value.aisle == parts[0] && r.value.bay == parts[1] && r.value.level == parts[2]
                    && r.value.position == (if |parts| > 3 then Some(parts[3]) else None))
  {
    var parts := Split(code, '-');
    if |parts| < 3 then Err("Invalid location code format: " + code)
    else Ok(Location(parts[0], parts[1], parts[2], if |parts| > 3 then Some(parts[3]) else None))
  }

  /** The segments a code is made of. */
  function Segments(l: Location): (r: seq<string>)
    ensures 3 <= |r| <= 4
  {
    [l.aisle, l.bay, l.level] + (if l.position.Some? then [l.position.value] else [])
  }

  /** getLocationCode: the segments joined with '-'; "-position" only when a
    * position is present. */
  function LocationCode(l: Location): (code: string)
    ensures code == Join(Segments(l), '-')
  {
    var base := l.aisle + "-" + l.bay + "-" + l.level;
    var code := if l.position.Some? then base + "-" + l.position.value else base;
    assert Join(Segments(l), '-') == code by {
      var s := Segments(l);
      if l.position.Some? {
        assert s[3..] == [l.position.value];
        assert Join(s[2..], '-') == l.level + "-" + Join(s[3..], '-');
        assert Join(s[1..], '-') == l.bay + "-" + Join(s[2..], '-');
      } else {
        assert s[2..] == [l.level];
        assert Join(s[1..], '-') == l.bay + "-" + Join(s[2..], '-');
      }
    }
    code
  }

  /** A location whose code parses back to it: no segment holds '-', and the
    * last segment is not empty (split drops an empty trailing piece). */
  predicate Printable(l: Location) {
    var segs := Segments(l);
    (forall k | 0 <= k < |segs| :: '-' !in segs[k]) && segs[|segs| - 1] != ""
  }

  /** fromCode(getLocationCode(l)) == l for every printable location. */
  lemma FromCodeOfLocationCode(l: Location)
    requires Printable(l)
    ensures FromCode(LocationCode(l)) == Ok(l)
  {
    SplitJoin(Segments(l), '-');
  }

  /** A segment a code can be cut back into: non-empty and free of '-'. */
  predicate CodeSegment(s: string) {
    s != "" && '-' !in s
  }

  /** getLocationCode(fromCode(c)) == c for every code made of three or four
    * non-empty segments without '-'. */
  lemma LocationCodeOfFromCode(aisle: string, bay: string, level: string, position: Option<string>)
    requires CodeSegment(aisle) && CodeSegment(bay) && CodeSegment(level)
    requires position.Some? ==> CodeSegment(position.value)
    ensures var code := aisle + "-" + bay + "-" + level + (if position.Some? then "-" + position.value else "");
      FromCode(code).Ok? && LocationCode(FromCode(code).value) == code
  {
    var l := Location(aisle, bay, level, position);
    var base := aisle + "-" + bay + "-" + level;
    if position.Some? {
      assert base + ("-" + position.value) == base + "-" + position.value;
    } else {
      assert base + "" == base;
    }
    assert Printable(l);
    FromCodeOfLocationCode(l);
  }

  /** Codes with more than four parts keep only the fourth as position. */
  lemma FromCodeIgnoresExtraParts(code: string)
    requires |Split(code, '-')| > 4
    ensures FromCode(code).Ok? && FromCode(code).value.position == Some(Split(code, '-')[3])
    ensures LocationCode(FromCode(code).value) == Join(Split(code, '-')[..4], '-')
  {
    var parts := Split(code, '-');
    var l := FromCode(code).value;
    assert Segments(l) == parts[..4];
  }

  // -------------------------------------------------------------- distance

  /** The private compareAlphanumeric: the difference of the digit parts when
    * both are non-empty and parse as int, otherwise String.compareTo (the
    * NumberFormatException of an over-long digit run falls through to it). */
  function CompareAlphanumeric(s1: string, s2: string): int {
    var n1 := ParseDigits(KeepDigits(s1));
    var n2 := ParseDigits(KeepDigits(s2));
    if n1.Some? && n2.Some? then n1.value - n2.value else CompareTo(s1, s2)
  }

  lemma CompareAlphanumericAntisymmetric(s1: string, s2: string)
    ensures CompareAlphanumeric(s1, s2) == -CompareAlphanumeric(s2, s1)
    ensures CompareAlphanumeric(s1, s1) == 0
  {
    CompareToAntisymmetric(s1, s2);
    CompareToZeroIffEqual(s1, s1);
  }

  /** Bay and level parse with Integer.parseInt; otherwise distanceFrom
    * throws NumberFormatException. */
  predicate NumericBayLevel(l: Location) {
    AllDigits(l.bay) && ParseDigits(l.bay).Some? && AllDigits(l.level) && ParseDigits(l.level).Some?
  }

  function BayNumber(l: Location): int
    requires NumericBayLevel(l)
  {
    ParseDigits(l.bay).value
  }

  function LevelNumber(l: Location): int
    requires NumericBayLevel(l)
  {
    ParseDigits(l.level).value
  }

  /** distanceFrom for a present location: |aisle comparison| * 100 +
    * |bay difference| * 10 + |level difference|. */
  function Distance(a: Location, b: Location): nat
    requires NumericBayLevel(a) && NumericBayLevel(b)
  {
    Abs(CompareAlphanumeric(a.aisle, b.aisle)) * 100
      + Abs(BayNumber(a) - BayNumber(b)) * 10
      + Abs(LevelNumber(a) - LevelNumber(b))
  }

  /** distanceFrom: Double.MAX_VALUE for a null location. */
  function DistanceFrom(a: Location, other: Option<Location>): (d: real)
    requires other.Some? ==> NumericBayLevel(a) && NumericBayLevel(other.value)
    ensures other.None? ==> d == MaxDouble
    ensures d >= 0.0
  {
    if other.None? then MaxDouble else Distance(a, other.value) as real
  }

  /** The distance is zero from a location to itself and symmetric. */
  lemma DistanceIsSymmetric(a: Location, b: Location)
    requires NumericBayLevel(a) && NumericBayLevel(b)
    ensures Distance(a, a) == 0
    ensures Distance(a, b) == Distance(b, a)
  {
    CompareAlphanumericAntisymmetric(a.aisle, b.aisle);
    CompareAlphanumericAntisymmetric(a.aisle, a.aisle);
  }

  /** inSameZone: the aisles are equal. */
  predicate InSameZone(a: Location, b: Location) {
    a.aisle == b.aisle
  }

  /** Within one zone only bay and level contribute to the distance. */
  lemma SameZoneDistance(a: Location, b: Location)
    requires NumericBayLevel(a) && NumericBayLevel(b) && InSameZone(a, b)
    ensures Distance(a, b) == Abs(BayNumber(a) - BayNumber(b)) * 10 + Abs(LevelNumber(a) - LevelNumber(b))
  {
    CompareAlphanumericAntisymmetric(a.aisle, a.aisle);
  }

  /** Aisles are compared by their digits alone when both have digits:
    * aisles "A1" and "B1" are different zones at aisle distance zero. */
  lemma AisleLettersIgnoredWhenDigitsPresent()
    ensures CompareAlphanumeric("A1", "B1") == 0
    ensures !InSameZone(Location("A1", "01", "01", None), Location("B1", "01", "01", None))
  {
    assert KeepDigits("A1") == "1" && KeepDigits("B1") == "1";
  }

  /** The codes "A-01-01-01" and "B-03-02-01" parse field by field. */
  lemma FromCodeExample()
    ensures FromCode("A-01-01-01") == Ok(Location("A", "01", "01", Some("01")))
    ensures FromCode("B-03-02-01") == Ok(Location("B", "03", "02", Some("01")))
  {
    var a := Location("A", "01", "01", Some("01"));
    var b := Location("B", "03", "02", Some("01"));
    assert LocationCode(a) == "A-01-01-01";
    assert LocationCode(b) == "B-03-02-01";
    FromCodeOfLocationCode(a);
    FromCodeOfLocationCode(b);
  }

  /** A-01-01-01 to B-03-02-01 is one aisle step ("A" vs "B" by compareTo),
    * two bays and one level: 100 + 20 + 1. */
  lemma DistanceExample()
    ensures var a, b := Location("A", "01", "01", Some("01")), Location("B", "03", "02", Some("01"));
      NumericBayLevel(a) && NumericBayLevel(b) && Distance(a, b) == 121
  {
    assert KeepDigits("A") == "" && KeepDigits("B") == "";
    assert DigitsValue("0") == 0;
    assert DigitsValue("01") == 1 && DigitsValue("03") == 3 && DigitsValue("02") == 2;
  }

  /** equals: all four components agree, a null position matching only a
    * null position. */
  function LocationEquals(a: Location, b: Location): (r: bool)
    ensures r <==> a == b
    ensures r ==> LocationCode(a) == LocationCode(b) && InSameZone(a, b)
  {
    a.aisle == b.aisle && a.bay == b.bay && a.level == b.level && a.position == b.position
  }
}
