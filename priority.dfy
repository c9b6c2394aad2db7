/*
 * Task priority levels: numeric value (lower is more urgent), the expedited
 * class and the lenient parser used at the system's edges.
 */
module Priorities {
  import opened Wrappers
  import opened JavaText

  datatype Priority = Critical | Urgent | High | Normal | Low

  const AllPriorities: seq<Priority> := [Critical, Urgent, High, Normal, Low]

  function Name(p: Priority): string {
    match p
    case Critical => "CRITICAL"
    case Urgent => "URGENT"
    case High => "HIGH"
    case Normal => "NORMAL"
    case Low => "LOW"
  }

  /** getValue. */
  function Value(p: Priority): (v: int)
    ensures 1 <= v <= 4
  {
    match p
    case Critical => 1
    case Urgent => 1
    case High => 2
    case Normal => 3
    case Low => 4
  }

  predicate IsExpedited(p: Priority) {
    p == Critical || p == Urgent || p == High
  }

  /** Priority.valueOf: the constant with exactly this name, or None where
    * Java throws IllegalArgumentException. */
  function ValueOf(s: string): (r: Option<Priority>)
    ensures r.Some? ==> Name(r.value) == s
    ensures forall p :: Name(p) == s ==> r == Some(p)
  {
    if s == "CRITICAL" then Some(Critical)
    else if s == "URGENT" then Some(Urgent)
    else if s == "HIGH" then Some(High)
    else if s == "NORMAL" then Some(Normal)
    else if s == "LOW" then Some(Low)
    else None
  }

  /** fromString: NORMAL for null or blank input; otherwise the constant whose
    * name equals the upper-cased input, and NORMAL when there is none. */
  function FromString(value: Option<string>): (p: Priority)
    ensures NullOrBlank(value) ==> p == Normal
    ensures p != Normal ==> value.Some? && ToUpper(value.value) == Name(p)
  {
    if NullOrBlank(value) then Normal
    else match ValueOf(ToUpper(value.value))
      case Some(q) => q
      case None => Normal
  }

  // ------------------------------------------------------------ properties

  /** The expedited priorities are exactly those with value at most 2. */
  lemma ExpeditedIffValueAtMostTwo(p: Priority)
    ensures IsExpedited(p) <==> Value(p) <= 2
    ensures Value(Critical) == Value(Urgent) == 1
  {
  }

  lemma ToUpperOfUpper(s: string)
    requires forall i | 0 <= i < |s| :: !('a' <= s[i] <= 'z')
    ensures ToUpper(s) == s
  {
  }

  lemma ToUpperOfLower(s: string)
    requires forall i | 0 <= i < |s| :: 'A' <= s[i] <= 'Z' || s[i] == '_'
    ensures ToUpper(ToLower(s)) == s
  {
    assert forall i | 0 <= i < |s| :: ToUpper(ToLower(s))[i] == s[i];
  }

  /** fromString inverts name(), also for the lower-case spelling. */
  lemma FromStringOfName(p: Priority)
    ensures FromString(Some(Name(p))) == p
    ensures FromString(Some(ToLower(Name(p)))) == p
  {
    ToUpperOfUpper(Name(p));
    ToUpperOfLower(Name(p));
    assert !IsWhitespace(Name(p)[0]) && !IsWhitespace(ToLower(Name(p))[0]);
  }

  /** fromString is case-insensitive: any spelling that upper-cases to a name
    * gives that priority, and every other non-blank string gives NORMAL. */
  lemma FromStringCaseInsensitive(s: string)
    requires !IsBlank(s)
    ensures ValueOf(ToUpper(s)).Some? ==> FromString(Some(s)) == ValueOf(ToUpper(s)).value
    ensures ValueOf(ToUpper(s)).None? ==> FromString(Some(s)) == Normal
  {
  }
}
