/*
 * Shared value wrappers and the small part of Java's String/Integer/Math
 * semantics that the task-dispatch core relies on: blank tests, trimming,
 * ASCII case mapping, String.split on a one-character separator,
 * String.compareTo, Integer.parseInt on digit strings, truncating integer
 * division (Duration.toMinutes/toHours) and the (int) cast of a double.
 */

module Wrappers {
  /** A value that may be absent (a Java reference that may be null). */
  datatype Option<T> = None | Some(value: T) {
    function UnwrapOr(default: T): T {
      if Some? then value else default
    }
  }

  /** A computation that returns a value or throws an exception with a message. */
  datatype Result<T, E> = Ok(value: T) | Err(error: E)

  /** A check that passes or throws (Java's void-returning guard methods). */
  datatype Outcome<E> = Pass | Fail(error: E)
}

module JavaText {
  import opened Wrappers

  const Int32Min: int := -0x8000_0000
  const Int32Max: int := 0x7fff_ffff

  /** A Java `int`. */
  type Int32 = x: int | Int32Min <= x <= Int32Max witness 0

  // ---------------------------------------------------------------- blanks

  /** Character.isWhitespace: the Unicode space separators except the
    * no-break ones, plus the ASCII controls TAB..CR and FS..US. */
  predicate IsWhitespace(c: char) {
    c == ' ' || ('\t' <= c <= '\r') || ('\U{1C}' <= c <= '\U{1F}')
    || c == '\U{1680}' || ('\U{2000}' <= c <= '\U{2006}')
    || ('\U{2008}' <= c <= '\U{200A}') || c == '\U{2028}' || c == '\U{2029}'
    || c == '\U{205F}' || c == '\U{3000}'
  }

  /** String.isBlank: empty or whitespace only. */
  predicate IsBlank(s: string) {
    forall i | 0 <= i < |s| :: IsWhitespace(s[i])
  }

  /** `s == null || s.isBlank()`. */
  predicate NullOrBlank(s: Option<string>) {
    s.None? || IsBlank(s.value)
  }

  // -------------------------------------------------------------- trimming

  /** Removes leading characters whose code is at most U+0020. */
  function TrimLeading(s: string): (r: string)
    ensures |r| <= |s| && r == s[|s| - |r|..]
    ensures |r| > 0 ==> r[0] > ' '
    ensures forall i | 0 <= i < |s| - |r| :: s[i] <= ' '
  {
    if |s| > 0 && s[0] <= ' ' then TrimLeading(s[1..]) else s
  }

  /** Removes trailing characters whose code is at most U+0020. */
  function TrimTrailing(s: string): (r: string)
    ensures |r| <= |s| && r == s[..|r|]
    ensures |r| > 0 ==> r[|r| - 1] > ' '
    ensures forall i | |r| <= i < |s| :: s[i] <= ' '
  {
    if |s| > 0 && s[|s| - 1] <= ' ' then TrimTrailing(s[..|s| - 1]) else s
  }

  /** String.trim. */
  function Trim(s: string): (r: string)
    ensures |r| <= |s|
    ensures |r| > 0 ==> r[0] > ' ' && r[|r| - 1] > ' '
  {
    TrimTrailing(TrimLeading(s))
  }

  /** A string with visible characters at both ends is its own trim. */
  lemma TrimOfTrimmed(s: string)
    requires |s| > 0 && s[0] > ' ' && s[|s| - 1] > ' '
    ensures Trim(s) == s
  {
    assert TrimLeading(s) == s;
  }

  // ---------------------------------------------------------- case mapping

  function UpperChar(c: char): char {
    if 'a' <= c <= 'z' then (c as int - 32) as char else c
  }

  function LowerChar(c: char): char {
    if 'A' <= c <= 'Z' then (c as int + 32) as char else c
  }

  /** String.toUpperCase restricted to ASCII letters. */
  function ToUpper(s: string): (r: string)
    ensures |r| == |s|
    ensures forall i | 0 <= i < |s| :: r[i] == UpperChar(s[i])
  {
    seq(|s|, i requires 0 <= i < |s| => UpperChar(s[i]))
  }

  /** String.toLowerCase restricted to ASCII letters. */
  function ToLower(s: string): (r: string)
    ensures |r| == |s|
    ensures forall i | 0 <= i < |s| :: r[i] == LowerChar(s[i])
  {
    seq(|s|, i requires 0 <= i < |s| => LowerChar(s[i]))
  }

  /** String.equalsIgnoreCase restricted to ASCII letters. */
  predicate EqualsIgnoreCase(a: string, b: string) {
    ToUpper(a) == ToUpper(b)
  }

  predicate StartsWith(s: string, prefix: string) {
    |prefix| <= |s| && s[..|prefix|] == prefix
  }

  // ------------------------------------------------------------- splitting

  /** Index of the first occurrence of `c` in `s`. */
  function IndexOf(s: string, c: char): (i: nat)
    requires c in s
    ensures i < |s| && s[i] == c
    ensures forall j | 0 <= j < i :: s[j] != c
  {
    if s[0] == c then 0 else 1 + IndexOf(s[1..], c)
  }

  /** Every piece between occurrences of `sep`, empty pieces included. */
  function SplitAll(s: string, sep: char): (r: seq<string>)
    ensures |r| >= 1
    ensures forall k | 0 <= k < |r| :: sep !in r[k]
    decreases |s|
  {
    if sep in s then
      var i := IndexOf(s, sep);
      [s[..i]] + SplitAll(s[i + 1..], sep)
    else [s]
  }

  /** Removes empty strings from the end of a list. */
  function DropTrailingEmpty(parts: seq<string>): (r: seq<string>)
    ensures |r| <= |parts| && r == parts[..|r|]
    ensures |r| > 0 ==> r[|r| - 1] != ""
    ensures forall k | |r| <= k < |parts| :: parts[k] == ""
  {
    if |parts| > 0 && parts[|parts| - 1] == "" then DropTrailingEmpty(parts[..|parts| - 1])
    else parts
  }

  /** String.split with a one-character, non-meta separator: a string without
    * the separator gives itself; otherwise trailing empty pieces are dropped. */
  function Split(s: string, sep: char): (r: seq<string>)
    ensures sep !in s ==> r == [s]
    ensures forall k | 0 <= k < |r| :: sep !in r[k]
  {
    if sep in s then DropTrailingEmpty(SplitAll(s, sep)) else [s]
  }

  /** The pieces joined with `sep` between them (String.join). */
  function Join(parts: seq<string>, sep: char): string
    requires |parts| >= 1
  {
    if |parts| == 1 then parts[0] else parts[0] + [sep] + Join(parts[1..], sep)
  }

  /** The first separator of `p + [sep] + rest` sits right after `p`. */
  lemma FirstSeparator(p: string, sep: char, rest: string)
    requires sep !in p
    ensures var s := p + [sep] + rest;
      sep in s && IndexOf(s, sep) == |p| && s[..|p|] == p && s[|p| + 1..] == rest
  {
    var s := p + [sep] + rest;
    assert s[|p|] == sep;
    assert forall j | 0 <= j < |p| :: s[j] == p[j];
    assert s[..|p|] == p;
    assert s[|p| + 1..] == rest;
  }

  lemma {:induction false} SplitAllJoin(parts: seq<string>, sep: char)
    requires |parts| >= 1
    requires forall k | 0 <= k < |parts| :: sep !in parts[k]
    ensures SplitAll(Join(parts, sep), sep) == parts
  {
    if |parts| > 1 {
      var rest := Join(parts[1..], sep);
      assert Join(parts, sep) == parts[0] + [sep] + rest;
      FirstSeparator(parts[0], sep, rest);
      SplitAllJoin(parts[1..], sep);
      assert SplitAll(Join(parts, sep), sep) == [parts[0]] + parts[1..];
    }
  }

  /** Splitting a joined list gives the list back, as long as no piece holds
    * the separator and the last piece is not an empty trailing piece. */
  lemma SplitJoin(parts: seq<string>, sep: char)
    requires |parts| >= 1
    requires forall k | 0 <= k < |parts| :: sep !in parts[k]
    requires |parts| == 1 || parts[|parts| - 1] != ""
    ensures Split(Join(parts, sep), sep) == parts
  {
    SplitAllJoin(parts, sep);
    if |parts| > 1 {
      assert Join(parts, sep)[|parts[0]|] == sep;
    }
  }

  // ---------------------------------------------------------------- digits

  predicate IsDigit(c: char) {
    '0' <= c <= '9'
  }

  predicate AllDigits(s: string) {
    forall i | 0 <= i < |s| :: IsDigit(s[i])
  }

  /** `s.replaceAll("[^0-9]", "")`. */
  function KeepDigits(s: string): (r: string)
    ensures AllDigits(r) && |r| <= |s|
    ensures AllDigits(s) ==> r == s
  {
    if |s| == 0 then ""
    else if IsDigit(s[|s| - 1]) then KeepDigits(s[..|s| - 1]) + [s[|s| - 1]]
    else KeepDigits(s[..|s| - 1])
  }

  /** The decimal value of a digit string. */
  function DigitsValue(s: string): (n: nat)
    requires AllDigits(s)
  {
    if |s| == 0 then 0 else 10 * DigitsValue(s[..|s| - 1]) + (s[|s| - 1] as int - '0' as int)
  }

  /** Integer.parseInt on a string of ASCII digits: the value, or a
    * NumberFormatException (None) for the empty string or a value above
    * Integer.MAX_VALUE. */
  function ParseDigits(s: string): (r: Option<int>)
    requires AllDigits(s)
    ensures r.Some? <==> |s| > 0 && DigitsValue(s) <= Int32Max
    ensures r.Some? ==> 0 <= r.value <= Int32Max
  {
    if |s| > 0 && DigitsValue(s) <= Int32Max then Some(DigitsValue(s)) else None
  }

  // ------------------------------------------------------------ comparison

  /** String.compareTo: the code difference at the first differing index, or
    * the length difference when one string is a prefix of the other. */
  function CompareTo(a: string, b: string): int {
    if |a| == 0 || |b| == 0 then |a| - |b|
    else if a[0] != b[0] then a[0] as int - b[0] as int
    else CompareTo(a[1..], b[1..])
  }

  lemma {:induction false} CompareToAntisymmetric(a: string, b: string)
    ensures CompareTo(a, b) == -CompareTo(b, a)
  {
    if |a| > 0 && |b| > 0 && a[0] == b[0] {
      CompareToAntisymmetric(a[1..], b[1..]);
    }
  }

  lemma {:induction false} CompareToZeroIffEqual(a: string, b: string)
    ensures CompareTo(a, b) == 0 <==> a == b
  {
    if |a| > 0 && |b| > 0 && a[0] == b[0] {
      CompareToZeroIffEqual(a[1..], b[1..]);
      if a[1..] == b[1..] {
        assert a == [a[0]] + a[1..] && b == [b[0]] + b[1..];
      }
    }
  }

  // ------------------------------------------------------------ arithmetic

  /** Java integer division, which truncates toward zero (as do
    * Duration.toMinutes and Duration.toHours). */
  function TruncDiv(a: int, d: int): (q: int)
    requires d > 0
  {
    if a >= 0 then a / d else -((-a) / d)
  }

  lemma DivMonotone(a: nat, b: nat, d: int)
    requires d > 0 && a <= b
    ensures a / d <= b / d
  {
    var qa, qb := a / d, b / d;
    assert a == qa * d + a % d && 0 <= a % d < d;
    assert b == qb * d + b % d && 0 <= b % d < d;
    assert (qa - qb) * d < d;
    MulLessThanDivisor(qa - qb, d);
  }

  lemma MulLessThanDivisor(x: int, d: int)
    requires d > 0 && x * d < d
    ensures x < 1
  {
  }

  /** Truncating division is monotone in the dividend. */
  lemma TruncDivMonotone(a: int, b: int, d: int)
    requires d > 0 && a <= b
    ensures TruncDiv(a, d) <= TruncDiv(b, d)
  {
    if a >= 0 {
      DivMonotone(a, b, d);
      assert TruncDiv(a, d) == a / d && TruncDiv(b, d) == b / d;
    } else if b < 0 {
      DivMonotone(-b, -a, d);
      assert TruncDiv(a, d) == -((-a) / d) && TruncDiv(b, d) == -((-b) / d);
    } else {
      DivMonotone(0, -a, d);
      DivMonotone(0, b, d);
      assert TruncDiv(a, d) == -((-a) / d) && TruncDiv(b, d) == b / d;
    }
  }

  /** Truncation of a real toward zero. */
  function TruncReal(r: real): (n: int)
    ensures r >= 0.0 ==> n as real <= r < n as real + 1.0
    ensures r < 0.0 ==> n as real - 1.0 < r <= n as real
  {
    if r >= 0.0 then r.Floor else -((-r).Floor)
  }

  /** The Java cast `(int) x` of a finite double: truncation toward zero,
    * saturated to the int range. */
  function IntCast(x: real): (n: int)
    ensures Int32Min <= n <= Int32Max
    ensures Int32Min as real <= x < Int32Max as real + 1.0 ==> n == TruncReal(x)
  {
    var t := TruncReal(x);
    if t > Int32Max then Int32Max else if t < Int32Min then Int32Min else t
  }

  /** Math.round of a double in the int range: the nearest integer, halves up. */
  function Round(x: real): (n: int)
    ensures n as real - 0.5 <= x < n as real + 0.5
  {
    (x + 0.5).Floor
  }

  /** Two's-complement wrap-around of a Java int computation. */
  function Wrap32(x: int): (n: int)
    ensures Int32Min <= n <= Int32Max
    ensures Int32Min <= x <= Int32Max ==> n == x
  {
    (x - Int32Min) % 0x1_0000_0000 + Int32Min
  }

  /** Truncation toward zero is monotone. */
  lemma TruncRealMonotone(a: real, b: real)
    requires a <= b
    ensures TruncReal(a) <= TruncReal(b)
  {
  }

  function Abs(x: int): nat {
    if x < 0 then -x else x
  }

  function Min(a: int, b: int): int {
    if a <= b then a else b
  }

  function Max(a: int, b: int): int {
    if a >= b then a else b
  }

  function MinReal(a: real, b: real): real {
    if a <= b then a else b
  }

  function MaxReal(a: real, b: real): real {
    if a >= b then a else b
  }
}
