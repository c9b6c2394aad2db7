/*
 * Ranking by a score, highest first, as sorting with a reversed comparator
 * produces it: the result is a permutation whose scores never rise. The
 * insertion sort below is stable by construction; its contract does not
 * state stability.
 */
module Ranking {

  /** The scores never rise along the sequence. */
  ghost predicate NonIncreasing<T>(s: seq<T>, key: T -> real) {
    forall i, j | 0 <= i < j < |s| :: key(s[i]) >= key(s[j])
  }

  /** Places `x` before the first element that does not score higher. */
  function Insert<T>(x: T, s: seq<T>, key: T -> real): (r: seq<T>)
    ensures multiset(r) == multiset(s) + multiset{x}
  {
    if |s| == 0 then [x]
    else if key(x) >= key(s[0]) then [x] + s
    else
      assert s == [s[0]] + s[1..];
      [s[0]] + Insert(x, s[1..], key)
  }

  /** Inserting into a ranking gives a ranking. */
  lemma {:induction false} InsertKeepsOrder<T>(x: T, s: seq<T>, key: T -> real)
    requires NonIncreasing(s, key)
    ensures NonIncreasing(Insert(x, s, key), key)
  {
    if |s| > 0 && key(x) < key(s[0]) {
      InsertKeepsOrder(x, s[1..], key);
      InsertBelow(x, s[1..], key, Insert(x, s[1..], key), key(s[0]));
    }
  }

  /** Every element of an insertion result scores at most a bound both the
    * inserted element and the sequence stay under. */
  lemma InsertBelow<T>(x: T, s: seq<T>, key: T -> real, r: seq<T>, bound: real)
    requires multiset(r) == multiset(s) + multiset{x}
    requires key(x) <= bound && forall i | 0 <= i < |s| :: key(s[i]) <= bound
    ensures forall i | 0 <= i < |r| :: key(r[i]) <= bound
  {
    forall i | 0 <= i < |r|
      ensures key(r[i]) <= bound
    {
      assert r[i] in multiset(r);
      if r[i] != x {
        assert r[i] in multiset(s);
        var j :| 0 <= j < |s| && s[j] == r[i];
      }
    }
  }

  /** sorted(Comparator.comparing(key).reversed()). */
  function SortDesc<T>(s: seq<T>, key: T -> real): (r: seq<T>)
    ensures multiset(r) == multiset(s)
    ensures NonIncreasing(r, key)
  {
    if |s| == 0 then []
    else
      assert s == [s[0]] + s[1..];
      InsertKeepsOrder(s[0], SortDesc(s[1..], key), key);
      Insert(s[0], SortDesc(s[1..], key), key)
  }

  /** A ranking holds the same elements, each as often. */
  lemma SortDescMembers<T>(s: seq<T>, key: T -> real, x: T)
    ensures x in SortDesc(s, key) <==> x in s
  {
    assert x in SortDesc(s, key) <==> x in multiset(SortDesc(s, key));
    assert x in s <==> x in multiset(s);
  }
}
