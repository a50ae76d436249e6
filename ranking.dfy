/**
 * Rank of a value inside an ordered profile (least preferred first) and the
 * sign-valued comparison built on it, as used by the profile comparers.
 */
module Ranking {

  /** No value occurs twice in s. */
  predicate Distinct<T(==)>(s: seq<T>) {
    forall i, j | 0 <= i < j < |s| :: s[i] != s[j]
  }

  /** The rank of x in s: the position of its first occurrence. */
  function Rank<T(==)>(s: seq<T>, x: T): (i: nat)
    requires x in s
    ensures i < |s| && s[i] == x
    ensures forall j | 0 <= j < i :: s[j] != x
  {
    if s[0] == x then 0 else 1 + Rank(s[1..], x)
  }

  /** -1, 0 or +1, following the sign of d (what int.CompareTo returns). */
  function Sign(d: int): (r: int)
    ensures -1 <= r <= 1
    ensures r < 0 <==> d < 0
    ensures r > 0 <==> d > 0
  {
    if d < 0 then -1 else if d > 0 then 1 else 0
  }

  /** Compares a with b by their ranks in s. */
  function Compare<T(==)>(s: seq<T>, a: T, b: T): (c: int)
    requires a in s && b in s
    ensures -1 <= c <= 1
    ensures c < 0 <==> Rank(s, a) < Rank(s, b)
    ensures c > 0 <==> Rank(s, a) > Rank(s, b)
    ensures c == 0 <==> a == b
  {
    Sign(Rank(s, a) - Rank(s, b))
  }

  /** In a profile without duplicates the rank of the i-th entry is i. */
  lemma RankOfPosition<T>(s: seq<T>, i: nat)
    requires Distinct(s) && i < |s|
    ensures Rank(s, s[i]) == i
  {
  }

  /** Swapping the arguments negates the comparison. */
  lemma CompareAntisymmetric<T>(s: seq<T>, a: T, b: T)
    requires a in s && b in s
    ensures Compare(s, a, b) == -Compare(s, b, a)
  {
  }

  /** The comparison is transitive. */
  lemma CompareTransitive<T>(s: seq<T>, a: T, b: T, c: T)
    requires a in s && b in s && c in s
    requires Compare(s, a, b) > 0 && Compare(s, b, c) > 0
    ensures Compare(s, a, c) > 0
  {
  }

}
