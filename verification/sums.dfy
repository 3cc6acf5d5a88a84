/**
 * `Array.prototype.reduce((sum, x) => sum + f(x), 0)`, the way the pages total
 * hours, next to a reference definition of the sum it computes.
 */
module Sums {

  /** The sum of `f` over `s`, by structural recursion from the front. */
  function Sum<T>(s: seq<T>, f: T -> int): int
  {
    if s == [] then 0 else f(s[0]) + Sum(s[1..], f)
  }

  /** `s.reduce((acc, x) => acc + f(x), acc)`: a left fold that visits `s` in order. */
  function Reduce<T>(s: seq<T>, f: T -> int, acc: int): int
  {
    if s == [] then acc else Reduce(s[1..], f, acc + f(s[0]))
  }

  /** The left fold from an accumulator adds that accumulator to the reference sum. */
  lemma {:induction false} ReduceIsSum<T>(s: seq<T>, f: T -> int, acc: int)
    ensures Reduce(s, f, acc) == acc + Sum(s, f)
  {
    if s != [] { ReduceIsSum(s[1..], f, acc + f(s[0])); }
  }

  /** A sum of terms that each lie in [lo, hi] lies in [lo * |s|, hi * |s|]. */
  lemma {:induction false} SumBounds<T>(s: seq<T>, f: T -> int, lo: int, hi: int)
    requires forall i :: 0 <= i < |s| ==> lo <= f(s[i]) <= hi
    ensures lo * |s| <= Sum(s, f) <= hi * |s|
  {
    if s != [] {
      var rest := s[1..];
      assert forall i :: 0 <= i < |rest| ==> rest[i] == s[i + 1];
      SumBounds(rest, f, lo, hi);
      MulSucc(lo, |rest|);
      MulSucc(hi, |rest|);
    }
  }

  lemma MulSucc(k: int, n: int)
    ensures k * (n + 1) == k * n + k
  {
  }

  /** A sum of non-negative terms is non-negative. */
  lemma {:induction false} SumNonNegative<T>(s: seq<T>, f: T -> int)
    ensures (forall i :: 0 <= i < |s| ==> f(s[i]) >= 0) ==> Sum(s, f) >= 0
  {
    if s != [] {
      SumNonNegative(s[1..], f);
      assert forall i :: 0 <= i < |s[1..]| ==> s[1..][i] == s[i + 1];
    }
  }
}
