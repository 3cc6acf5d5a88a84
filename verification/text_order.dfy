/**
 * String operations the pages rely on.
 *
 * JavaScript compares strings with `localeCompare` (a locale-aware library call)
 * and with the default `Array.prototype.sort` (UTF-16 code-unit order). Both are
 * modelled here by one total order: lexicographic order on characters, where a
 * character is a Unicode scalar value. On strings without characters above U+FFFF
 * this is exactly the code-unit order; above it the two can differ. Lower-casing
 * (`toLowerCase`) is modelled on ASCII letters only.
 */
module TextOrder {

  /** Lexicographic "less than or equal" on character sequences. */
  predicate LexLeq(a: string, b: string)
    decreases |a|
  {
    if a == [] then true
    else if b == [] then false
    else if a[0] != b[0] then a[0] < b[0]
    else LexLeq(a[1..], b[1..])
  }

  lemma {:induction false} LexLeqReflexive(a: string)
    ensures LexLeq(a, a)
    decreases |a|
  {
    if a != [] { LexLeqReflexive(a[1..]); }
  }

  lemma {:induction false} LexLeqTotal(a: string, b: string)
    ensures LexLeq(a, b) || LexLeq(b, a)
    decreases |a|
  {
    if a != [] && b != [] && a[0] == b[0] { LexLeqTotal(a[1..], b[1..]); }
  }

  lemma {:induction false} LexLeqAntisymmetric(a: string, b: string)
    requires LexLeq(a, b) && LexLeq(b, a)
    ensures a == b
    decreases |a|
  {
    if a != [] && b != [] {
      LexLeqAntisymmetric(a[1..], b[1..]);
      assert a == [a[0]] + a[1..] && b == [b[0]] + b[1..];
    }
  }

  lemma {:induction false} LexLeqTransitive(a: string, b: string, c: string)
    requires LexLeq(a, b) && LexLeq(b, c)
    ensures LexLeq(a, c)
    decreases |a|
  {
    if a != [] && b != [] && c != [] && a[0] == b[0] && b[0] == c[0] {
      LexLeqTransitive(a[1..], b[1..], c[1..]);
    }
  }

  /**
   * The comparison `a.localeCompare(b)`: negative, zero or positive as `a` sorts
   * before, together with, or after `b`.
   */
  function Compare(a: string, b: string): (c: int)
    ensures c == -1 || c == 0 || c == 1
    ensures c == 0 <==> a == b
    ensures c <= 0 <==> LexLeq(a, b)
    ensures c >= 0 <==> LexLeq(b, a)
  {
    LexLeqTotal(a, b);
    LexLeqReflexive(a);
    if a == b then 0
    else if LexLeq(a, b) then
      assert !LexLeq(b, a) by {
        if LexLeq(b, a) { LexLeqAntisymmetric(a, b); }
      }
      -1
    else 1
  }

  /** ASCII lower-casing of one character. */
  function LowerChar(c: char): (r: char)
    ensures 'A' <= c <= 'Z' ==> r as int == c as int + 32
    ensures !('A' <= c <= 'Z') ==> r == c
    ensures !('A' <= r <= 'Z')
  {
    if 'A' <= c <= 'Z' then (c as int + 32) as char else c
  }

  /** `s.toLowerCase()` on ASCII letters. */
  function Lower(s: string): (r: string)
    ensures |r| == |s|
    ensures forall i :: 0 <= i < |s| ==> r[i] == LowerChar(s[i])
  {
    seq(|s|, i requires 0 <= i < |s| => LowerChar(s[i]))
  }

  /** `haystack.includes(needle)`: `needle` occurs as a contiguous block of `haystack`. */
  predicate Contains(haystack: string, needle: string)
  {
    exists i | 0 <= i <= |haystack| - |needle| :: OccursAt(haystack, needle, i)
  }

  /** `needle` starts at position `i` of `haystack`. */
  predicate OccursAt(haystack: string, needle: string, i: int)
  {
    0 <= i <= |haystack| - |needle| && haystack[i..i + |needle|] == needle
  }
}
