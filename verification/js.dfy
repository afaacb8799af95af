/** The handful of JavaScript built-ins the TruthShield sources lean on, stated
    over Dafny values: possibly-absent fields, `toLowerCase` (ASCII letters
    only), `includes`, `startsWith`, the `||` fallback idiom and `Math.pow(2, k)`. */
module Js {

  /** A field that may be missing (`undefined` or `null`) in a JavaScript object. */
  datatype Option<T> = None | Some(value: T)

  /** Lower-cases one character; only `A`..`Z` are affected. */
  function LowerChar(c: char): char {
    if 'A' <= c <= 'Z' then (c as int + 32) as char else c
  }

  /** `s.toLowerCase()`, restricted to ASCII letters. */
  function ToLower(s: string): (r: string)
    ensures |r| == |s|
    ensures forall i :: 0 <= i < |s| ==> r[i] == LowerChar(s[i])
    ensures forall i :: 0 <= i < |r| ==> !('A' <= r[i] <= 'Z')
  {
    seq(|s|, i requires 0 <= i < |s| => LowerChar(s[i]))
  }

  /** Lower-casing twice is lower-casing once. */
  lemma ToLowerIdempotent(s: string)
    ensures ToLower(ToLower(s)) == ToLower(s)
  {
  }

  /** `sub` occurs in `s` starting at index `i`. */
  ghost predicate OccursAt(s: string, sub: string, i: int) {
    0 <= i && i + |sub| <= |s| && s[i..i + |sub|] == sub
  }

  /** The reference meaning of `s.includes(sub)`: some occurrence exists. */
  ghost predicate Contains(s: string, sub: string) {
    exists i :: OccursAt(s, sub, i)
  }

  /** Compares `sub[j..]` with the characters of `s` from offset `i + j` on,
      one character at a time. */
  function MatchesFrom(s: string, sub: string, i: nat, j: nat): bool
    requires i + |sub| <= |s| && j <= |sub|
    decreases |sub| - j
  {
    j == |sub| || (s[i + j] == sub[j] && MatchesFrom(s, sub, i, j + 1))
  }

  /** The character-wise comparison agrees with slice equality. */
  lemma {:induction false} MatchesFromSlices(s: string, sub: string, i: nat, j: nat)
    requires i + |sub| <= |s| && j <= |sub|
    ensures MatchesFrom(s, sub, i, j) <==> s[i + j..i + |sub|] == sub[j..]
    decreases |sub| - j
  {
    if j < |sub| {
      MatchesFromSlices(s, sub, i, j + 1);
      assert s[i + j..i + |sub|] == [s[i + j]] + s[i + j + 1..i + |sub|];
      assert sub[j..] == [sub[j]] + sub[j + 1..];
    }
  }

  /** Whether `sub` occurs in `s` at some offset `i` or later. */
  function IncludesFrom(s: string, sub: string, i: nat): bool
    decreases |s| - i
  {
    if i + |sub| > |s| then false
    else MatchesFrom(s, sub, i, 0) || IncludesFrom(s, sub, i + 1)
  }

  /** The left-to-right scan finds exactly the occurrences at or after `i`. */
  lemma {:induction false} IncludesFromOccurs(s: string, sub: string, i: nat)
    ensures IncludesFrom(s, sub, i) <==> exists k :: i <= k && OccursAt(s, sub, k)
    decreases |s| - i
  {
    if i + |sub| > |s| {
      assert forall k :: i <= k ==> !OccursAt(s, sub, k);
    } else {
      IncludesFromOccurs(s, sub, i + 1);
      MatchesFromSlices(s, sub, i, 0);
      assert MatchesFrom(s, sub, i, 0) <==> OccursAt(s, sub, i);
      if exists k :: i <= k && OccursAt(s, sub, k) {
        var k :| i <= k && OccursAt(s, sub, k);
        assert k == i || (i + 1 <= k && OccursAt(s, sub, k));
      }
    }
  }

  /** `s.includes(sub)`: scans the offsets of `s` from the left. */
  function Includes(s: string, sub: string): (b: bool)
    ensures b <==> Contains(s, sub)
  {
    IncludesFromOccurs(s, sub, 0);
    assert IncludesFrom(s, sub, 0) <==> Contains(s, sub) by {
      if Contains(s, sub) {
        var k :| OccursAt(s, sub, k);
        assert 0 <= k;
      }
    }
    IncludesFrom(s, sub, 0)
  }

  /** `s.startsWith(prefix)`. */
  predicate StartsWith(s: string, prefix: string)
    ensures StartsWith(s, prefix) <==>
      |prefix| <= |s| && forall i :: 0 <= i < |prefix| ==> s[i] == prefix[i]
  {
    |prefix| <= |s| && s[..|prefix|] == prefix
  }

  /** `v || fallback` on a string that may be absent: a missing value and the
      empty string are both falsy. */
  function OrString(v: Option<string>, fallback: string): (r: string)
    ensures r == fallback || (v == Some(r) && r != "")
    ensures v.Some? && v.value != "" ==> r == v.value
  {
    match v
    case Some(x) => if x != "" then x else fallback
    case None => fallback
  }

  /** `v || fallback` on a number that may be absent: a missing value and zero
      are both falsy (NaN is not modelled). */
  function OrReal(v: Option<real>, fallback: real): (r: real)
    ensures r == fallback || (v == Some(r) && r != 0.0)
    ensures v.Some? && v.value != 0.0 ==> r == v.value
  {
    match v
    case Some(x) => if x != 0.0 then x else fallback
    case None => fallback
  }

  /** `Math.pow(2, k)` for a natural exponent. */
  function Pow2(k: nat): (r: nat)
    ensures r >= 1
  {
    if k == 0 then 1 else 2 * Pow2(k - 1)
  }

  /** `Math.min(a, b)`. */
  function Min(a: int, b: int): (r: int)
    ensures r <= a && r <= b
    ensures r == a || r == b
  {
    if a < b then a else b
  }
}
