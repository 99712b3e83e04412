/**
 * Small numeric helpers shared by the model: JavaScript's `Math.min`/`Math.max`
 * over two values and over a spread array, and `Math.ceil`. Coordinates and
 * probabilities are exact reals; IEEE special values are not modelled.
 */
module Numeric {

  function Min(a: real, b: real): real { if a <= b then a else b }

  function Max(a: real, b: real): real { if a >= b then a else b }

  function IntMax(a: int, b: int): int { if a >= b then a else b }

  function IntMin(a: int, b: int): int { if a <= b then a else b }

  function Abs(a: real): real { if a < 0.0 then -a else a }

  /** The distance between two integers. */
  function Dist(a: int, b: int): int { if a < b then b - a else a - b }

  /** `Math.ceil`: the least integer not below r. */
  function Ceil(r: real): (c: int)
    ensures r <= c as real < r + 1.0
  {
    -((-r).Floor)
  }

  /** `Math.max(...s)` for a non-empty array: the largest entry. */
  function SeqMax(s: seq<real>): (m: real)
    requires |s| > 0
    ensures m in s
    ensures forall i :: 0 <= i < |s| ==> s[i] <= m
  {
    if |s| == 1 then s[0] else Max(s[0], SeqMax(s[1..]))
  }

  /** `Math.min(...s)` for a non-empty array: the smallest entry. */
  function SeqMin(s: seq<real>): (m: real)
    requires |s| > 0
    ensures m in s
    ensures forall i :: 0 <= i < |s| ==> m <= s[i]
  {
    if |s| == 1 then s[0] else Min(s[0], SeqMin(s[1..]))
  }

  /** `Array.prototype.indexOf`: the first position holding v, or -1. */
  function IndexOf(s: seq<real>, v: real): (i: int)
    ensures -1 <= i < |s|
    ensures i == -1 <==> v !in s
    ensures i >= 0 ==> s[i] == v && forall j :: 0 <= j < i ==> s[j] != v
  {
    if |s| == 0 then -1
    else if s[0] == v then 0
    else
      var k := IndexOf(s[1..], v);
      if k == -1 then -1 else k + 1
  }

  /** Monotonicity of multiplication by a positive factor. */
  lemma MulMonotone(a: real, b: real, c: real)
    requires a <= b && c > 0.0
    ensures a * c <= b * c
  {
    assert (b - a) * c >= 0.0;
  }
}
