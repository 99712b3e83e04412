/**
 * The decision policy shared by the p5 demo and the tldraw demo: pick the
 * first index of the largest probability and accept its class only when that
 * probability reaches the threshold 0.6; otherwise the label is "unknown".
 */
module Decision {
  import opened Numeric

  /** The confidence threshold `tau`. */
  const Tau: real := 0.6

  /** The label returned for a rejected or failed classification. */
  const Unknown: string := "unknown"

  /** i is the first index attaining the maximum of s. */
  ghost predicate IsFirstMax(s: seq<real>, i: int)
  {
    && 0 <= i < |s|
    && (forall j :: 0 <= j < |s| ==> s[j] <= s[i])
    && (forall j :: 0 <= j < i ==> s[j] < s[i])
  }

  /** `probs.indexOf(Math.max(...probs))`. */
  function ArgMax(probs: seq<real>): (idx: nat)
    requires |probs| > 0
    ensures IsFirstMax(probs, idx)
  {
    var m := SeqMax(probs);
    var i := IndexOf(probs, m);
    assert forall j :: 0 <= j < i ==> probs[j] != m && probs[j] <= m;
    i
  }

  /** The first maximal index is unique, so ArgMax is fully determined by IsFirstMax. */
  lemma FirstMaxUnique(s: seq<real>, i: int, k: int)
    requires IsFirstMax(s, i) && IsFirstMax(s, k)
    ensures i == k
  {
    assert s[i] == s[k];
  }

  /** `conf = probs[idx]`: the probability of the chosen class. */
  function Confidence(probs: seq<real>): (conf: real)
    requires |probs| > 0
    ensures conf in probs
    ensures forall j :: 0 <= j < |probs| ==> probs[j] <= conf
  {
    probs[ArgMax(probs)]
  }

  /**
   * `conf < tau ? "unknown" : classes[idx]`. The classifier's output vector
   * is aligned with the vocabulary, so the two lengths agree.
   */
  function Decide(probs: seq<real>, classes: seq<string>): (outcome: string)
    requires |probs| == |classes| > 0
    ensures outcome == Unknown || outcome in classes
    ensures forall i :: IsFirstMax(probs, i) && probs[i] >= Tau ==> outcome == classes[i]
    ensures Unknown !in classes ==> (outcome == Unknown <==> Confidence(probs) < Tau)
  {
    var idx := ArgMax(probs);
    if probs[idx] < Tau then Unknown
    else
      assert forall i :: IsFirstMax(probs, i) ==> i == idx by {
        forall i | IsFirstMax(probs, i) ensures i == idx { FirstMaxUnique(probs, i, idx); }
      }
      classes[idx]
  }

  /** A confidence of exactly 0.6 is accepted: the comparison is strict. */
  lemma ThresholdIsInclusive(probs: seq<real>, classes: seq<string>)
    requires |probs| == |classes| > 0
    requires Confidence(probs) == Tau
    ensures Decide(probs, classes) == classes[ArgMax(probs)]
  {
  }

  /** Ties go to the earlier class. */
  lemma TieGoesToFirst(probs: seq<real>, classes: seq<string>, i: nat, k: nat)
    requires |probs| == |classes| > 0
    requires i < k < |probs| && probs[i] == probs[k] == Confidence(probs)
    ensures ArgMax(probs) <= i
    ensures ArgMax(probs) != k
  {
  }
}
