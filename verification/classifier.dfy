/**
 * The TensorFlow.js classifier adapter of the tldraw demo: the pinned
 * 16-class vocabulary, the module-level model that the load promise assigns,
 * and `predict`, which turns every failure into "unknown" and disposes the
 * tensors it allocated on every exit path.
 *
 * The tensor library and the network are oracles: whether reading the
 * pixels succeeds and what the forward pass does are parameters of Predict.
 */
module Classifier {
  import opened Wrappers
  import opened Decision

  /** The vocabulary, in the model's training order. */
  const CLASSES: seq<string> := [
    "circle", "square", "triangle", "star", "axis", "bat", "car", "cat",
    "eyeglasses", "moon", "sailboat", "dog", "tree", "cloud", "house", "other"
  ]

  /** 16 pairwise-distinct labels, none of them "unknown". */
  lemma ClassesWellFormed()
    ensures |CLASSES| == 16
    ensures forall i, j :: 0 <= i < j < |CLASSES| ==> CLASSES[i] != CLASSES[j]
    ensures Unknown !in CLASSES
  {
  }

  /** What the forward pass and the read-back of its output do. */
  datatype Forward =
    | Throws                     // `model.predict` throws (also: no model yet)
    | ReadbackFails              // `out.array()` rejects
    | Output(probs: seq<real>)   // the first row of the output tensor

  /** The label `predict` resolves to, as a function of the oracles. */
  function PredictedLabel(loaded: bool, pixelsOk: bool, forward: Forward): (outcome: string)
    requires forward.Output? ==> |forward.probs| == |CLASSES|
    ensures outcome == Unknown || outcome in CLASSES
    ensures !loaded || !pixelsOk || !forward.Output? ==> outcome == Unknown
    ensures loaded && pixelsOk && forward.Output? ==>
      (outcome == Unknown <==> Confidence(forward.probs) < Tau)
    ensures loaded && pixelsOk && forward.Output? && outcome != Unknown ==>
      outcome == CLASSES[ArgMax(forward.probs)]
  {
    ClassesWellFormed();
    if !loaded || !pixelsOk then Unknown
    else
      match forward
      case Output(probs) => Decide(probs, CLASSES)
      case _ => Unknown
  }

  class TfClassifier {
    /** The module-level `model` has been assigned by the load promise. */
    var loaded: bool
    /** Tensors allocated and not yet disposed. */
    var live: set<nat>
    /** The handle the next allocation gets. */
    var nextTensor: nat

    ghost predicate Valid()
      reads this
    {
      forall t :: t in live ==> t < nextTensor
    }

    /** Module initialisation: the load has been started, not settled. */
    constructor ()
      ensures Valid() && !loaded && live == {}
    {
      loaded := false;
      live := {};
      nextTensor := 0;
    }

    /** The load promise settles: `model = m` on success, only a log on failure. */
    method LoadSettled(ok: bool)
      modifies this`loaded
      ensures loaded == (old(loaded) || ok)
    {
      if ok {
        loaded := true;
      }
    }

    method Allocate() returns (t: nat)
      requires Valid()
      modifies this`live, this`nextTensor
      ensures Valid()
      ensures t !in old(live) && t >= old(nextTensor)
      ensures live == old(live) + {t} && nextTensor == t + 1
    {
      t := nextTensor;
      live := live + {t};
      nextTensor := nextTensor + 1;
    }

    method Dispose(t: nat)
      requires Valid()
      modifies this`live
      ensures Valid() && live == old(live) - {t}
    {
      live := live - {t};
    }

    /**
     * `predict(canvas)`. The try block allocates `input` (if reading the
     * pixels succeeds) and `out` (if the model exists and its forward pass
     * returns); the catch block answers "unknown"; the finally block
     * disposes whichever of the two was allocated.
     */
    method Predict(pixelsOk: bool, forward: Forward) returns (outcome: string)
      requires Valid()
      requires forward.Output? ==> |forward.probs| == |CLASSES|
      modifies this`live, this`nextTensor
      ensures Valid()
      ensures live == old(live)
      ensures nextTensor >= old(nextTensor)
      ensures outcome == PredictedLabel(loaded, pixelsOk, forward)
    {
      var input: Option<nat> := None;
      var out: Option<nat> := None;
      var failed := false;

      // try
      if !pixelsOk {
        failed := true;
      } else {
        var t := Allocate();
        input := Some(t);
        if !loaded || forward.Throws? {
          failed := true;
        } else {
          var o := Allocate();
          out := Some(o);
          failed := forward.ReadbackFails?;
        }
      }
      if failed {
        // catch
        outcome := Unknown;
      } else {
        outcome := Decide(forward.probs, CLASSES);
      }

      // finally
      if input.Some? {
        Dispose(input.value);
      }
      if out.Some? {
        Dispose(out.value);
      }
    }
  }
}
