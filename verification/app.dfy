/**
 * The tldraw demo's App component: the kind-to-shape table, the
 * replacement of a recognised doodle by one geo or image shape inside a
 * single history step, the change/mouse-up tracking of the last drawn
 * shape, and the convert pipeline that ties rasterising, classifying and
 * replacing together.
 *
 * The editor's page bounds, the fresh ids it hands out and the classifier's
 * oracles are parameters; the 100 ms timeout and the awaited prediction are
 * taken to run immediately, with no other edit in between.
 */
module App {
  import opened Wrappers
  import opened Document
  import opened Decision
  import opened Normalize
  import Classifier

  /** `shapeTypeMap`: recognised kind to the tldraw geo or image type that replaces the doodle. */
  const ShapeTypeMap: map<string, string> := map[
    "circle" := "ellipse",
    "square" := "rectangle",
    "line" := "arrow-up",
    "other" := "rectangle",
    "sailboat" := "image_sailboat"
  ]

  /** The shape type a kind is replaced by, or None when the doodle stays as drawn. */
  function TargetType(kind: string): (target: Option<string>)
    ensures target.Some? <==> kind in {"circle", "square", "line", "other", "sailboat"}
    ensures kind == "circle" ==> target == Some("ellipse")
    ensures kind == "square" || kind == "other" ==> target == Some("rectangle")
    ensures kind == "line" ==> target == Some("arrow-up")
    ensures kind == "sailboat" ==> target == Some("image_sailboat")
  {
    if kind != Unknown && kind in ShapeTypeMap then Some(ShapeTypeMap[kind]) else None
  }

  /**
   * Of the classifier's vocabulary exactly circle, square, other and
   * sailboat lead to a replacement; the table's "line" key is never produced.
   */
  lemma ReplacedLabels()
    ensures forall i :: 0 <= i < |Classifier.CLASSES| ==>
      (TargetType(Classifier.CLASSES[i]).Some? <==>
         Classifier.CLASSES[i] in {"circle", "square", "other", "sailboat"})
    ensures "line" !in Classifier.CLASSES
    ensures TargetType(Unknown).None?
  {
  }

  /** `newShapeType.startsWith("image_")`. */
  predicate IsImageType(target: string)
    ensures IsImageType(target) <==>
      |target| >= 6 && forall i :: 0 <= i < 6 ==> target[i] == "image_"[i]
  {
    |target| >= 6 && target[..6] == "image_"
  }

  /** Of the table's targets only the sailboat's is an image; every other label becomes a geo shape. */
  lemma OnlySailboatIsImage()
    ensures forall k :: k in ShapeTypeMap ==> (IsImageType(ShapeTypeMap[k]) <==> k == "sailboat")
  {
    assert IsImageType("image_sailboat");
    assert "ellipse"[0] != "image_"[0] && "rectangle"[0] != "image_"[0] && "arrow-up"[0] != "image_"[0];
  }

  /** `v || 1` for a number: zero becomes one. */
  function OrOne(v: real): (r: real)
    ensures r != 0.0
    ensures v != 0.0 ==> r == v
  {
    if v == 0.0 then 1.0 else v
  }

  /** The shape created in place of the doodle, at the doodle's page bounds. */
  function NewShape(target: string, bounds: Box, color: string, assetId: AssetId): (r: ShapeRecord)
    ensures r.x == bounds.x && r.y == bounds.y
    ensures IsImageType(target) ==> r.props == Image(assetId, OrOne(bounds.w), OrOne(bounds.h))
    ensures !IsImageType(target) ==> r.props == Geo(target, OrOne(bounds.w), OrOne(bounds.h), color)
    ensures bounds.w != 0.0 && bounds.h != 0.0 ==>
      (r.props.Image? || r.props.Geo?) && r.props.w == bounds.w && r.props.h == bounds.h
  {
    var props :=
      if IsImageType(target) then Image(assetId, OrOne(bounds.w), OrOne(bounds.h))
      else Geo(target, OrOne(bounds.w), OrOne(bounds.h), color);
    ShapeRecord(bounds.x, bounds.y, props)
  }

  /** The image asset registered for an image replacement. */
  function NewAsset(target: string, bounds: Box): (a: Asset)
    ensures a.name == target + ".png" && a.src == "/" + target + ".png"
    ensures a.w == bounds.w && a.h == bounds.h
  {
    Asset(target + ".png", "/" + target + ".png", bounds.w, bounds.h)
  }

  /** The document after the doodle `id` is deleted and `r` is created under the fresh id `newId`. */
  function Replaced(doc: Doc, id: ShapeId, newId: ShapeId, r: ShapeRecord): (doc': Doc)
    requires newId != id
    ensures id !in doc' && newId in doc' && doc'[newId] == r
    ensures doc'.Keys == doc.Keys - {id} + {newId}
    ensures forall k :: k in doc && k != id && k != newId ==> doc'[k] == doc[k]
  {
    (doc - {id})[newId := r]
  }

  /** A replacement swaps one shape for one: the number of shapes is unchanged. */
  lemma ReplacementKeepsCount(doc: Doc, id: ShapeId, newId: ShapeId, r: ShapeRecord)
    requires newId != id && id in doc && newId !in doc
    ensures |Replaced(doc, id, newId, r)| == |doc|
  {
    var doc' := Replaced(doc, id, newId, r);
    assert doc'.Keys == (doc.Keys - {id}) + {newId};
    assert |doc.Keys - {id}| == |doc.Keys| - 1;
    assert |doc'.Keys| == |doc.Keys - {id}| + 1;
  }

  /**
   * `generatePredictedShape(kind, shape)` for the draw shape `shape` stored
   * under `id`. `bounds` is what `getShapePageBounds` answers; `newId` and
   * `assetId` are the fresh ids that `createShape` and
   * `AssetRecordType.createId` produce. A mapped kind with known bounds
   * marks a history stopping point, deletes the doodle and creates its
   * replacement (and, for an image, its asset); anything else changes nothing.
   */
  method GeneratePredictedShape(editor: Editor, kind: string, id: ShapeId, shape: ShapeRecord,
                                bounds: Option<Box>, newId: ShapeId, assetId: AssetId)
    returns (replaced: bool)
    requires shape.props.Draw?
    requires newId != id && newId !in editor.shapes
    modifies editor`shapes, editor`selected, editor`marks, editor`assets
    ensures replaced <==> TargetType(kind).Some? && bounds.Some?
    ensures !replaced ==>
      && editor.shapes == old(editor.shapes) && editor.selected == old(editor.selected)
      && editor.marks == old(editor.marks) && editor.assets == old(editor.assets)
    ensures replaced ==>
      && var target := TargetType(kind).value;
         && editor.marks == old(editor.marks) + [Snapshot(old(editor.shapes), old(editor.assets))]
         && editor.shapes == Replaced(old(editor.shapes), id, newId,
                                      NewShape(target, bounds.value, shape.props.color, assetId))
         && editor.selected == old(editor.selected) - {id}
         && editor.assets == (if IsImageType(target)
                              then old(editor.assets)[assetId := NewAsset(target, bounds.value)]
                              else old(editor.assets))
  {
    var target := TargetType(kind);
    if target.None? || bounds.None? {
      return false;
    }
    var b := bounds.value;
    // editor.run(() => { ... })
    editor.MarkHistoryStoppingPoint();
    editor.DeleteShapes({id});
    if IsImageType(target.value) {
      editor.CreateAsset(assetId, NewAsset(target.value, b));
    }
    editor.CreateShape(newId, NewShape(target.value, b, shape.props.color, assetId));
    replaced := true;
  }

  /** Undo right after a replacement brings the doodle back and removes its replacement. */
  method ReplaceThenUndo(editor: Editor, kind: string, id: ShapeId, shape: ShapeRecord,
                         bounds: Option<Box>, newId: ShapeId, assetId: AssetId)
    requires shape.props.Draw?
    requires newId != id && newId !in editor.shapes
    modifies editor`shapes, editor`selected, editor`marks, editor`assets
    ensures editor.shapes == old(editor.shapes) && editor.assets == old(editor.assets)
    ensures editor.marks == old(editor.marks)
  {
    var replaced := GeneratePredictedShape(editor, kind, id, shape, bounds, newId, assetId);
    if replaced {
      editor.Undo();
    }
  }

  /** A record of a store change: its id, its `typeName` and, for shapes, its `type`. */
  datatype StoreRecord = StoreRecord(id: string, typeName: string, shapeType: string)

  predicate IsDrawRecord(r: StoreRecord)
  {
    r.typeName == "shape" && r.shapeType == "draw"
  }

  /** The id of the last draw-shape record of `recs`, if there is one. */
  function LastDraw(recs: seq<StoreRecord>): Option<ShapeId>
  {
    if |recs| == 0 then None
    else if IsDrawRecord(recs[|recs| - 1]) then Some(recs[|recs| - 1].id)
    else LastDraw(recs[..|recs| - 1])
  }

  /**
   * `LastDraw` finds a draw-shape record exactly when there is one, and
   * the one it finds has no draw-shape record after it.
   */
  lemma {:induction false} LastDrawIsLast(recs: seq<StoreRecord>)
    ensures LastDraw(recs).Some? <==> exists i :: 0 <= i < |recs| && IsDrawRecord(recs[i])
    ensures LastDraw(recs).Some? ==>
      exists i :: 0 <= i < |recs| && IsDrawRecord(recs[i]) && recs[i].id == LastDraw(recs).value
        && forall j :: i < j < |recs| ==> !IsDrawRecord(recs[j])
  {
    if |recs| > 0 && !IsDrawRecord(recs[|recs| - 1]) {
      var init := recs[..|recs| - 1];
      LastDrawIsLast(init);
      assert forall i :: 0 <= i < |init| ==> init[i] == recs[i];
    }
  }

  /** The later of two batches wins: a draw record in `b` overrides any in `a`. */
  lemma {:induction false} LastDrawAppend(a: seq<StoreRecord>, b: seq<StoreRecord>)
    ensures LastDraw(a + b) == if LastDraw(b).Some? then LastDraw(b) else LastDraw(a)
    decreases |b|
  {
    if |b| == 0 {
      assert a + b == a;
    } else {
      var ab, last := a + b, b[|b| - 1];
      assert ab[|ab| - 1] == last;
      assert ab[..|ab| - 1] == a + b[..|b| - 1];
      if IsDrawRecord(last) {
        assert LastDraw(ab) == Some(last.id) == LastDraw(b);
      } else {
        assert LastDraw(ab) == LastDraw(a + b[..|b| - 1]);
        assert LastDraw(b) == LastDraw(b[..|b| - 1]);
        LastDrawAppend(a, b[..|b| - 1]);
      }
    }
  }

  /** The closure variables of the tracking effect. */
  class DrawTracker {
    var lastDrawnShapeId: Option<ShapeId>
    var isDrawing: bool

    constructor ()
      ensures lastDrawnShapeId.None? && !isDrawing
    {
      lastDrawnShapeId := None;
      isDrawing := false;
    }

    /**
     * `handleChangeEvent` with the current tool and the added and updated
     * records of one change, in iteration order. While the draw tool is
     * active the last draw-shape record seen becomes the tracked shape.
     */
    method HandleChange(tool: string, added: seq<StoreRecord>, updated: seq<StoreRecord>)
      modifies this
      ensures tool != "draw" ==>
        lastDrawnShapeId == old(lastDrawnShapeId) && isDrawing == old(isDrawing)
      ensures tool == "draw" ==>
        && var seen := LastDraw(added + updated);
           && lastDrawnShapeId == (if seen.Some? then seen else old(lastDrawnShapeId))
           && isDrawing == (old(isDrawing) || seen.Some?)
    {
      if tool != "draw" {
        return;
      }
      var i := 0;
      while i < |added|
        invariant 0 <= i <= |added|
        invariant var seen := LastDraw(added[..i]);
          && lastDrawnShapeId == (if seen.Some? then seen else old(lastDrawnShapeId))
          && isDrawing == (old(isDrawing) || seen.Some?)
      {
        assert added[..i + 1][..i] == added[..i];
        if IsDrawRecord(added[i]) {
          lastDrawnShapeId := Some(added[i].id);
          isDrawing := true;
        }
        i := i + 1;
      }
      assert added[..|added|] == added;
      assert added + updated[..0] == added;
      var k := 0;
      while k < |updated|
        invariant 0 <= k <= |updated|
        invariant var seen := LastDraw(added + updated[..k]);
          && lastDrawnShapeId == (if seen.Some? then seen else old(lastDrawnShapeId))
          && isDrawing == (old(isDrawing) || seen.Some?)
      {
        LastDrawAppend(added, updated[..k]);
        LastDrawAppend(added, updated[..k + 1]);
        assert updated[..k + 1][..k] == updated[..k];
        if IsDrawRecord(updated[k]) {
          lastDrawnShapeId := Some(updated[k].id);
          isDrawing := true;
        }
        k := k + 1;
      }
      assert updated[..|updated|] == updated;
    }

    /**
     * `handleMouseUp` with the current tool and the document when the
     * timeout fires. When a stroke is tracked it answers the shape to convert
     * (only if it still exists as a draw shape) and clears the tracking.
     */
    method HandleMouseUp(tool: string, doc: Doc) returns (convert: Option<ShapeId>)
      modifies this
      ensures !(tool == "draw" && old(isDrawing) && Truthy(old(lastDrawnShapeId))) ==>
        && convert.None?
        && lastDrawnShapeId == old(lastDrawnShapeId) && isDrawing == old(isDrawing)
      ensures tool == "draw" && old(isDrawing) && Truthy(old(lastDrawnShapeId)) ==>
        && lastDrawnShapeId.None? && !isDrawing
        && var id := old(lastDrawnShapeId).value;
           convert == (if id in doc && doc[id].props.Draw? then Some(id) else None)
      ensures convert.Some? ==> convert.value in doc && doc[convert.value].props.Draw?
    {
      convert := None;
      if !(tool == "draw" && isDrawing && Truthy(lastDrawnShapeId)) {
        return;
      }
      // setTimeout(() => { ... }, 100)
      var id := lastDrawnShapeId.value;
      if id in doc && doc[id].props.Draw? {
        convert := Some(id);
      }
      lastDrawnShapeId := None;
      isDrawing := false;
    }
  }

  /**
   * `convertDrawShapeToGeo(shapeId)`: rasterise the shape (nothing happens
   * unless it is a draw shape), classify the raster, then replace the shape
   * according to the kind. The classifier's oracles, the page bounds and
   * the fresh ids are parameters.
   */
  method ConvertDrawShapeToGeo(editor: Editor, classifier: Classifier.TfClassifier, id: ShapeId,
                               pixelsOk: bool, forward: Classifier.Forward,
                               bounds: Option<Box>, newId: ShapeId, assetId: AssetId)
    returns (outcome: Option<string>, replaced: bool)
    requires classifier.Valid()
    requires forward.Output? ==> |forward.probs| == |Classifier.CLASSES|
    requires newId != id && newId !in editor.shapes
    modifies editor`shapes, editor`selected, editor`marks, editor`assets
    modifies classifier`live, classifier`nextTensor
    ensures classifier.Valid() && classifier.live == old(classifier.live)
    ensures outcome.None? <==> Rasterize(old(editor.shapes), id).NoRaster?
    ensures outcome.None? ==> !replaced && editor.shapes == old(editor.shapes)
    ensures outcome.Some? ==>
      outcome.value == Classifier.PredictedLabel(classifier.loaded, pixelsOk, forward)
    ensures replaced <==> outcome.Some? && TargetType(outcome.value).Some? && bounds.Some?
    ensures !replaced ==>
      && editor.shapes == old(editor.shapes) && editor.selected == old(editor.selected)
      && editor.marks == old(editor.marks) && editor.assets == old(editor.assets)
    ensures replaced ==>
      && id in old(editor.shapes) && old(editor.shapes)[id].props.Draw?
      && var target := TargetType(outcome.value).value;
         && editor.marks == old(editor.marks) + [Snapshot(old(editor.shapes), old(editor.assets))]
         && editor.shapes == Replaced(old(editor.shapes), id, newId,
              NewShape(target, bounds.value, old(editor.shapes)[id].props.color, assetId))
         && editor.selected == old(editor.selected) - {id}
         && editor.assets == (if IsImageType(target)
                              then old(editor.assets)[assetId := NewAsset(target, bounds.value)]
                              else old(editor.assets))
  {
    var raster := Rasterize(editor.shapes, id);
    if raster.NoRaster? {
      return None, false;
    }
    var kind := classifier.Predict(pixelsOk, forward);
    outcome := Some(kind);
    replaced := GeneratePredictedShape(editor, kind, id, editor.shapes[id], bounds, newId, assetId);
  }

  /**
   * The mouse-up path as a whole: `handleMouseUp` and, when it hands over a
   * tracked draw shape, `convertDrawShapeToGeo` on it. The doodle is
   * replaced exactly when a stroke was tracked under the draw tool, it is
   * still a draw shape, its label is mapped and its bounds are known.
   */
  method MouseUpThenConvert(tracker: DrawTracker, tool: string, editor: Editor,
                            classifier: Classifier.TfClassifier, pixelsOk: bool,
                            forward: Classifier.Forward, bounds: Option<Box>,
                            newId: ShapeId, assetId: AssetId)
    returns (replaced: bool)
    requires classifier.Valid()
    requires forward.Output? ==> |forward.probs| == |Classifier.CLASSES|
    requires newId !in editor.shapes
    modifies tracker, editor`shapes, editor`selected, editor`marks, editor`assets
    modifies classifier`live, classifier`nextTensor
    ensures classifier.Valid() && classifier.live == old(classifier.live)
    ensures !(tool == "draw" && old(tracker.isDrawing) && Truthy(old(tracker.lastDrawnShapeId))) ==>
      && !replaced
      && tracker.lastDrawnShapeId == old(tracker.lastDrawnShapeId)
      && tracker.isDrawing == old(tracker.isDrawing)
    ensures tool == "draw" && old(tracker.isDrawing) && Truthy(old(tracker.lastDrawnShapeId)) ==>
      && tracker.lastDrawnShapeId.None? && !tracker.isDrawing
      && var id := old(tracker.lastDrawnShapeId).value;
         replaced <==>
           && id in old(editor.shapes) && old(editor.shapes)[id].props.Draw?
           && TargetType(Classifier.PredictedLabel(classifier.loaded, pixelsOk, forward)).Some?
           && bounds.Some?
    ensures !replaced ==>
      && editor.shapes == old(editor.shapes) && editor.selected == old(editor.selected)
      && editor.marks == old(editor.marks) && editor.assets == old(editor.assets)
    ensures replaced ==>
      && var id := old(tracker.lastDrawnShapeId).value;
         && id in old(editor.shapes) && old(editor.shapes)[id].props.Draw?
         && var target := TargetType(Classifier.PredictedLabel(classifier.loaded, pixelsOk, forward)).value;
            && editor.marks == old(editor.marks) + [Snapshot(old(editor.shapes), old(editor.assets))]
            && editor.shapes == Replaced(old(editor.shapes), id, newId,
                 NewShape(target, bounds.value, old(editor.shapes)[id].props.color, assetId))
            && editor.selected == old(editor.selected) - {id}
            && editor.assets == (if IsImageType(target)
                                 then old(editor.assets)[assetId := NewAsset(target, bounds.value)]
                                 else old(editor.assets))
  {
    var convert := tracker.HandleMouseUp(tool, editor.shapes);
    replaced := false;
    if convert.Some? {
      var outcome;
      outcome, replaced := ConvertDrawShapeToGeo(editor, classifier, convert.value, pixelsOk, forward,
                                                 bounds, newId, assetId);
    }
  }
}
