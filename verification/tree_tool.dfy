/**
 * The drag-to-create tool of the tldraw demo: pointer-down creates a
 * draft tree shape, pointer-move stretches it between the start point and
 * the pointer, pointer-up snaps a click to a default-sized box and switches
 * the draft to its final look, and cancel throws the draft away.
 *
 * The page point under the pointer and the id `createShapeId` hands out
 * are parameters; the cursor is not modelled.
 */
module TreeTool {
  import opened Wrappers
  import opened Numeric
  import opened Document

  /** The default box a click produces. */
  const ClickW: real := 160.0
  const ClickH: real := 44.0

  /** Movement below this on both axes counts as a click. */
  const ClickSlop: real := 3.0

  /** The props a fresh draft gets. */
  const DraftProps: Props := Tree(1.0, 1.0, true, "solid", "semi")

  /** The style patch pointer-up applies. */
  const FinalStyle: Patch := SetStyle(false, "solid", "solid")

  /** The box spanned by the start point and the pointer, at least 1 by 1. */
  function DragBox(s: Point, p: Point): (b: Box)
    ensures b.w >= 1.0 && b.h >= 1.0
    ensures b.x <= s.x <= b.x + b.w && b.x <= p.x <= b.x + b.w
    ensures b.y <= s.y <= b.y + b.h && b.y <= p.y <= b.y + b.h
    ensures b.x == s.x || b.x == p.x
    ensures b.y == s.y || b.y == p.y
    ensures Abs(p.x - s.x) >= 1.0 ==> b.x + b.w == Max(s.x, p.x)
    ensures Abs(p.y - s.y) >= 1.0 ==> b.y + b.h == Max(s.y, p.y)
  {
    Box(Min(s.x, p.x), Min(s.y, p.y), Max(1.0, Abs(p.x - s.x)), Max(1.0, Abs(p.y - s.y)))
  }

  /** The pointer moved less than the slop on both axes. */
  predicate IsClick(s: Point, p: Point)
    ensures IsClick(s, p) <==> DragBox(s, p).w < ClickSlop && DragBox(s, p).h < ClickSlop
  {
    Abs(p.x - s.x) < ClickSlop && Abs(p.y - s.y) < ClickSlop
  }

  /** The 160x44 box centred on the click. */
  function ClickBox(s: Point): (b: Box)
    ensures b.w == ClickW && b.h == ClickH
    ensures b.x + b.w / 2.0 == s.x && b.y + b.h / 2.0 == s.y
  {
    Box(s.x - ClickW / 2.0, s.y - ClickH / 2.0, ClickW, ClickH)
  }

  /** The document after pointer-up on the draft `id` started at `s` and released at `p`. */
  function Released(doc: Doc, id: ShapeId, s: Point, p: Point): (doc': Doc)
    ensures doc'.Keys == doc.Keys
    ensures forall k :: k in doc && k != id ==> doc'[k] == doc[k]
  {
    var resized := if IsClick(s, p) then ApplyPatch(doc, id, SetBox(ClickBox(s))) else doc;
    ApplyPatch(resized, id, FinalStyle)
  }

  /**
   * Pointer-up turns a pending tree draft into a final tree: not a draft,
   * solid outline and fill; a click also gets the default box centred on
   * the start point, while a drag keeps the geometry the last move gave it.
   */
  lemma ReleaseFinalises(doc: Doc, id: ShapeId, s: Point, p: Point)
    requires id in doc && doc[id].props.Tree?
    ensures var r := Released(doc, id, s, p)[id];
      && r.props.Tree? && !r.props.isDraft && r.props.dash == "solid" && r.props.fill == "solid"
      && (IsClick(s, p) ==>
            && r.x == s.x - 80.0 && r.y == s.y - 22.0
            && r.props.w == ClickW && r.props.h == ClickH)
      && (!IsClick(s, p) ==>
            && r.x == doc[id].x && r.y == doc[id].y
            && r.props.w == doc[id].props.w && r.props.h == doc[id].props.h)
  {
    if IsClick(s, p) {
      var resized := ApplyPatch(doc, id, SetBox(ClickBox(s)));
      assert resized[id].props.Tree?;
    }
  }

  /** A draft stretched by a move keeps its draft style; only its box changes. */
  lemma MoveKeepsStyle(doc: Doc, id: ShapeId, s: Point, p: Point)
    requires id in doc && doc[id].props.Tree?
    ensures var r := ApplyPatch(doc, id, SetBox(DragBox(s, p)))[id];
      && r.props.Tree?
      && r.props.isDraft == doc[id].props.isDraft
      && r.props.dash == doc[id].props.dash && r.props.fill == doc[id].props.fill
      && r.props.w >= 1.0 && r.props.h >= 1.0
      && r.x <= s.x <= r.x + r.props.w && r.x <= p.x <= r.x + r.props.w
      && r.y <= s.y <= r.y + r.props.h && r.y <= p.y <= r.y + r.props.h
  {
  }

  class TreeTool {
    const editor: Editor
    var start: Option<Point>
    var draftId: Option<ShapeId>

    /**
     * The two fields are set together by pointer-down and cleared together,
     * so a pending draft always has a start point.
     */
    ghost predicate Valid()
      reads this
    {
      start.Some? <==> draftId.Some?
    }

    constructor (editor: Editor)
      ensures this.editor == editor && Valid() && start.None? && draftId.None?
    {
      this.editor := editor;
      start := None;
      draftId := None;
    }

    /** `onPointerDown` at page point `p`; `id` is the fresh id from `createShapeId`. */
    method OnPointerDown(p: Point, id: ShapeId)
      requires Valid()
      requires id !in editor.shapes
      modifies this, editor`shapes, editor`selected
      ensures Valid() && start == Some(p) && draftId == Some(id)
      ensures editor.shapes == old(editor.shapes)[id := ShapeRecord(p.x, p.y, DraftProps)]
      ensures editor.selected == {id}
    {
      start := Some(p);
      draftId := Some(id);
      editor.CreateShape(id, ShapeRecord(p.x, p.y, DraftProps));
      editor.SetSelectedShapes({id});
    }

    /** `onPointerMove` at page point `p`: stretch the pending draft between start and `p`. */
    method OnPointerMove(p: Point)
      requires Valid()
      modifies editor`shapes
      ensures Valid()
      ensures !Truthy(draftId) ==> editor.shapes == old(editor.shapes)
      ensures Truthy(draftId) ==>
        editor.shapes == ApplyPatch(old(editor.shapes), draftId.value, SetBox(DragBox(start.value, p)))
    {
      if start.None? || !Truthy(draftId) {
        return;
      }
      editor.UpdateShape(draftId.value, SetBox(DragBox(start.value, p)));
    }

    /** `onPointerUp` at page point `p`: finish the pending draft, if any, and forget it. */
    method OnPointerUp(p: Point)
      requires Valid()
      modifies this, editor`shapes
      ensures Valid() && start.None? && draftId.None?
      ensures !Truthy(old(draftId)) ==> editor.shapes == old(editor.shapes)
      ensures Truthy(old(draftId)) ==>
        editor.shapes == Released(old(editor.shapes), old(draftId).value, old(start).value, p)
    {
      var s := start;
      var id := draftId;
      start := None;
      draftId := None;
      if s.None? || !Truthy(id) {
        return;
      }
      if IsClick(s.value, p) {
        editor.UpdateShape(id.value, SetBox(ClickBox(s.value)));
      }
      editor.UpdateShape(id.value, FinalStyle);
    }

    /** `onCancel`: delete the pending draft, if any, and forget it. */
    method OnCancel()
      requires Valid()
      modifies this, editor`shapes, editor`selected
      ensures Valid() && start.None? && draftId.None?
      ensures Truthy(old(draftId)) ==>
        && editor.shapes == old(editor.shapes) - {old(draftId).value}
        && editor.selected == old(editor.selected) - {old(draftId).value}
      ensures !Truthy(old(draftId)) ==>
        editor.shapes == old(editor.shapes) && editor.selected == old(editor.selected)
    {
      if Truthy(draftId) {
        editor.DeleteShapes({draftId.value});
      }
      start := None;
      draftId := None;
    }
  }

  /**
   * A whole gesture: press at `s`, move to `q`, release at `p`. Exactly one
   * shape is added, a final tree; nothing else in the document changes. A
   * drag leaves the tree on the box of the last move, since release only
   * restyles it; a click puts it on the default box centred on `s`.
   */
  method DrawTree(tool: TreeTool, s: Point, q: Point, p: Point, id: ShapeId)
    requires tool.Valid()
    requires id != "" && id !in tool.editor.shapes
    modifies tool, tool.editor`shapes, tool.editor`selected
    ensures tool.Valid() && tool.start.None? && tool.draftId.None?
    ensures tool.editor.shapes.Keys == old(tool.editor.shapes).Keys + {id}
    ensures forall k :: k in old(tool.editor.shapes) ==> tool.editor.shapes[k] == old(tool.editor.shapes)[k]
    ensures var r := tool.editor.shapes[id];
      && r.props.Tree? && !r.props.isDraft && r.props.dash == "solid" && r.props.fill == "solid"
      && r.props.w >= 1.0 && r.props.h >= 1.0
      && (!IsClick(s, p) ==>
            && var b := DragBox(s, q);
               r.x == b.x && r.y == b.y && r.props.w == b.w && r.props.h == b.h)
      && (!IsClick(s, p) ==> r.x <= s.x <= r.x + r.props.w && r.y <= s.y <= r.y + r.props.h)
      && (IsClick(s, p) ==>
            && r.x == s.x - ClickW / 2.0 && r.y == s.y - ClickH / 2.0
            && r.props.w == ClickW && r.props.h == ClickH)
    ensures tool.editor.selected == {id}
  {
    tool.OnPointerDown(s, id);
    ghost var afterDown := tool.editor.shapes;
    tool.OnPointerMove(q);
    MoveKeepsStyle(afterDown, id, s, q);
    ghost var afterMove := tool.editor.shapes;
    tool.OnPointerUp(p);
    ReleaseFinalises(afterMove, id, s, p);
  }
}
