/**
 * The part of the tldraw editor that the tldraw demo consumes: a store of
 * shape records keyed by id, an asset table, the selection and the history
 * stopping points that undo returns to. Only the operations the demo calls
 * are modelled, each with the effect the demo relies on.
 */
module Document {
  import opened Wrappers

  type ShapeId = string
  type AssetId = string

  datatype Point = Point(x: real, y: real)

  /** JavaScript truthiness of a nullable id: null and "" are false. */
  predicate Truthy(id: Option<ShapeId>)
  {
    id.Some? && id.value != ""
  }

  /** An axis-aligned page-space rectangle. */
  datatype Box = Box(x: real, y: real, w: real, h: real)

  /** The props of the shape kinds the demo touches. */
  datatype Props =
    | Draw(segments: seq<seq<Point>>, color: string)
    | Geo(geo: string, w: real, h: real, color: string)
    | Image(assetId: AssetId, w: real, h: real)
    | Tree(w: real, h: real, isDraft: bool, dash: string, fill: string)
    | Other(typeName: string)   // any other shape type

  /** A shape record: its page position and its props. */
  datatype ShapeRecord = ShapeRecord(x: real, y: real, props: Props)

  /** Two props of the same shape type. */
  predicate SameKind(a: Props, b: Props)
  {
    || (a.Draw? && b.Draw?)
    || (a.Geo? && b.Geo?)
    || (a.Image? && b.Image?)
    || (a.Tree? && b.Tree?)
    || (a.Other? && a == b)
  }

  datatype Asset = Asset(name: string, src: string, w: real, h: real)

  type Doc = map<ShapeId, ShapeRecord>

  /** The store as a history stopping point records it: shapes and assets. */
  datatype Snapshot = Snapshot(shapes: Doc, assets: map<AssetId, Asset>)

  /** A partial update passed to `editor.updateShape`. */
  datatype Patch =
    | SetBox(box: Box)
    | SetStyle(isDraft: bool, dash: string, fill: string)

  /** The record after a partial update: only the fields the patch names change. */
  function Patched(r: ShapeRecord, patch: Patch): (r': ShapeRecord)
    ensures SameKind(r'.props, r.props)
    ensures patch.SetStyle? ==> r'.x == r.x && r'.y == r.y
    ensures patch.SetStyle? && !r.props.Tree? ==> r' == r
    ensures patch.SetBox? ==> r'.x == patch.box.x && r'.y == patch.box.y
    ensures (r.props.Tree? || r.props.Geo? || r.props.Image?) && patch.SetBox? ==>
      r'.props == r.props.(w := patch.box.w, h := patch.box.h)
    ensures (r.props.Draw? || r.props.Other?) && patch.SetBox? ==> r'.props == r.props
    ensures r.props.Tree? && patch.SetStyle? ==>
      r'.props == r.props.(isDraft := patch.isDraft, dash := patch.dash, fill := patch.fill)
  {
    match patch
    case SetBox(b) =>
      var props :=
        match r.props
        case Geo(g, _, _, c) => Geo(g, b.w, b.h, c)
        case Image(a, _, _) => Image(a, b.w, b.h)
        case Tree(_, _, d, s, f) => Tree(b.w, b.h, d, s, f)
        case _ => r.props;
      ShapeRecord(b.x, b.y, props)
    case SetStyle(d, s, f) =>
      match r.props
      case Tree(w, h, _, _, _) => r.(props := Tree(w, h, d, s, f))
      case _ => r
  }

  /** `editor.updateShape`: a missing id is ignored. */
  function ApplyPatch(doc: Doc, id: ShapeId, patch: Patch): (doc': Doc)
    ensures doc'.Keys == doc.Keys
    ensures forall k :: k in doc && k != id ==> doc'[k] == doc[k]
    ensures id in doc ==> doc'[id] == Patched(doc[id], patch)
  {
    if id in doc then doc[id := Patched(doc[id], patch)] else doc
  }

  class Editor {
    var shapes: Doc
    var assets: map<AssetId, Asset>
    var selected: set<ShapeId>
    /** The store as it was at each history stopping point, oldest first. */
    var marks: seq<Snapshot>

    constructor (initial: Doc)
      ensures shapes == initial && assets == map[] && selected == {} && marks == []
    {
      shapes := initial;
      assets := map[];
      selected := {};
      marks := [];
    }

    /** `editor.createShape` with an id that is not in use. */
    method CreateShape(id: ShapeId, r: ShapeRecord)
      requires id !in shapes
      modifies this`shapes
      ensures shapes == old(shapes)[id := r]
    {
      shapes := shapes[id := r];
    }

    /** `editor.updateShape`. */
    method UpdateShape(id: ShapeId, patch: Patch)
      modifies this`shapes
      ensures shapes == ApplyPatch(old(shapes), id, patch)
    {
      shapes := ApplyPatch(shapes, id, patch);
    }

    /** `editor.deleteShapes`: missing ids are ignored; deleted shapes leave the selection. */
    method DeleteShapes(ids: set<ShapeId>)
      modifies this`shapes, this`selected
      ensures shapes == old(shapes) - ids
      ensures selected == old(selected) - ids
    {
      shapes := shapes - ids;
      selected := selected - ids;
    }

    /** `editor.setSelectedShapes`. */
    method SetSelectedShapes(ids: set<ShapeId>)
      modifies this`selected
      ensures selected == ids
    {
      selected := ids;
    }

    /** `editor.createAssets` for one asset. */
    method CreateAsset(id: AssetId, a: Asset)
      modifies this`assets
      ensures assets == old(assets)[id := a]
    {
      assets := assets[id := a];
    }

    /** `editor.markHistoryStoppingPoint`: undo will come back to this store. */
    method MarkHistoryStoppingPoint()
      modifies this`marks
      ensures marks == old(marks) + [Snapshot(shapes, assets)]
    {
      marks := marks + [Snapshot(shapes, assets)];
    }

    /** `editor.undo`: return the shapes and assets to the latest stopping point. */
    method Undo()
      modifies this`shapes, this`assets, this`marks
      ensures old(marks) == [] ==> shapes == old(shapes) && assets == old(assets) && marks == []
      ensures old(marks) != [] ==>
        && shapes == old(marks)[|old(marks)| - 1].shapes
        && assets == old(marks)[|old(marks)| - 1].assets
        && marks == old(marks)[..|old(marks)| - 1]
    {
      if marks != [] {
        shapes := marks[|marks| - 1].shapes;
        assets := marks[|marks| - 1].assets;
        marks := marks[..|marks| - 1];
      }
    }
  }
}
