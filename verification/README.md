# doodle-autocomplete, modelled in Dafny

doodle-autocomplete turns a hand-drawn doodle into a clean shape. It has two front ends:

- **The p5.js demo** (`demo/mySketch.js`) tracks the bounding box of a stroke while the mouse is dragged. On release it pads the box and clamps it to the canvas. A small classifier labels the crop, and a canonical shape descriptor (centre, size, stroke weight) is appended to a list of persisted shapes.
- **The tldraw demo** (`tldr-demo/src`) waits for each finished draw shape. It normalises the stroke into a 28x28 raster and classifies it with a 16-class TensorFlow.js model. When the label is one it knows, it replaces the doodle with a geo or image shape in one undoable history step. The demo also has a drag-to-create "tree" tool.

Both front ends decide the same way. They take the first index of the largest probability and accept its class only if that probability is at least 0.6. Otherwise the label is `"unknown"`.

The model has eight modules, one per file:

| file | module | models |
|---|---|---|
| `numeric.dfy` | `Numeric` | `Math.min`/`max`/`ceil` on reals, and max/min/indexOf over a sequence |
| `decision.dfy` | `Decision` | the arg-max and 0.6-threshold policy |
| `classifier.dfy` | `Classifier` | `tldr-demo/src/model/index.ts`: the vocabulary, the load, and `predict` with its tensor disposal |
| `document.dfy` | `Document` | the tldraw editor operations the demo calls, over a map from shape id to shape record, with history stopping points |
| `normalize.dfy` | `Normalize` | the geometry of `generateOffScreenCanvasForPrediction` |
| `app.dfy` | `App` | the label-to-shape table, `generatePredictedShape`, the change and mouse-up tracking, and `convertDrawShapeToGeo` |
| `sketch.dfy` | `Sketch` | the p5 demo's globals and handlers, as class `Sketch` |
| `tree_tool.dfy` | `TreeTool` | class `TreeTool` and its pointer handlers |

Code that updates state in place is modelled as a class with `modifies` clauses: the p5 globals, the tldraw editor, the tracking closure variables, the tool fields and the classifier's tensors. Each method's `ensures` gives its new state in terms of pure functions. Those pure functions carry the properties.

How the model treats the source's numbers and outside calls:

- **Coordinates** are exact reals.
- **Rounding and clamping.** `Math.floor`/`Math.ceil` map to `Floor` and `Ceil`, and p5's `constrain` is written out.
- **Division by a zero extent.** JavaScript gives `24 / 0 = Infinity`, which `Math.min` then ignores. The model writes this out as a case split. A stroke with no extent at all is its own `Degenerate` outcome: the source still rasterises and classifies such a stroke, and so does the model.
- **The p5 crop's last column and row.** The crop's far corner is clamped to `width - 1` (`height - 1`), and `get(x0, y0, w, h)` reads the half-open region `[x0, x0 + w)`. So a stroke reaching the last canvas column or row loses that column or row from the classifier's input, unless the crop also starts there. The model keeps the source's crop and states this as a property of `CropBox`, with a concrete instance in `StrokeOnLastColumnIsCut`.
- **Outside calls become parameters.** These are the classifier's forward pass, the pixel read-back, `getShapePageBounds`, the ids that `createShapeId` and `AssetRecordType.createId` return, and the page point under the pointer.

## Model

| member | source | states |
|---|---|---|
| Numeric.SeqMax | tldr-demo/src/App.tsx:73 | `Math.max(...xs)` is an element of xs and no element exceeds it |
| Numeric.SeqMin | tldr-demo/src/App.tsx:72 | `Math.min(...xs)` is an element of xs and no element is below it |
| Numeric.IndexOf | tldr-demo/src/model/index.ts:50 | `indexOf` answers -1 exactly when the value is absent; otherwise the first position holding it |
| Numeric.Ceil | tldr-demo/src/App.tsx:102 | `Math.ceil(r)` is the least integer not below r |
| Decision.ArgMax | tldr-demo/src/model/index.ts:50 | `probs.indexOf(Math.max(...probs))` is the first index attaining the maximum |
| Decision.FirstMaxUnique | tldr-demo/src/model/index.ts:50 | only one index is the first maximal one, so the chosen index is determined by the probabilities |
| Decision.Confidence | tldr-demo/src/model/index.ts:50-51 | `conf = probs[idx]` is one of the probabilities and none is larger |
| Decision.Decide | tldr-demo/src/model/index.ts:50-53 | the result is "unknown" or a class. A first maximum with probability at least 0.6 yields its class. With "unknown" not a class, the result is "unknown" exactly when the confidence is below 0.6 |
| Decision.ThresholdIsInclusive | tldr-demo/src/model/index.ts:52-53 | a confidence of exactly 0.6 is accepted |
| Decision.TieGoesToFirst | demo/mySketch.js:162 | when probabilities tie at the maximum, the earlier class wins |
| Classifier.ClassesWellFormed | tldr-demo/src/model/index.ts:5-22 | the vocabulary has 16 pairwise-distinct labels, none of them "unknown" |
| Classifier.PredictedLabel | tldr-demo/src/model/index.ts:35-57 | the result is in the vocabulary or "unknown". A missing model, a failed pixel read or a failed forward pass gives "unknown". On success the result is "unknown" iff the confidence is below 0.6, and otherwise it is `CLASSES[idx]` |
| Classifier.TfClassifier.constructor | tldr-demo/src/model/index.ts:24-26 | at module load the model is not yet assigned and no tensor is live |
| Classifier.TfClassifier.LoadSettled | tldr-demo/src/model/index.ts:26-33 | a successful load assigns the model; a failed one only logs |
| Classifier.TfClassifier.Allocate | tldr-demo/src/model/index.ts:42-45 | a new tensor gets a handle not live before, and becomes live |
| Classifier.TfClassifier.Dispose | tldr-demo/src/model/index.ts:58-61 | a disposed tensor is no longer live and nothing else is released |
| Classifier.TfClassifier.Predict | tldr-demo/src/model/index.ts:35-62 | `predict` answers `PredictedLabel` of the oracles. Every tensor it allocated is disposed on every path: the live set afterwards equals the live set before |
| Document.Patched | tldr-demo/src/tool_events/TreeTool.tsx:45-51 | a partial `updateShape` keeps the shape type and changes only the fields the patch names. A style patch on a tree changes only isDraft, dash and fill, and leaves any other shape as it was. A box patch sets x and y, and w and h on a tree, geo or image; other props are kept |
| Document.ApplyPatch | tldr-demo/src/tool_events/TreeTool.tsx:45-51 | `updateShape` keeps the set of ids, changes only the named shape, and ignores a missing id |
| Document.Editor.CreateShape | tldr-demo/src/tool_events/TreeTool.tsx:19-31 | `createShape` adds exactly one record under a fresh id |
| Document.Editor.UpdateShape | tldr-demo/src/tool_events/TreeTool.tsx:45-51 | the document becomes `ApplyPatch` of the old one |
| Document.Editor.DeleteShapes | tldr-demo/src/App.tsx:134 | `deleteShapes` removes exactly the given ids from the document and from the selection |
| Document.Editor.SetSelectedShapes | tldr-demo/src/tool_events/TreeTool.tsx:34 | the selection becomes exactly the given ids |
| Document.Editor.CreateAsset | tldr-demo/src/App.tsx:139-154 | `createAssets` registers the asset under its id |
| Document.Editor.MarkHistoryStoppingPoint | tldr-demo/src/App.tsx:131 | the current shapes and assets are recorded together as one undo target, after the earlier ones |
| Document.Editor.Undo | tldr-demo/src/App.tsx:130-131 | undo restores the shapes and the assets of the latest stopping point and drops that mark; with no mark nothing changes |
| Normalize.Flatten | tldr-demo/src/App.tsx:65-67 | `flatMap` over segments holds every point of every segment and nothing else |
| Normalize.Xs | tldr-demo/src/App.tsx:70 | `xs` lists the x of each point, in order |
| Normalize.Ys | tldr-demo/src/App.tsx:71 | `ys` lists the y of each point, in order |
| Normalize.QuotientOrder | tldr-demo/src/App.tsx:81 | 24 divided by the longer extent is the smaller quotient |
| Normalize.Scale | tldr-demo/src/App.tsx:77-81 | the scale is positive and maps the longer extent to exactly 24. A zero extent drops out as the source's `24/0 = Infinity` does |
| Normalize.ScaledExtentFits | tldr-demo/src/App.tsx:81 | no extent up to the longer one scales beyond 24 |
| Normalize.Offset | tldr-demo/src/App.tsx:82-83 | the centring offset is at least 2, the scaled extent ends by 26, and its midpoint is 14 |
| Normalize.LineWidth | tldr-demo/src/App.tsx:102 | the line width is an integer of at least 1 |
| Normalize.LineWidthCompensates | tldr-demo/src/App.tsx:102 | the line width is the least integer whose scaled width reaches 2 raster pixels |
| Normalize.FitExtent | tldr-demo/src/App.tsx:77-102 | the transform keeps the box and satisfies every fitting fact: scale, offsets, scaled extents within 24, line width |
| Normalize.FitPoints | tldr-demo/src/App.tsx:65-83 | the box holds every point and is tight: a point lies on each of its four edges. The transform built from it is well fitted |
| Normalize.LongerSideFills | tldr-demo/src/App.tsx:81 | the longer side of the box is scaled to exactly 24 |
| Normalize.MapXInside | tldr-demo/src/App.tsx:82-96 | the context maps `[minX, maxX]` onto `[offsetX, offsetX + width·scale]`, which lies within [2, 26] and is centred on 14 |
| Normalize.MapYInside | tldr-demo/src/App.tsx:82-96 | the context maps `[minY, maxY]` onto `[offsetY, offsetY + height·scale]`, which lies within [2, 26] and is centred on 14 |
| Normalize.PointsLandInside | tldr-demo/src/App.tsx:65-96 | every point of the stroke is drawn inside [2, 26] on both axes |
| Normalize.Rasterize | tldr-demo/src/App.tsx:57-106 | a missing shape or a non-draw shape gives no raster. An empty stroke or a single repeated point gives a degenerate transform. Any other stroke gives `FitPoints` of its points |
| Normalize.FlatIffConstant | tldr-demo/src/App.tsx:72-78 | max equals min exactly when all coordinates are equal |
| Normalize.NoExtentIffOnePoint | tldr-demo/src/App.tsx:70-81 | both extents are zero exactly when every point is the same point |
| App.TargetType | tldr-demo/src/App.tsx:115-124 | a replacement type exists exactly for circle, square, line, other and sailboat, with the table's targets |
| App.ReplacedLabels | tldr-demo/src/App.tsx:115-123 | of the classifier's labels only circle, square, other and sailboat are replaced, "line" is never produced, and "unknown" is never replaced |
| App.IsImageType | tldr-demo/src/App.tsx:137 | `startsWith("image_")` holds exactly when the first six characters are `image_` |
| App.OnlySailboatIsImage | tldr-demo/src/App.tsx:115-137 | of the table's labels only sailboat is replaced by an image |
| App.OrOne | tldr-demo/src/App.tsx:172-173 | the `or 1` default of a width or height is never 0 and keeps any non-zero value |
| App.NewShape | tldr-demo/src/App.tsx:137-177 | the replacement sits at the bounds' corner. An `image_` type gives an image with the new asset, any other type a geo shape with the doodle's colour. The size is the bounds' size, with 0 replaced by 1 |
| App.NewAsset | tldr-demo/src/App.tsx:138-154 | the asset is named `<type>.png`, served from `/<type>.png`, with the bounds' size |
| App.Replaced | tldr-demo/src/App.tsx:133-177 | the doodle is gone and the new shape is present; every other shape is unchanged |
| App.ReplacementKeepsCount | tldr-demo/src/App.tsx:133-177 | a replacement swaps one shape for one: the shape count is unchanged |
| App.GeneratePredictedShape | tldr-demo/src/App.tsx:111-183 | a replacement happens iff the label is mapped and bounds exist. It records one stopping point with the old document, then swaps the doodle for `NewShape` and registers the asset for an image. Otherwise nothing changes |
| App.ReplaceThenUndo | tldr-demo/src/App.tsx:130-154 | undo right after a replacement gives back the original shapes, the original assets (an image's asset is gone again) and the original stopping points |
| App.LastDrawIsLast | tldr-demo/src/App.tsx:230-243 | the tracked id belongs to a draw-shape record with no draw-shape record after it, and exists iff some record is a draw shape |
| App.LastDrawAppend | tldr-demo/src/App.tsx:230-243 | a draw record among the updates overrides one among the additions |
| App.DrawTracker.constructor | tldr-demo/src/App.tsx:221-222 | tracking starts with no shape and not drawing |
| App.DrawTracker.HandleChange | tldr-demo/src/App.tsx:224-245 | only under the draw tool, the last draw-shape record seen becomes the tracked shape and sets `isDrawing`. Otherwise nothing changes |
| App.DrawTracker.HandleMouseUp | tldr-demo/src/App.tsx:248-266 | with the draw tool, drawing and a tracked id, the shape is converted only if it still exists as a draw shape, and tracking is reset. Otherwise nothing changes |
| App.ConvertDrawShapeToGeo | tldr-demo/src/App.tsx:186-198 | a missing or non-draw shape is neither classified nor replaced, and then shapes, selection, assets and stopping points are unchanged. Otherwise the label is `PredictedLabel`, and the replacement happens iff the label is mapped and bounds exist. A replacement adds one stopping point holding the old shapes and assets, swaps the doodle for `NewShape` of the target type, the bounds and the doodle's colour, drops the doodle from the selection, and registers `NewAsset` exactly when the target is an `image_` type. No tensor stays live |
| App.MouseUpThenConvert | tldr-demo/src/App.tsx:248-266 | a mouse-up with a tracked drawing resets tracking and converts the tracked shape: it is replaced iff it still exists as a draw shape, its label is mapped and bounds exist. A replacement adds one stopping point holding the old shapes and assets, swaps the doodle for `NewShape` of the target type, the bounds and its colour, drops it from the selection, and registers `NewAsset` exactly for an `image_` target. Without a replacement, shapes, selection, assets and stopping points are unchanged; without a tracked drawing the tracker is too. No tensor stays live |
| Sketch.CropBox | demo/mySketch.js:136-146 | each corner is the padded box's floor (top-left) or ceiling (bottom-right) clamped to [0, size-1]: 0 below the canvas, size-1 beyond it, and otherwise within one pixel of the padded edge. The size is the corner difference, or 1 when the corners meet or cross. The crop never leaves the canvas, and unless it starts on the last column (row) it ends before it |
| Sketch.CropCoversPaddedBox | demo/mySketch.js:136-153 | every point of the half-open padded box that lies before the last canvas column and row is inside the region `get(x0, y0, w, h)` reads, `[x0, x0+w) x [y0, y0+h)` |
| Sketch.Descriptor | demo/mySketch.js:168-172 | the shape is centred on the crop, its size is 0.8 times the crop's shorter side, and its stroke weight is 0.07 times the size clamped to [4, 20]: exactly 4 below the range, exactly 20 above it |
| Sketch.StrokeOnLastColumnIsCut | demo/mySketch.js:136-153 | a stroke whose right edge is on the last canvas column (x = 559.5 on a 560-wide canvas, pad 12) gets a crop from 543 of width 16, ending at 559: the region `get` reads stops before the stroke's edge |
| Sketch.InsideCanvas | demo/mySketch.js:202-204 | a point is inside exactly when its whole-pixel coordinates are pixels of the canvas |
| Sketch.Constrain | demo/mySketch.js:141-144 | p5's `constrain` lands in [low, high], keeps a value already there, and gives the nearest value of the range |
| Sketch.PersistedShapeIsCanonical | demo/mySketch.js:160-174 | a persisted shape's label is a class or "unknown", and "unknown" exactly when the confidence is below 0.6. Its centre lies on the canvas and its stroke is in [4, 20] |
| Sketch.Sketch.Setup | demo/mySketch.js:56-60 | a 560x560 canvas with no shapes, no model yet and the reset box |
| Sketch.Sketch.ModelLoaded | demo/mySketch.js:86-87 | the load promise assigns the model and keeps the sketch's invariant |
| Sketch.Sketch.ResetCanvas | demo/mySketch.js:91-104 | the box becomes the sentinel (width, height, 0, 0) and neither flag is set |
| Sketch.Sketch.Clear | demo/mySketch.js:72 | the shape list is emptied and the canvas reset |
| Sketch.Sketch.MousePressed | demo/mySketch.js:106-112 | a press inside the canvas starts a stroke whose box is the pressed point; a press outside changes nothing |
| Sketch.Sketch.MouseDragged | demo/mySketch.js:114-124 | a drag only grows the box, which then holds the current and previous mouse points. When not drawing, or outside the canvas, nothing changes |
| Sketch.Sketch.PredictFromDrawingAndPersist | demo/mySketch.js:132-184 | with no model or nothing drawn, nothing changes; a synchronous throw also leaves the box in place. Otherwise the box is reset to the sentinel. A resolved prediction appends exactly one `Descriptor` of the decided label and the crop, and earlier shapes stay as they were |
| Sketch.Sketch.MouseReleased | demo/mySketch.js:126-184 | releasing ends the stroke. With no stroke in progress nothing changes. With no model, or a forward pass that throws, the shapes, the box and `drewAnything` stay as they were. Otherwise the box is reset to the sentinel and, when the prediction resolves, exactly one `Descriptor` of the decided label and the crop of the old box is appended |
| TreeTool.DragBox | tldr-demo/src/tool_events/TreeTool.tsx:40-43 | the drag box is at least 1x1, contains both the start and the pointer, has a corner at one of them, and is tight once the drag spans a pixel |
| TreeTool.IsClick | tldr-demo/src/tool_events/TreeTool.tsx:62-65 | a click is a release whose drag box would be under 3 on both sides |
| TreeTool.ClickBox | tldr-demo/src/tool_events/TreeTool.tsx:66-73 | a click gives a 160x44 box centred on the start point |
| TreeTool.Released | tldr-demo/src/tool_events/TreeTool.tsx:54-88 | pointer-up touches only the draft: the set of ids and every other shape are unchanged |
| TreeTool.ReleaseFinalises | tldr-demo/src/tool_events/TreeTool.tsx:61-86 | after pointer-up the draft is a final tree: not a draft, with solid dash and fill. A click moves it to the centred 160x44 box; a drag keeps its geometry |
| TreeTool.MoveKeepsStyle | tldr-demo/src/tool_events/TreeTool.tsx:37-51 | a move keeps the draft's style and gives it a box of at least 1x1 containing the start and the pointer |
| TreeTool.TreeTool.constructor | tldr-demo/src/tool_events/TreeTool.tsx:6-7 | the tool starts with neither a start point nor a draft |
| TreeTool.TreeTool.OnPointerDown | tldr-demo/src/tool_events/TreeTool.tsx:11-35 | records the start point. Creates one 1x1 draft tree at it (draft, solid dash, semi fill) and makes it the only selection |
| TreeTool.TreeTool.OnPointerMove | tldr-demo/src/tool_events/TreeTool.tsx:37-52 | without a start point or a draft, nothing changes. Otherwise only the draft is patched, to `DragBox` of the start and the pointer |
| TreeTool.TreeTool.OnPointerUp | tldr-demo/src/tool_events/TreeTool.tsx:54-88 | both fields are cleared. With no pending draft the document is unchanged. Otherwise the document becomes `Released` |
| TreeTool.TreeTool.OnCancel | tldr-demo/src/tool_events/TreeTool.tsx:90-95 | deletes the pending draft and no other shape, then clears both fields |
| TreeTool.DrawTree | tldr-demo/src/tool_events/TreeTool.tsx:11-88 | a whole press-move-release gesture adds exactly one shape, a final tree, and leaves every other shape unchanged. A drag leaves it on `DragBox` of the press and the last move point; a click on the 160x44 box centred on the press point |

## Left out

- Rendering is not modelled. This covers `Shape.draw`, `renderAll`, `drawStar`, the live scribble, the bbox overlay, the tldraw shape components and the 28x28 pixels themselves. For the tldraw raster the model keeps the transform the canvas context receives.
- The p5 crop-and-scale of the region of interest (`get`, `pg.image`) and `fromPixels` are not modelled. They only feed the classifier, which is an oracle here.
- The classifier is an oracle. Its output is assumed to be as long as the vocabulary it is read against (5 classes in the p5 demo, 16 in the tldraw demo). Neither demo checks this, and a longer output would make `classes[idx]` undefined.
- Floating point is not modelled: coordinates are exact reals, and NaN and overflow do not arise. The only IEEE behaviour kept is the source's reliance on `24/0 = Infinity` inside `Math.min`, which is written out.
- Normalize.Rasterize does not model the non-finite transform of a degenerate stroke. The `Degenerate` outcome does not say what the source draws when every point coincides or the stroke is empty; the source classifies that raster anyway, and so does the model.
- Timing is not modelled. The 100 ms `setTimeout` in `handleMouseUp`, the awaited prediction in `convertDrawShapeToGeo` and the p5 `out.array().then(...)` callback run immediately, with no other event in between. In the p5 demo the box reset precedes the callback in the source. The callback does not read the box, so the final state is the same.
- Sketch.Sketch.PredictFromDrawingAndPersist: a synchronous throw from the forward pass leaves the tensor that `tf.tidy` returned undisposed. Tensor lifetimes are modelled for the tldraw classifier only.
- The transformers.js worker path (`transformersConvertDrawShapeToGeo`, `tldr-demo/src/worker.js`, `tldr-demo/src/model/transformers.ts`) is not part of this model. It is not called, and its classifier is invisible. Two details of it go unmodelled: its threshold is 0.5 rather than 0.6, and it reads `result[0]` after its error path returns null.
- Unmapped labels fall back to nothing. A recognised label that is not a key of `shapeTypeMap` leaves the doodle in place; the model follows the code.
- JavaScript's `in` on inherited keys is not modelled. `label in shapeTypeMap` would also hold for names such as `toString`, but the classifier never produces those.
- App.DrawTracker.HandleChange: each updated entry is given as its `to` record, and its id is taken as the key it is stored under in the change. tldraw keeps the two equal.
- App.GeneratePredictedShape: `editor.run` is modelled as its steps in sequence. The asset is registered before the shape is created, as in the source. The absence of an editor before mount is not modelled, because every handler that reaches it runs after mount.
- TreeTool: the cursor calls (`onEnter`, `onExit`, the cursor reset in `onCancel`) are left out. They are UI only.
- The Express static servers, the React UI chrome and the registries are not part of this model.
