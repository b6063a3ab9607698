# Scan-area geometry and barcode filtering

This project models the deterministic part of an Android barcode scanner. That scanner wraps an external barcode detector and draws its results on an overlay. The model covers three pieces:

- **The cutout view.** `CustomRectangleWithRoundedCornersCutoutView` is a class with four public edge fields: `xAxisLeftEdge`, `xAxisRightEdge`, `yAxisTopEdge` and `yAxisBottomEdge`. Every draw pass recomputes them from the canvas size. The fixed scanner size is 500 x 500 and the centre offsets are 0.5. A draw pass also builds three paths:
  - the background mask, with the cutout appended to it;
  - the rounded-rectangle cutout;
  - eight corner-accent strokes.

  Paths are sequences of `MoveTo`, `LineTo` and `QuadTo` commands. Module `CutoutView`.
- **The barcode graphic.** `draw` translates a barcode's bounding box into overlay space. It then reorders the two x-coordinates with min/max, so that a mirrored box still has left <= right. The y-coordinates are translated in place. Drawing a null barcode throws "Attempting to draw a null barcode." Module `Drawing`; its `Graphic` value is built by `BarcodeGraphic(...)`, named after the Kotlin class.
- **The processor's success callback.** `withinScanArea` tests strict containment of a translated box in the cutout. `onSuccess` walks the detected barcodes in order. For each barcode that has a bounding box and passes the test, it adds a graphic to the overlay. Module `ScannerProcessor`.

Coordinates are `real`, so there is no float rounding. The overlay's transform (`translateX`, `translateY`) belongs to `GraphicOverlay`. GraphicOverlay.kt is not part of this model. The transform is therefore a pair of arbitrary functions held by a stand-in class (module `GraphicOverlays`). A few properties assume the transform is order-preserving (no mirror) or order-reversing (mirror).

Two supporting modules hold value types. `Detection` has the detector's `Rect`, `Point` and `Barcode`, with nullable box and corner points. `Wrappers` has `Option` and `Result`.

Some behaviours that the code has:

- **No cutout view.** If the processor has no cutout view (`rectOverly` is null), `withinScanArea` returns `false`. Every detection is then rejected.
- **Logging can throw.** After each barcode, the logging helper dereferences the bounding box and the corner points with `!!`. For a barcode that lacks either one, this throws out of `onSuccess`, and the walk stops there. `OnSuccess` returns the index of that barcode. Its result covers the barcodes up to and including it.
- **Background path size.** The background path uses the view's own `right` and `bottom`, which are its layout position in the parent. It does not use the canvas size. The model keeps these as class fields. `SetFrame` stands in for the framework's layout pass.
- **Null box in draw.** A graphic whose barcode has no bounding box draws from `RectF(null)`, which Android's copy constructor makes all zeros.

## Model

| member | source | states |
|---|---|---|
| `CutoutView.ScanEdges` | app/src/main/java/com/google/mlkit/vision/demo/CustomRectangleWithRoundedCornersCutoutView.kt:84-90 | the edges of a draw pass span exactly the scanner width and height (so left < right and top < bottom), centred at (width * 0.5, height * 0.5) |
| `CutoutView.NoClamping` | app/src/main/java/com/google/mlkit/vision/demo/CustomRectangleWithRoundedCornersCutoutView.kt:87-90 | nothing is clamped: the left edge is negative, and the right edge is past the canvas width, exactly when the canvas is narrower than the scanner; likewise vertically |
| `CutoutView.CreateBackgroundPath` | app/src/main/java/com/google/mlkit/vision/demo/CustomRectangleWithRoundedCornersCutoutView.kt:60-66 | four lines from the implicit origin, each axis-aligned, the first along the top edge, through the corners (right,0), (right,bottom), (0,bottom) of the view rectangle and back to (0,0) |
| `CutoutView.CreateQrPath` | app/src/main/java/com/google/mlkit/vision/demo/CustomRectangleWithRoundedCornersCutoutView.kt:68-82 | a clockwise tour of the four corners from the top-left: a move to the radius before corner 0, then for each corner k a quad controlled by k ending the radius after it and a line to the radius before corner k+1, closed at its start; every point is on the cutout's border when the cutout is at least the radius in size |
| `CutoutView.CreateCutoutWithCorners` | app/src/main/java/com/google/mlkit/vision/demo/CustomRectangleWithRoundedCornersCutoutView.kt:103-131 | for each corner k clockwise from the top-left, five commands: a stroke from the edge length to the radius before k, then a sub-path rounding k and running out to the edge length after it; eight sub-paths in all, each started by a move; every point is within the edge length of a corner, and on the cutout's border when the cutout is at least the edge length in size |
| `CutoutView.DrawnAccentsOnBorder` | app/src/main/java/com/google/mlkit/vision/demo/CustomRectangleWithRoundedCornersCutoutView.kt:87-131 | for the edges of any draw pass, every corner-accent point lies on the cutout's border |
| `CutoutView.CustomRectangleWithRoundedCornersCutoutView.constructor` | app/src/main/java/com/google/mlkit/vision/demo/CustomRectangleWithRoundedCornersCutoutView.kt:34-37 | before any draw pass all four edges are 0 and no path exists |
| `CutoutView.CustomRectangleWithRoundedCornersCutoutView.OnDraw` | app/src/main/java/com/google/mlkit/vision/demo/CustomRectangleWithRoundedCornersCutoutView.kt:84-101 | a null canvas changes nothing; otherwise the edges become the canvas's scan edges, the background path is the view rectangle followed by the cutout, and the cutout and accents are rebuilt from the new edges |
| `CutoutView.RedrawIsIdempotent` | app/src/main/java/com/google/mlkit/vision/demo/CustomRectangleWithRoundedCornersCutoutView.kt:86-94 | a second draw pass on a canvas of the same size leaves the edges and all three paths equal to the snapshot the first pass left, which it returns; that snapshot is what one pass builds (the canvas's scan edges, the frame's background followed by the cutout, the cutout and the accents), and the frame is unchanged |
| `Drawing.Draw` | app/src/main/java/com/google/mlkit/vision/demo/kotlin/barcodescanner/BarcodeGraphic.kt:49-61 | a null barcode fails with "Attempting to draw a null barcode."; otherwise left <= right, {left, right} is the multiset {translateX(left), translateX(right)}, and top and bottom are the translated top and bottom, not exchanged |
| `Drawing.NoFlipKeepsSides` | app/src/main/java/com/google/mlkit/vision/demo/kotlin/barcodescanner/BarcodeGraphic.kt:53-57 | with an order-preserving translateX, an ordered box is drawn with left = translateX(left) and right = translateX(right) |
| `Drawing.FlipSwapsSides` | app/src/main/java/com/google/mlkit/vision/demo/kotlin/barcodescanner/BarcodeGraphic.kt:53-57 | with a mirroring translateX, an ordered box is drawn with left = translateX(right) and right = translateX(left) |
| `ScannerProcessor.WithinScanArea` | android/app/src/main/java/com/reactnativescanner/BarcodeScannerProcessor.kt:63-73 | without a cutout view every box is rejected |
| `ScannerProcessor.WithinScanAreaIffBoxInsideCutout` | android/app/src/main/java/com/reactnativescanner/BarcodeScannerProcessor.kt:65-71 | for a box with top <= bottom and left <= right, the test accepts exactly when a cutout exists and every point of the closed box is in the cutout's open interior |
| `ScannerProcessor.BoundaryExcluded` | android/app/src/main/java/com/reactnativescanner/BarcodeScannerProcessor.kt:66-69 | a box equal to the cutout's edges is rejected |
| `ScannerProcessor.NestedBoxAccepted` | android/app/src/main/java/com/reactnativescanner/BarcodeScannerProcessor.kt:66-69 | any box nested in an accepted box is accepted |
| `ScannerProcessor.UndrawnCutoutRejects` | android/app/src/main/java/com/reactnativescanner/BarcodeScannerProcessor.kt:66-69 | against the all-zero edges of an undrawn cutout, no box with top <= bottom is accepted |
| `ScannerProcessor.Passes` | android/app/src/main/java/com/reactnativescanner/BarcodeScannerProcessor.kt:82-85 | a barcode passes only if it has a box and there is a cutout; then exactly when translateY(top) and translateY(bottom) lie strictly between the cutout's top and bottom, and translateX(left) and translateX(right) strictly between its left and right, in the argument order (top, left, bottom, right) |
| `ScannerProcessor.Filter` | android/app/src/main/java/com/reactnativescanner/BarcodeScannerProcessor.kt:79-87 | the kept barcodes are among the input, each passes the test and each has a bounding box |
| `ScannerProcessor.FilterAppend` | android/app/src/main/java/com/reactnativescanner/BarcodeScannerProcessor.kt:79-87 | filtering a concatenation is the concatenation of the filtered parts, so input order is kept |
| `ScannerProcessor.FilterStep` | android/app/src/main/java/com/reactnativescanner/BarcodeScannerProcessor.kt:80-87 | one more barcode adds its graphic exactly when it passes |
| `ScannerProcessor.FilterKeepsExactlyPassing` | android/app/src/main/java/com/reactnativescanner/BarcodeScannerProcessor.kt:82-86 | a barcode is kept exactly when it is in the input and passes: it has a box whose translated (top, left, bottom, right) is within the scan area |
| `ScannerProcessor.FilterIdempotent` | android/app/src/main/java/com/reactnativescanner/BarcodeScannerProcessor.kt:82-86 | filtering the kept barcodes again keeps them all |
| `ScannerProcessor.FilterWithoutCutoutIsEmpty` | android/app/src/main/java/com/reactnativescanner/BarcodeScannerProcessor.kt:65-71 | without a cutout view nothing is kept |
| `ScannerProcessor.FilterWithUndrawnCutoutIsEmpty` | android/app/src/main/java/com/reactnativescanner/BarcodeScannerProcessor.kt:79-87 | against an undrawn cutout nothing is kept, for an order-preserving translateY and boxes with top <= bottom |
| `ScannerProcessor.LoggingThrows` | android/app/src/main/java/com/reactnativescanner/BarcodeScannerProcessor.kt:99-112 | the logging after a barcode throws when its bounding box is null (line 105) or its corner points are null (line 110), and not when both are present |
| `ScannerProcessor.Processed` | android/app/src/main/java/com/reactnativescanner/BarcodeScannerProcessor.kt:79-89 | the barcodes the walk gets through form a prefix of the input in which only the last one may throw; a shorter prefix ends with a barcode that throws, and with no throwing barcode it is the whole input |
| `ScannerProcessor.FirstLoggingFailure` | android/app/src/main/java/com/reactnativescanner/BarcodeScannerProcessor.kt:99-112 | the index of the first barcode missing a box or corner points, with no such barcode before it; or none if every barcode has both |
| `ScannerProcessor.FirstLoggingFailureAt` | android/app/src/main/java/com/reactnativescanner/BarcodeScannerProcessor.kt:79-88 | when the logging of barcode i throws after all earlier ones succeeded, the walk covers exactly the first i + 1 barcodes |
| `ScannerProcessor.NoLoggingFailure` | android/app/src/main/java/com/reactnativescanner/BarcodeScannerProcessor.kt:79-88 | when no logging throws, the walk covers every barcode |
| `ScannerProcessor.ProcessedAllWhenLoggingSucceeds` | android/app/src/main/java/com/reactnativescanner/BarcodeScannerProcessor.kt:99-112 | when every barcode has a box and corner points, the walk covers all of them |
| `ScannerProcessor.BarcodeScannerProcessor.constructor` | android/app/src/main/java/com/reactnativescanner/BarcodeScannerProcessor.kt:31 | the processor keeps the (nullable) cutout view it is given |
| `ScannerProcessor.BarcodeScannerProcessor.OnSuccess` | android/app/src/main/java/com/reactnativescanner/BarcodeScannerProcessor.kt:75-90 | the overlay keeps its graphics and gains, in input order, one graphic per barcode of the walked prefix that passes; the walk stops at the first barcode whose logging throws, and that index is returned |
| `ScannerProcessor.NoCutoutAddsNothing` | android/app/src/main/java/com/reactnativescanner/BarcodeScannerProcessor.kt:65-90 | a processor without a cutout view leaves the overlay unchanged for every frame |
| `ScannerProcessor.UndrawnCutoutAddsNothing` | android/app/src/main/java/com/reactnativescanner/BarcodeScannerProcessor.kt:75-90 | a processor whose cutout was never drawn leaves the overlay unchanged, for an order-preserving translateY and boxes with top <= bottom |
| `ScannerProcessor.NoFlipPassesIffDrawnInside` | android/app/src/main/java/com/reactnativescanner/BarcodeScannerProcessor.kt:82-85 | without a mirror, a box with left <= right passes exactly when the rectangle the graphic draws for it is strictly inside the cutout |
| `ScannerProcessor.FlippedPassesIffHorizontalOverlap` | android/app/src/main/java/com/reactnativescanner/BarcodeScannerProcessor.kt:82-85 | with a mirror, for a box with left <= right that lies inside the cutout vertically, the test passes exactly when the drawn rectangle overlaps the cutout horizontally |
| `ScannerProcessor.FlippedFilterAcceptsBoxDrawnOutside` | android/app/src/main/java/com/reactnativescanner/BarcodeScannerProcessor.kt:82-85 | a mirrored full-width box passes the test although its drawn rectangle extends past the cutout |
| `ScannerProcessor.NormalisedPassesIffDrawnInside` | android/app/src/main/java/com/reactnativescanner/BarcodeScannerProcessor.kt:82-85 | testing min/max-ordered x-coordinates accepts exactly the barcodes whose drawn rectangle is strictly inside the cutout, mirrored or not, and agrees with the test as written when there is no mirror and the box has left <= right |

## Findings

| source | as written | input that shows it | evidently intended | confidence | as-written member | corrected member |
|---|---|---|---|---|---|---|
| android/app/src/main/java/com/reactnativescanner/BarcodeScannerProcessor.kt:82-85 | passes translateX(left) as the box's left and translateX(right) as its right, without the min/max reordering the graphic applies, so under a mirror, for a box with left <= right, the hit test checks horizontal overlap instead of containment | mirror translateX(x) = 1000 - x; identity translateY; cutout of a 1000 x 1000 canvas (250..750); box left 0, top 300, right 1000, bottom 700: it is accepted, yet it is drawn from x = 0 to x = 1000 | test the x-coordinates after min/max, as the graphic draws them, so that only boxes drawn strictly inside the cutout are accepted | medium; not executed | `ScannerProcessor.FlippedFilterAcceptsBoxDrawnOutside` | `ScannerProcessor.NormalisedPassesIffDrawnInside` |

`OnSuccess` still models the code as written. `PassesNormalised` is the corrected test. Without a mirror, the two agree on every box with left <= right.

## Left out

- ML Kit client construction, the zoom-suggestion callback, `detectInImage` and `stop`: these are calls into the external detector.
- `onFailure` and all `Log` output, including the messages of the logging helper. Only the logging helper's null dereferences are modelled, because they throw out of `onSuccess`.
- The bodies of `translateX` and `translateY`: they belong to GraphicOverlay.kt, which is not part of this model. They are arbitrary functions fixed per overlay.
- `GraphicOverlay.add` is modelled only as appending to a list. Any locking or side effects it has are left out.
- Paints, colours, stroke widths, fill types, `super.onDraw`, and the canvas calls `drawPath` and `drawRect`. These are graphics side effects with no contract. `addPath` is modelled as concatenating the cutout's commands after the background's.
- The view's layout: `SetFrame` only sets the `right` and `bottom` that the background path reads.
- Overlay.java (it draws a fixed rectangle) and ReactNativeScannerManager.kt (host module and view registration).
- Float arithmetic: rounding, NaN and infinities. Coordinates are reals and integer boxes convert to reals exactly.
- Concurrency between the layout thread and the detector callback: the model is single-threaded.
- `ScannerProcessor.WithinScanArea`: its own contract states only the no-cutout rejection. The full characterisation is in the lemmas beside it.
