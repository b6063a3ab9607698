/**
 * The barcode processor's result handling: for every barcode the detector
 * found in a frame, translate its bounding box into overlay space, keep it
 * only if the box lies strictly inside the scan cutout, and add a graphic
 * for it to the overlay.
 */
module ScannerProcessor {
  import opened Wrappers
  import opened Detection
  import opened Drawing
  import opened GraphicOverlays
  import opened CutoutView

  /**
   * The hit test, with its arguments in the order (top, left, bottom, right).
   * `region` is the cutout view's edges, or `None` when the processor has no
   * cutout view; then every box is rejected. Every edge comparison is strict.
   */
  function WithinScanArea(region: Option<Edges>, top: real, left: real, bottom: real, right: real): (inside: bool)
    ensures region.None? ==> !inside
  {
    match region
    case Some(e) => top > e.top && left > e.left && bottom < e.bottom && right < e.right
    case None => false
  }

  /** (x, y) lies in the closed box. */
  predicate InClosedBox(top: real, left: real, bottom: real, right: real, x: real, y: real)
  {
    left <= x <= right && top <= y <= bottom
  }

  /** (x, y) lies in the open interior of the cutout. */
  predicate InOpenCutout(e: Edges, x: real, y: real)
  {
    e.left < x < e.right && e.top < y < e.bottom
  }

  /**
   * For a box whose sides are in order, the hit test accepts exactly when a
   * cutout exists and every point of the box lies in the cutout's open interior.
   */
  lemma WithinScanAreaIffBoxInsideCutout(region: Option<Edges>, top: real, left: real, bottom: real, right: real)
    requires top <= bottom && left <= right
    ensures WithinScanArea(region, top, left, bottom, right) <==>
      region.Some? && forall x: real, y: real :: InClosedBox(top, left, bottom, right, x, y) ==> InOpenCutout(region.value, x, y)
  {
    if region.Some? {
      var e := region.value;
      if forall x: real, y: real :: InClosedBox(top, left, bottom, right, x, y) ==> InOpenCutout(e, x, y) {
        assert InClosedBox(top, left, bottom, right, left, top);
        assert InClosedBox(top, left, bottom, right, right, bottom);
      }
    }
  }

  /** The boundary is excluded: the cutout's own rectangle is not within it. */
  lemma BoundaryExcluded(e: Edges)
    ensures !WithinScanArea(Some(e), e.top, e.left, e.bottom, e.right)
  {
  }

  /** Containment is monotone: a box nested inside an accepted box is accepted too. */
  lemma NestedBoxAccepted(region: Option<Edges>, top: real, left: real, bottom: real, right: real,
                          top': real, left': real, bottom': real, right': real)
    requires WithinScanArea(region, top, left, bottom, right)
    requires top' >= top && left' >= left && bottom' <= bottom && right' <= right
    ensures WithinScanArea(region, top', left', bottom', right')
  {
  }

  /** Before the first draw pass all edges are 0, so no box with top <= bottom is accepted. */
  lemma UndrawnCutoutRejects(top: real, left: real, bottom: real, right: real)
    requires top <= bottom
    ensures !WithinScanArea(Some(Edges(0.0, 0.0, 0.0, 0.0)), top, left, bottom, right)
  {
  }

  /**
   * The test `onSuccess` applies to one barcode: it has a bounding box, and
   * the box, translated coordinate by coordinate and passed as
   * (translateY(top), translateX(left), translateY(bottom), translateX(right)),
   * is within the scan area.
   */
  predicate Passes(b: Barcode, region: Option<Edges>, translateX: real -> real, translateY: real -> real): (ok: bool)
    ensures ok ==> b.boundingBox.Some? && region.Some?
    ensures b.boundingBox.Some? && region.Some? ==>
      var box, e := b.boundingBox.value, region.value;
      (ok <==> e.top < translateY(box.top as real) && translateY(box.bottom as real) < e.bottom &&
               e.left < translateX(box.left as real) && translateX(box.right as real) < e.right)
  {
    match b.boundingBox
    case None => false
    case Some(box) =>
      WithinScanArea(region, translateY(box.top as real), translateX(box.left as real),
                     translateY(box.bottom as real), translateX(box.right as real))
  }

  /** The barcodes that pass, in input order. */
  function Filter(barcodes: seq<Barcode>, region: Option<Edges>, translateX: real -> real, translateY: real -> real): (accepted: seq<Barcode>)
    ensures |accepted| <= |barcodes|
    ensures forall b :: b in accepted ==> b in barcodes && Passes(b, region, translateX, translateY)
    ensures forall b :: b in accepted ==> b.boundingBox.Some?
  {
    if barcodes == [] then []
    else
      (if Passes(barcodes[0], region, translateX, translateY) then [barcodes[0]] else []) +
      Filter(barcodes[1..], region, translateX, translateY)
  }

  /** Filtering distributes over concatenation, so it keeps the input order. */
  lemma {:induction false} FilterAppend(a: seq<Barcode>, b: seq<Barcode>, region: Option<Edges>,
                                        translateX: real -> real, translateY: real -> real)
    ensures Filter(a + b, region, translateX, translateY) ==
            Filter(a, region, translateX, translateY) + Filter(b, region, translateX, translateY)
  {
    if a != [] {
      assert (a + b)[1..] == a[1..] + b;
      FilterAppend(a[1..], b, region, translateX, translateY);
    } else {
      assert a + b == b;
    }
  }

  /** Exactly the barcodes that pass are kept. */
  lemma {:induction false} FilterKeepsExactlyPassing(barcodes: seq<Barcode>, b: Barcode, region: Option<Edges>,
                                                     translateX: real -> real, translateY: real -> real)
    ensures b in Filter(barcodes, region, translateX, translateY) <==>
            b in barcodes && Passes(b, region, translateX, translateY)
  {
    if barcodes != [] {
      FilterKeepsExactlyPassing(barcodes[1..], b, region, translateX, translateY);
      assert b in barcodes <==> b == barcodes[0] || b in barcodes[1..];
    }
  }

  /** Filtering twice keeps the same barcodes as filtering once. */
  lemma {:induction false} FilterIdempotent(barcodes: seq<Barcode>, region: Option<Edges>,
                                            translateX: real -> real, translateY: real -> real)
    ensures Filter(Filter(barcodes, region, translateX, translateY), region, translateX, translateY) ==
            Filter(barcodes, region, translateX, translateY)
  {
    if barcodes != [] {
      var head := barcodes[0];
      var rest := Filter(barcodes[1..], region, translateX, translateY);
      FilterIdempotent(barcodes[1..], region, translateX, translateY);
      if Passes(head, region, translateX, translateY) {
        assert Filter(barcodes, region, translateX, translateY) == [head] + rest;
        assert ([head] + rest)[1..] == rest;
      } else {
        assert Filter(barcodes, region, translateX, translateY) == rest;
      }
    }
  }

  /** Extending the input by one barcode extends the result by that barcode exactly when it passes. */
  lemma FilterStep(barcodes: seq<Barcode>, i: nat, region: Option<Edges>, translateX: real -> real, translateY: real -> real)
    requires i < |barcodes|
    ensures Graphics(Filter(barcodes[..i + 1], region, translateX, translateY)) ==
            Graphics(Filter(barcodes[..i], region, translateX, translateY)) +
            (if Passes(barcodes[i], region, translateX, translateY) then [BarcodeGraphic(Some(barcodes[i]))] else [])
  {
    assert barcodes[..i + 1] == barcodes[..i] + [barcodes[i]];
    FilterAppend(barcodes[..i], [barcodes[i]], region, translateX, translateY);
    GraphicsAppend(Filter(barcodes[..i], region, translateX, translateY), Filter([barcodes[i]], region, translateX, translateY));
  }

  /** Without a cutout view nothing passes. */
  lemma {:induction false} FilterWithoutCutoutIsEmpty(barcodes: seq<Barcode>, translateX: real -> real, translateY: real -> real)
    ensures Filter(barcodes, None, translateX, translateY) == []
  {
    if barcodes != [] {
      FilterWithoutCutoutIsEmpty(barcodes[1..], translateX, translateY);
    }
  }

  /**
   * Before the first draw pass (all edges 0), nothing passes, provided the
   * y-translation keeps order and every box has top <= bottom.
   */
  lemma {:induction false} FilterWithUndrawnCutoutIsEmpty(barcodes: seq<Barcode>, translateX: real -> real, translateY: real -> real)
    requires OrderPreserving(translateY)
    requires forall b :: b in barcodes && b.boundingBox.Some? ==> b.boundingBox.value.top <= b.boundingBox.value.bottom
    ensures Filter(barcodes, Some(Edges(0.0, 0.0, 0.0, 0.0)), translateX, translateY) == []
  {
    if barcodes != [] {
      var b := barcodes[0];
      if b.boundingBox.Some? {
        var box := b.boundingBox.value;
        assert translateY(box.top as real) <= translateY(box.bottom as real);
        UndrawnCutoutRejects(translateY(box.top as real), translateX(box.left as real),
                             translateY(box.bottom as real), translateX(box.right as real));
      }
      FilterWithUndrawnCutoutIsEmpty(barcodes[1..], translateX, translateY);
    }
  }

  /** The logging after each barcode dereferences its box and corner points with `!!`, which throws on null. */
  predicate LoggingThrows(b: Barcode): (throws: bool)
    ensures b.boundingBox.None? ==> throws
    ensures b.cornerPoints.None? ==> throws
    ensures b.boundingBox.Some? && b.cornerPoints.Some? ==> !throws
  {
    b.boundingBox.None? || b.cornerPoints.None?
  }

  /** The index of the first barcode whose logging throws, if any. */
  function FirstLoggingFailure(barcodes: seq<Barcode>): (k: Option<nat>)
    ensures k.Some? ==> k.value < |barcodes| && LoggingThrows(barcodes[k.value])
    ensures k.Some? ==> forall j :: 0 <= j < k.value ==> !LoggingThrows(barcodes[j])
    ensures k.None? ==> forall j :: 0 <= j < |barcodes| ==> !LoggingThrows(barcodes[j])
  {
    if barcodes == [] then None
    else if LoggingThrows(barcodes[0]) then Some(0)
    else match FirstLoggingFailure(barcodes[1..])
      case None => None
      case Some(k) => Some(k + 1)
  }

  /** The barcodes `onSuccess` gets through: up to and including the one whose logging throws. */
  function Processed(barcodes: seq<Barcode>): (walked: seq<Barcode>)
    ensures walked <= barcodes
    ensures forall j :: 0 <= j < |walked| - 1 ==> !LoggingThrows(walked[j])
    ensures |walked| < |barcodes| ==> |walked| > 0 && LoggingThrows(walked[|walked| - 1])
    ensures (forall j :: 0 <= j < |barcodes| ==> !LoggingThrows(barcodes[j])) ==> walked == barcodes
  {
    match FirstLoggingFailure(barcodes)
    case Some(k) => barcodes[..k + 1]
    case None => barcodes
  }

  /** The first barcode whose logging throws, after a prefix whose logging succeeds, ends the walk. */
  lemma FirstLoggingFailureAt(barcodes: seq<Barcode>, i: nat)
    requires i < |barcodes| && LoggingThrows(barcodes[i])
    requires forall j :: 0 <= j < i ==> !LoggingThrows(barcodes[j])
    ensures FirstLoggingFailure(barcodes) == Some(i) && Processed(barcodes) == barcodes[..i + 1]
  {
  }

  /** When no barcode's logging throws, the walk covers all of them. */
  lemma NoLoggingFailure(barcodes: seq<Barcode>)
    requires forall j :: 0 <= j < |barcodes| ==> !LoggingThrows(barcodes[j])
    ensures FirstLoggingFailure(barcodes) == None && Processed(barcodes) == barcodes
  {
  }

  /** When every barcode has a box and corner points, all of them are processed. */
  lemma ProcessedAllWhenLoggingSucceeds(barcodes: seq<Barcode>)
    requires forall b :: b in barcodes ==> b.boundingBox.Some? && b.cornerPoints.Some?
    ensures Processed(barcodes) == barcodes
  {
  }

  /** One graphic per barcode, in order. */
  function Graphics(barcodes: seq<Barcode>): seq<Graphic>
  {
    seq(|barcodes|, i requires 0 <= i < |barcodes| => BarcodeGraphic(Some(barcodes[i])))
  }

  lemma GraphicsAppend(a: seq<Barcode>, b: seq<Barcode>)
    ensures Graphics(a + b) == Graphics(a) + Graphics(b)
  {
  }

  class BarcodeScannerProcessor {
    const rectOverly: CustomRectangleWithRoundedCornersCutoutView?

    constructor (rectOverly: CustomRectangleWithRoundedCornersCutoutView?)
      ensures this.rectOverly == rectOverly
    {
      this.rectOverly := rectOverly;
    }

    /** The cutout's current edges, or `None` without a cutout view. */
    function Region(): Option<Edges>
      reads rectOverly
    {
      if rectOverly == null then None else Some(rectOverly.CurrentEdges())
    }

    /**
     * The detector's success callback. Walking the barcodes in order, it adds
     * a graphic for each one that passes the hit test, keeping the graphics
     * already there. After each barcode the logging runs; for a barcode
     * without a box or corner points it throws, which ends the walk: the
     * index is returned in `thrown`.
     */
    method OnSuccess(barcodes: seq<Barcode>, graphicOverlay: GraphicOverlay) returns (thrown: Option<nat>)
      modifies graphicOverlay
      ensures thrown == FirstLoggingFailure(barcodes)
      ensures graphicOverlay.graphics == old(graphicOverlay.graphics) +
        Graphics(Filter(Processed(barcodes), Region(), graphicOverlay.translateX, graphicOverlay.translateY))
    {
      var translateX, translateY := graphicOverlay.translateX, graphicOverlay.translateY;
      ghost var region := Region();
      var i := 0;
      while i < |barcodes|
        invariant 0 <= i <= |barcodes|
        invariant Region() == region
        invariant forall j :: 0 <= j < i ==> !LoggingThrows(barcodes[j])
        invariant graphicOverlay.graphics == old(graphicOverlay.graphics) +
          Graphics(Filter(barcodes[..i], region, translateX, translateY))
      {
        var barcode := barcodes[i];
        var barcodeGraphic := BarcodeGraphic(Some(barcode));
        FilterStep(barcodes, i, region, translateX, translateY);
        if barcode.boundingBox.Some? {
          var box := barcode.boundingBox.value;
          if WithinScanArea(Region(), translateY(box.top as real), translateX(box.left as real),
                            translateY(box.bottom as real), translateX(box.right as real)) {
            graphicOverlay.Add(barcodeGraphic);
          }
        }
        if LoggingThrows(barcode) {
          FirstLoggingFailureAt(barcodes, i);
          thrown := Some(i);
          return;
        }
        i := i + 1;
      }
      assert barcodes[..i] == barcodes;
      NoLoggingFailure(barcodes);
      thrown := None;
    }
  }

  /** A processor without a cutout view adds no graphic for any frame. */
  method NoCutoutAddsNothing(barcodes: seq<Barcode>, graphicOverlay: GraphicOverlay)
    modifies graphicOverlay
    ensures graphicOverlay.graphics == old(graphicOverlay.graphics)
  {
    var processor := new BarcodeScannerProcessor(null);
    var _ := processor.OnSuccess(barcodes, graphicOverlay);
    FilterWithoutCutoutIsEmpty(Processed(barcodes), graphicOverlay.translateX, graphicOverlay.translateY);
  }

  /**
   * A processor whose cutout view has not been drawn yet adds no graphic,
   * for an order-preserving y-translation and boxes with top <= bottom.
   */
  method UndrawnCutoutAddsNothing(barcodes: seq<Barcode>, graphicOverlay: GraphicOverlay)
    requires OrderPreserving(graphicOverlay.translateY)
    requires forall b :: b in barcodes && b.boundingBox.Some? ==> b.boundingBox.value.top <= b.boundingBox.value.bottom
    modifies graphicOverlay
    ensures graphicOverlay.graphics == old(graphicOverlay.graphics)
  {
    var view := new CustomRectangleWithRoundedCornersCutoutView();
    var processor := new BarcodeScannerProcessor(view);
    var _ := processor.OnSuccess(barcodes, graphicOverlay);
    var processed := Processed(barcodes);
    assert forall b :: b in processed ==> b in barcodes;
    FilterWithUndrawnCutoutIsEmpty(processed, graphicOverlay.translateX, graphicOverlay.translateY);
  }

  /** The drawn rectangle lies strictly inside the cutout. */
  predicate DrawnInside(r: RectF, region: Option<Edges>)
  {
    WithinScanArea(region, r.top, r.left, r.bottom, r.right)
  }

  /**
   * Without a mirror, the processor's test agrees with the graphic: an
   * ordered box passes exactly when the rectangle the graphic draws for it
   * lies strictly inside the cutout. So the arguments reach the hit test in
   * the order the graphic uses them.
   */
  lemma NoFlipPassesIffDrawnInside(b: Barcode, region: Option<Edges>, translateX: real -> real, translateY: real -> real)
    requires OrderPreserving(translateX)
    requires b.boundingBox.Some? && b.boundingBox.value.left <= b.boundingBox.value.right
    ensures Passes(b, region, translateX, translateY) <==>
            DrawnInside(Draw(BarcodeGraphic(Some(b)), translateX, translateY).value, region)
  {
  }

  /**
   * With a mirror, the processor's test is no longer containment: for an
   * ordered box inside the cutout vertically, it passes exactly when the
   * drawn rectangle overlaps the cutout horizontally.
   */
  lemma FlippedPassesIffHorizontalOverlap(b: Barcode, e: Edges, translateX: real -> real, translateY: real -> real)
    requires OrderReversing(translateX)
    requires b.boundingBox.Some? && b.boundingBox.value.left <= b.boundingBox.value.right
    requires var box := b.boundingBox.value;
      translateY(box.top as real) > e.top && translateY(box.bottom as real) < e.bottom
    ensures var r := Draw(BarcodeGraphic(Some(b)), translateX, translateY).value;
      Passes(b, Some(e), translateX, translateY) <==> r.right > e.left && r.left < e.right
  {
  }

  /**
   * A concrete case: a mirrored 1000-wide view, its cutout from a 1000 x 1000
   * canvas (250..750 on both axes), and a box spanning the whole width. The
   * processor accepts it although the graphic draws it far outside the cutout.
   */
  lemma FlippedFilterAcceptsBoxDrawnOutside()
    ensures var mirror := (x: real) => 1000.0 - x;
      var identity := (y: real) => y;
      var b := Barcode(Some(Rect(0, 300, 1000, 700)), Some([]), None, None);
      var region := Some(ScanEdges(1000, 1000));
      Passes(b, region, mirror, identity) &&
      !DrawnInside(Draw(BarcodeGraphic(Some(b)), mirror, identity).value, region)
  {
  }

  /** The test with the x-coordinates put in order first, as the graphic does. */
  predicate PassesNormalised(b: Barcode, region: Option<Edges>, translateX: real -> real, translateY: real -> real)
  {
    match b.boundingBox
    case None => false
    case Some(box) =>
      var x0 := translateX(box.left as real);
      var x1 := translateX(box.right as real);
      WithinScanArea(region, translateY(box.top as real), Min(x0, x1), translateY(box.bottom as real), Max(x0, x1))
  }

  /**
   * The normalised test accepts a barcode exactly when it has a box and the
   * rectangle the graphic draws for it lies strictly inside the cutout,
   * mirrored or not; without a mirror it agrees with the processor's test.
   */
  lemma NormalisedPassesIffDrawnInside(b: Barcode, region: Option<Edges>, translateX: real -> real, translateY: real -> real)
    ensures PassesNormalised(b, region, translateX, translateY) <==>
            b.boundingBox.Some? && DrawnInside(Draw(BarcodeGraphic(Some(b)), translateX, translateY).value, region)
    ensures OrderPreserving(translateX) && b.boundingBox.Some? && b.boundingBox.value.left <= b.boundingBox.value.right ==>
            (PassesNormalised(b, region, translateX, translateY) <==> Passes(b, region, translateX, translateY))
  {
  }
}
