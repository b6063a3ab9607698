/**
 * The graphic that draws one barcode's bounding box on the overlay. The
 * overlay's coordinate transform (`translateX`, `translateY`) is a parameter:
 * it scales the image into view space and, for a front camera, mirrors x.
 */
module Drawing {
  import opened Wrappers
  import opened Detection

  /** A rectangle with real coordinates (Android's `RectF`). */
  datatype RectF = RectF(left: real, top: real, right: real, bottom: real)

  /** A graphic for one (nullable) barcode. */
  datatype Graphic = BarcodeGraphic(barcode: Option<Barcode>)

  /** The message of the exception `draw` throws for a null barcode. */
  const NullBarcodeMessage: string := "Attempting to draw a null barcode."

  /** A translation that never mirrors: it keeps the order of coordinates. */
  ghost predicate OrderPreserving(translate: real -> real)
  {
    forall a: real, b: real :: a <= b ==> translate(a) <= translate(b)
  }

  /** A mirroring translation: it reverses the order of coordinates. */
  ghost predicate OrderReversing(translate: real -> real)
  {
    forall a: real, b: real :: a <= b ==> translate(b) <= translate(a)
  }

  function Min(a: real, b: real): real { if a <= b then a else b }
  function Max(a: real, b: real): real { if a <= b then b else a }

  /** `RectF(rect)`: the real-valued copy of a box; Android's copy of a null box is all zeros. */
  function ToRectF(box: Option<Rect>): RectF
  {
    match box
    case Some(r) => RectF(r.left as real, r.top as real, r.right as real, r.bottom as real)
    case None => RectF(0.0, 0.0, 0.0, 0.0)
  }

  /**
   * The rectangle `draw` strokes. A null barcode throws. Otherwise the box is
   * translated; the two x-coordinates are put back in order with min/max
   * (so a mirrored box still has left <= right) and keep both their values,
   * while top and bottom are translated in place and never exchanged.
   */
  function Draw(g: Graphic, translateX: real -> real, translateY: real -> real): (r: Result<RectF, string>)
    ensures r.Failure? <==> g.barcode.None?
    ensures r.Failure? ==> r.error == NullBarcodeMessage
    ensures r.Success? ==> r.value.left <= r.value.right
    ensures r.Success? ==>
      var src := ToRectF(g.barcode.value.boundingBox);
      && multiset{r.value.left, r.value.right} == multiset{translateX(src.left), translateX(src.right)}
      && r.value.top == translateY(src.top) && r.value.bottom == translateY(src.bottom)
  {
    match g.barcode
    case None => Failure(NullBarcodeMessage)
    case Some(barcode) =>
      var rect := ToRectF(barcode.boundingBox);
      var x0 := translateX(rect.left);
      var x1 := translateX(rect.right);
      Success(RectF(Min(x0, x1), translateY(rect.top), Max(x0, x1), translateY(rect.bottom)))
  }

  /** Without a mirror, an ordered box keeps its left and right: the min/max is the identity. */
  lemma NoFlipKeepsSides(b: Barcode, translateX: real -> real, translateY: real -> real)
    requires OrderPreserving(translateX)
    requires ToRectF(b.boundingBox).left <= ToRectF(b.boundingBox).right
    ensures var src := ToRectF(b.boundingBox);
      Draw(BarcodeGraphic(Some(b)), translateX, translateY).value.left == translateX(src.left) &&
      Draw(BarcodeGraphic(Some(b)), translateX, translateY).value.right == translateX(src.right)
  {
  }

  /** With a mirror, an ordered box has its translated sides exchanged by the min/max. */
  lemma FlipSwapsSides(b: Barcode, translateX: real -> real, translateY: real -> real)
    requires OrderReversing(translateX)
    requires ToRectF(b.boundingBox).left <= ToRectF(b.boundingBox).right
    ensures var src := ToRectF(b.boundingBox);
      Draw(BarcodeGraphic(Some(b)), translateX, translateY).value.left == translateX(src.right) &&
      Draw(BarcodeGraphic(Some(b)), translateX, translateY).value.right == translateX(src.left)
  {
  }
}
