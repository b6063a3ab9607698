/**
 * The values the external barcode detector hands back for one frame. Only the
 * nullability of the bounding box and of the corner points matters to the
 * model; the payload strings are carried through untouched.
 */
module Detection {
  import opened Wrappers

  /** An integer rectangle in source-image coordinates (Android's `Rect`). */
  datatype Rect = Rect(left: int, top: int, right: int, bottom: int)

  /** An integer point (Android's `Point`). */
  datatype Point = Point(x: int, y: int)

  /** One detected barcode: `boundingBox` and `cornerPoints` are nullable. */
  datatype Barcode = Barcode(
    boundingBox: Option<Rect>,
    cornerPoints: Option<seq<Point>>,
    rawValue: Option<string>,
    displayValue: Option<string>)
}
