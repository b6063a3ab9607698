/**
 * The scan-area cutout view: a dimmed full-view mask with a rounded
 * rectangle cut out of it, plus eight short accent strokes at the corners.
 * Its four public edge fields are recomputed on every draw pass and are the
 * state the barcode hit test reads.
 */
module CutoutView {
  import opened Wrappers

  /** Length of each corner accent stroke. */
  const EdgeLength: real := 100.0
  /** Radius of the quadratic corner joins. */
  const CornerRadius: real := 20.0
  /** Fixed size of the scanner cutout. */
  const QrScannerWidth: real := 500.0
  const QrScannerHeight: real := 500.0
  /** Where the cutout's centre sits, as a fraction of the canvas height and width. */
  const VerticalOffset: real := 0.5
  const HorizontalOffset: real := 0.5

  /** A snapshot of the four edge fields. */
  datatype Edges = Edges(left: real, right: real, top: real, bottom: real)

  /** The canvas handed to a draw pass (only its size is read). */
  datatype Canvas = Canvas(width: nat, height: nat)

  /** One command of an Android `Path`; `x`, `y` is always the end point. */
  datatype PathCmd =
    | MoveTo(x: real, y: real)
    | LineTo(x: real, y: real)
    | QuadTo(cx: real, cy: real, x: real, y: real)

  type Path = seq<PathCmd>

  /** (x, y) lies on the border of the rectangle `e`. */
  predicate OnBorder(e: Edges, x: real, y: real)
  {
    e.left <= x <= e.right && e.top <= y <= e.bottom &&
    (x == e.left || x == e.right || y == e.top || y == e.bottom)
  }

  /** Every point a command names (end point, and control point of a quad) lies on the border of `e`. */
  predicate CmdOnBorder(e: Edges, c: PathCmd)
  {
    OnBorder(e, c.x, c.y) && (c.QuadTo? ==> OnBorder(e, c.cx, c.cy))
  }

  /** (x, y) is within `EdgeLength` of the corner (cx, cy) along both axes. */
  predicate NearPoint(x: real, y: real, cx: real, cy: real)
  {
    cx - EdgeLength <= x <= cx + EdgeLength && cy - EdgeLength <= y <= cy + EdgeLength
  }

  predicate NearCorner(e: Edges, x: real, y: real)
  {
    NearPoint(x, y, e.left, e.top) || NearPoint(x, y, e.right, e.top) ||
    NearPoint(x, y, e.right, e.bottom) || NearPoint(x, y, e.left, e.bottom)
  }

  predicate CmdNearCorner(e: Edges, c: PathCmd)
  {
    NearCorner(e, c.x, c.y) && (c.QuadTo? ==> NearCorner(e, c.cx, c.cy))
  }

  /** (x, y) is one of the four corners of `e`. */
  predicate IsCorner(e: Edges, x: real, y: real)
  {
    (x == e.left || x == e.right) && (y == e.top || y == e.bottom)
  }

  /** Some command of `p` ends at (x, y). */
  predicate Visits(p: Path, x: real, y: real)
  {
    exists i :: 0 <= i < |p| && p[i].x == x && p[i].y == y
  }

  /**
   * The cutout's corners, numbered clockwise on screen (y grows downwards)
   * from the top-left: 0 top-left, 1 top-right, 2 bottom-right, 3 bottom-left.
   */
  function CornerX(e: Edges, k: int): real
  {
    if k == 1 || k == 2 then e.right else e.left
  }

  function CornerY(e: Edges, k: int): real
  {
    if k == 2 || k == 3 then e.bottom else e.top
  }

  /** The direction of the border edge that leaves corner `k` in a clockwise tour. */
  function DirX(k: int): real
  {
    if k == 0 then 1.0 else if k == 2 then -1.0 else 0.0
  }

  function DirY(k: int): real
  {
    if k == 1 then 1.0 else if k == 3 then -1.0 else 0.0
  }

  /** The point at distance `d` before corner `k`, on the edge arriving at it clockwise. */
  function BeforeX(e: Edges, k: int, d: real): real
  {
    CornerX(e, k) - d * DirX((k + 3) % 4)
  }

  function BeforeY(e: Edges, k: int, d: real): real
  {
    CornerY(e, k) - d * DirY((k + 3) % 4)
  }

  /** The point at distance `d` after corner `k`, on the edge leaving it clockwise. */
  function AfterX(e: Edges, k: int, d: real): real
  {
    CornerX(e, k) + d * DirX(k)
  }

  function AfterY(e: Edges, k: int, d: real): real
  {
    CornerY(e, k) + d * DirY(k)
  }

  /** The quad that rounds corner `k`: controlled by the corner, ending `CornerRadius` after it. */
  function RoundCorner(e: Edges, k: int): PathCmd
  {
    QuadTo(CornerX(e, k), CornerY(e, k), AfterX(e, k, CornerRadius), AfterY(e, k, CornerRadius))
  }

  /**
   * The edges a draw pass computes from the canvas size: a fixed-size
   * rectangle centred at (width * HorizontalOffset, height * VerticalOffset).
   * The size and the centre determine the edges; nothing is clamped to the canvas.
   */
  function ScanEdges(width: nat, height: nat): (e: Edges)
    ensures e.right - e.left == QrScannerWidth && e.bottom - e.top == QrScannerHeight
    ensures e.left < e.right && e.top < e.bottom
    ensures e.left + e.right == 2.0 * (width as real * HorizontalOffset)
    ensures e.top + e.bottom == 2.0 * (height as real * VerticalOffset)
  {
    Edges(width as real * HorizontalOffset - QrScannerWidth / 2.0,
          width as real * HorizontalOffset + QrScannerWidth / 2.0,
          height as real * VerticalOffset - QrScannerHeight / 2.0,
          height as real * VerticalOffset + QrScannerHeight / 2.0)
  }

  /**
   * No clamping: the cutout leaves the canvas on the left and on the right
   * exactly when the canvas is narrower than the scanner, and likewise
   * vertically.
   */
  lemma NoClamping(width: nat, height: nat)
    ensures ScanEdges(width, height).left < 0.0 <==> (width as real) < QrScannerWidth
    ensures ScanEdges(width, height).right > width as real <==> (width as real) < QrScannerWidth
    ensures ScanEdges(width, height).top < 0.0 <==> (height as real) < QrScannerHeight
    ensures ScanEdges(width, height).bottom > height as real <==> (height as real) < QrScannerHeight
  {
  }

  /**
   * The background mask: starting from the implicit origin, four straight
   * lines around the view rectangle [0, right] x [0, bottom] and back to the origin.
   */
  function CreateBackgroundPath(right: int, bottom: int): (p: Path)
    ensures |p| == 4 && forall i :: 0 <= i < |p| ==> p[i].LineTo?
    ensures forall i :: 0 <= i < |p| ==>
      (p[i].x == 0.0 || p[i].x == right as real) && (p[i].y == 0.0 || p[i].y == bottom as real)
    ensures p[0].y == 0.0
    ensures forall i :: 0 <= i < |p| - 1 ==> p[i].x == p[i + 1].x || p[i].y == p[i + 1].y
    ensures Visits(p, right as real, 0.0) && Visits(p, right as real, bottom as real)
    ensures Visits(p, 0.0, bottom as real)
    ensures p[|p| - 1].x == 0.0 && p[|p| - 1].y == 0.0
  {
    var p := [LineTo(right as real, 0.0),
              LineTo(right as real, bottom as real),
              LineTo(0.0, bottom as real),
              LineTo(0.0, 0.0)];
    assert p[0].x == right as real && p[1].y == bottom as real && p[2].x == 0.0;
    p
  }

  /**
   * The rounded-rectangle cutout: a clockwise tour of the four corners. It
   * moves to `CornerRadius` before corner 0, and then for each corner k in
   * turn it rounds k with a quad and runs a line along the next edge to
   * `CornerRadius` before corner k + 1, ending where it started. When the
   * cutout is at least `CornerRadius` wide and high every point lies on its border.
   */
  function CreateQrPath(e: Edges): (p: Path)
    ensures |p| == 9
    ensures p[0] == MoveTo(BeforeX(e, 0, CornerRadius), BeforeY(e, 0, CornerRadius))
    ensures forall k :: 0 <= k < 4 ==>
      p[2 * k + 1] == RoundCorner(e, k) &&
      p[2 * k + 2] == LineTo(BeforeX(e, (k + 1) % 4, CornerRadius), BeforeY(e, (k + 1) % 4, CornerRadius))
    ensures p[|p| - 1].x == p[0].x && p[|p| - 1].y == p[0].y
    ensures forall i :: 0 <= i < |p| ==>
      (p[i].MoveTo? <==> i == 0) && (p[i].QuadTo? <==> i % 2 == 1) && (p[i].LineTo? <==> i != 0 && i % 2 == 0)
    ensures forall i :: 0 <= i < |p| && p[i].QuadTo? ==> IsCorner(e, p[i].cx, p[i].cy)
    ensures CornerRadius <= e.right - e.left && CornerRadius <= e.bottom - e.top ==>
      forall i :: 0 <= i < |p| ==> CmdOnBorder(e, p[i])
  {
    [MoveTo(e.left, e.top + CornerRadius),
     QuadTo(e.left, e.top, e.left + CornerRadius, e.top),
     LineTo(e.right - CornerRadius, e.top),
     QuadTo(e.right, e.top, e.right, e.top + CornerRadius),
     LineTo(e.right, e.bottom - CornerRadius),
     QuadTo(e.right, e.bottom, e.right - CornerRadius, e.bottom),
     LineTo(e.left + CornerRadius, e.bottom),
     QuadTo(e.left, e.bottom, e.left, e.bottom - CornerRadius),
     LineTo(e.left, e.top + CornerRadius)]
  }

  /** Indices at which the corner-accent path starts a new sub-path. */
  const AccentStarts: set<int> := {0, 2, 5, 7, 10, 12, 15, 17}

  /**
   * The eight corner accents: for each corner k, clockwise from the
   * top-left, five commands 5k .. 5k + 4. A stroke on the arriving edge from
   * `EdgeLength` to `CornerRadius` before the corner; then a second sub-path
   * that rounds the corner and runs out to `EdgeLength` along the leaving
   * edge. So there are eight sub-paths, each opened by a move; every point
   * stays within `EdgeLength` of a corner, and when the cutout is at least
   * `EdgeLength` wide and high every point lies on its border.
   */
  function CreateCutoutWithCorners(e: Edges): (p: Path)
    ensures |p| == 20
    ensures forall k :: 0 <= k < 4 ==>
      && p[5 * k] == MoveTo(BeforeX(e, k, EdgeLength), BeforeY(e, k, EdgeLength))
      && p[5 * k + 1] == LineTo(BeforeX(e, k, CornerRadius), BeforeY(e, k, CornerRadius))
      && p[5 * k + 2] == MoveTo(BeforeX(e, k, CornerRadius), BeforeY(e, k, CornerRadius))
      && p[5 * k + 3] == RoundCorner(e, k)
      && p[5 * k + 4] == LineTo(AfterX(e, k, EdgeLength), AfterY(e, k, EdgeLength))
    ensures forall i :: 0 <= i < |p| ==> (p[i].MoveTo? <==> i in AccentStarts)
    ensures forall i :: 0 <= i < |p| ==> CmdNearCorner(e, p[i])
    ensures EdgeLength <= e.right - e.left && EdgeLength <= e.bottom - e.top ==>
      forall i :: 0 <= i < |p| ==> CmdOnBorder(e, p[i])
  {
    [MoveTo(e.left, e.top + EdgeLength),
     LineTo(e.left, e.top + CornerRadius),
     MoveTo(e.left, e.top + CornerRadius),
     QuadTo(e.left, e.top, e.left + CornerRadius, e.top),
     LineTo(e.left + EdgeLength, e.top),
     MoveTo(e.right - EdgeLength, e.top),
     LineTo(e.right - CornerRadius, e.top),
     MoveTo(e.right - CornerRadius, e.top),
     QuadTo(e.right, e.top, e.right, e.top + CornerRadius),
     LineTo(e.right, e.top + EdgeLength),
     MoveTo(e.right, e.bottom - EdgeLength),
     LineTo(e.right, e.bottom - CornerRadius),
     MoveTo(e.right, e.bottom - CornerRadius),
     QuadTo(e.right, e.bottom, e.right - CornerRadius, e.bottom),
     LineTo(e.right - EdgeLength, e.bottom),
     MoveTo(e.left + EdgeLength, e.bottom),
     LineTo(e.left + CornerRadius, e.bottom),
     MoveTo(e.left + CornerRadius, e.bottom),
     QuadTo(e.left, e.bottom, e.left, e.bottom - CornerRadius),
     LineTo(e.left, e.bottom - EdgeLength)]
  }

  /** The cutout computed on any canvas is large enough for its accents to stay on its border. */
  lemma DrawnAccentsOnBorder(width: nat, height: nat)
    ensures var e := ScanEdges(width, height);
      forall i :: 0 <= i < 20 ==> CmdOnBorder(e, CreateCutoutWithCorners(e)[i])
  {
  }

  class CustomRectangleWithRoundedCornersCutoutView {
    /** Edges of the scanner cutout, in view coordinates. */
    var xAxisLeftEdge: real
    var xAxisRightEdge: real
    var yAxisTopEdge: real
    var yAxisBottomEdge: real
    /** The view's right and bottom coordinates, as the layout pass leaves them. */
    var right: int
    var bottom: int
    /** The late-initialised paths: `None` until the first draw pass. */
    var backgroundShape: Option<Path>
    var qrScannerShape: Option<Path>
    var qrScannerCornersShape: Option<Path>

    /** The four edge fields as one value. */
    function CurrentEdges(): Edges
      reads this
    {
      Edges(xAxisLeftEdge, xAxisRightEdge, yAxisTopEdge, yAxisBottomEdge)
    }

    /** A fresh view: every edge is 0, the view is not laid out and no path exists yet. */
    constructor ()
      ensures CurrentEdges() == Edges(0.0, 0.0, 0.0, 0.0)
      ensures right == 0 && bottom == 0
      ensures backgroundShape.None? && qrScannerShape.None? && qrScannerCornersShape.None?
    {
      xAxisLeftEdge, xAxisRightEdge, yAxisTopEdge, yAxisBottomEdge := 0.0, 0.0, 0.0, 0.0;
      right, bottom := 0, 0;
      backgroundShape, qrScannerShape, qrScannerCornersShape := None, None, None;
    }

    /** The framework's layout pass, which sets the view's frame; the edges are untouched. */
    method SetFrame(newRight: int, newBottom: int)
      modifies this`right, this`bottom
      ensures right == newRight && bottom == newBottom
    {
      right, bottom := newRight, newBottom;
    }

    /**
     * A draw pass. Without a canvas nothing changes. With one, the edges
     * become `ScanEdges` of the canvas size, and the three paths are rebuilt
     * from them: the background with the cutout appended to it (`addPath`),
     * the cutout, and the corner accents. The frame is left alone.
     */
    method OnDraw(canvas: Option<Canvas>)
      modifies this
      ensures canvas.None? ==> unchanged(this)
      ensures canvas.Some? ==>
        && CurrentEdges() == ScanEdges(canvas.value.width, canvas.value.height)
        && right == old(right) && bottom == old(bottom)
        && qrScannerShape == Some(CreateQrPath(CurrentEdges()))
        && backgroundShape == Some(CreateBackgroundPath(right, bottom) + CreateQrPath(CurrentEdges()))
        && qrScannerCornersShape == Some(CreateCutoutWithCorners(CurrentEdges()))
    {
      if canvas.Some? {
        var width, height := canvas.value.width, canvas.value.height;
        xAxisLeftEdge := width as real * HorizontalOffset - QrScannerWidth / 2.0;
        xAxisRightEdge := width as real * HorizontalOffset + QrScannerWidth / 2.0;
        yAxisTopEdge := height as real * VerticalOffset - QrScannerHeight / 2.0;
        yAxisBottomEdge := height as real * VerticalOffset + QrScannerHeight / 2.0;

        var background := CreateBackgroundPath(right, bottom);
        var qr := CreateQrPath(CurrentEdges());
        qrScannerShape := Some(qr);
        qrScannerCornersShape := Some(CreateCutoutWithCorners(CurrentEdges()));
        backgroundShape := Some(background + qr);
      }
    }
  }

  /**
   * Drawing twice on a canvas of the same size leaves the same state as
   * drawing once: the edges and the three paths after the second pass are
   * those the first pass left, returned here as a snapshot, and that
   * snapshot is what a single pass builds from the canvas and the frame.
   */
  method RedrawIsIdempotent(view: CustomRectangleWithRoundedCornersCutoutView, canvas: Canvas)
    returns (edges: Edges, background: Option<Path>, qr: Option<Path>, corners: Option<Path>)
    modifies view
    ensures view.CurrentEdges() == edges && edges == ScanEdges(canvas.width, canvas.height)
    ensures view.backgroundShape == background && view.qrScannerShape == qr && view.qrScannerCornersShape == corners
    ensures background == Some(CreateBackgroundPath(old(view.right), old(view.bottom)) + CreateQrPath(edges))
    ensures qr == Some(CreateQrPath(edges)) && corners == Some(CreateCutoutWithCorners(edges))
    ensures view.right == old(view.right) && view.bottom == old(view.bottom)
  {
    view.OnDraw(Some(canvas));
    edges, background, qr, corners := view.CurrentEdges(), view.backgroundShape, view.qrScannerShape, view.qrScannerCornersShape;
    view.OnDraw(Some(canvas));
  }
}
