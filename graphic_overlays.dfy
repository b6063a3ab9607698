/**
 * The overlay view that holds the graphics to draw and owns the coordinate
 * transform from image space to view space. Its implementation is not part of
 * this model: the transform is an arbitrary pair of functions fixed when the
 * overlay is made, and `Add` appends to the graphic list.
 */
module GraphicOverlays {
  import opened Drawing

  class GraphicOverlay {
    var graphics: seq<Graphic>
    const translateX: real -> real
    const translateY: real -> real

    constructor (translateX: real -> real, translateY: real -> real)
      ensures graphics == []
      ensures this.translateX == translateX && this.translateY == translateY
    {
      graphics := [];
      this.translateX := translateX;
      this.translateY := translateY;
    }

    method Add(graphic: Graphic)
      modifies this`graphics
      ensures graphics == old(graphics) + [graphic]
    {
      graphics := graphics + [graphic];
    }
  }
}
