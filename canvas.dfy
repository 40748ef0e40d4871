/** The parts of an HTML canvas and its 2D context that the export uses.
    Pixels are not modelled: a canvas records its size, the current
    transform as the list of operations applied since the last reset, the
    `save()` stack, and the `drawImage` calls made on it. Rotation stays an
    opaque angle, so no trigonometry is needed. */
module Canvas2D {

  datatype TransformOp = Translate(dx: real, dy: real) | Rotate(angle: real)

  /** The two images the export draws. */
  datatype Source = PhotoSource | GlassesSource

  /** One `drawImage(source, dx, dy, dw, dh)` call, with the transform in force. */
  datatype DrawCall = DrawCall(source: Source, transform: seq<TransformOp>, dx: real, dy: real, dw: real, dh: real)

  /** What `toDataURL` encodes: the canvas size and everything drawn on it. */
  datatype Raster = Raster(width: real, height: real, draws: seq<DrawCall>)

  class Canvas {
    /** Whether `getContext("2d")` yields a context. */
    const supports2d: bool
    var width: real
    var height: real
    var transform: seq<TransformOp>
    var stack: seq<seq<TransformOp>>
    var draws: seq<DrawCall>

    /** A fresh canvas: 300x150, identity transform, nothing drawn. */
    constructor (supports2d: bool)
      ensures this.supports2d == supports2d
      ensures width == 300.0 && height == 150.0
      ensures transform == [] && stack == [] && draws == []
    {
      this.supports2d := supports2d;
      width, height := 300.0, 150.0;
      transform, stack, draws := [], [], [];
    }

    /** Assigning `canvas.width` clears the bitmap and resets the context
        state: the transform and the `save()` stack. */
    method SetWidth(w: real)
      modifies this
      ensures width == w && height == old(height)
      ensures transform == [] && stack == [] && draws == []
    {
      width := w;
      transform, stack, draws := [], [], [];
    }

    /** Assigning `canvas.height` resets the same way. */
    method SetHeight(h: real)
      modifies this
      ensures height == h && width == old(width)
      ensures transform == [] && stack == [] && draws == []
    {
      height := h;
      transform, stack, draws := [], [], [];
    }

    /** `ctx.save()`: pushes the current transform. */
    method Save()
      modifies this
      ensures stack == old(stack) + [old(transform)]
      ensures transform == old(transform) && draws == old(draws)
      ensures width == old(width) && height == old(height)
    {
      stack := stack + [transform];
    }

    /** `ctx.restore()`: pops the last saved transform; with nothing saved it
        does nothing. */
    method Restore()
      modifies this
      ensures old(stack) == [] ==> stack == [] && transform == old(transform)
      ensures old(stack) != [] ==> stack == old(stack)[..|old(stack)| - 1] && transform == old(stack)[|old(stack)| - 1]
      ensures draws == old(draws) && width == old(width) && height == old(height)
    {
      if stack != [] {
        transform := stack[|stack| - 1];
        stack := stack[..|stack| - 1];
      }
    }

    method Translate(dx: real, dy: real)
      modifies this
      ensures transform == old(transform) + [TransformOp.Translate(dx, dy)]
      ensures stack == old(stack) && draws == old(draws)
      ensures width == old(width) && height == old(height)
    {
      transform := transform + [TransformOp.Translate(dx, dy)];
    }

    method Rotate(angle: real)
      modifies this
      ensures transform == old(transform) + [TransformOp.Rotate(angle)]
      ensures stack == old(stack) && draws == old(draws)
      ensures width == old(width) && height == old(height)
    {
      transform := transform + [TransformOp.Rotate(angle)];
    }

    /** `ctx.drawImage(source, dx, dy, dw, dh)` under the current transform. */
    method DrawImage(source: Source, dx: real, dy: real, dw: real, dh: real)
      modifies this
      ensures draws == old(draws) + [DrawCall(source, old(transform), dx, dy, dw, dh)]
      ensures transform == old(transform) && stack == old(stack)
      ensures width == old(width) && height == old(height)
    {
      draws := draws + [DrawCall(source, transform, dx, dy, dw, dh)];
    }

    /** `canvas.toDataURL("image/png")`, before the PNG encoding. */
    method ToDataUrl() returns (r: Raster)
      ensures r.width == width && r.height == height && r.draws == draws
    {
      r := Raster(width, height, draws);
    }
  }
}
