/** Pixel coordinates and extents shared by the packer oracle, the compositor and the rewriter. */
module Geometry {

  /** An `{x, y}` placement of an image inside a composite (the packer's `fit`). */
  datatype Point = Point(x: int, y: int)

  /** A `{w, h}` extent: a slot to place, or the bounding box (`root`) of a packing. */
  datatype Size = Size(w: int, h: int)
}
