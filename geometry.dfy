/** Core Graphics points, sizes and rectangles over `real`. */
module Geometry {
  datatype Point = Point(x: real, y: real)

  datatype Size = Size(width: real, height: real)

  datatype Rect = Rect(x: real, y: real, width: real, height: real) {
    function Origin(): Point { Point(x, y) }

    /** The right edge; like `CGRect.maxX`, a negative width is read as a rectangle
        that extends to the left of `x`. */
    function MaxX(): real { if width >= 0.0 then x + width else x }

    /** The vertical middle (the same with or without standardising a negative height). */
    function MidY(): real { y + height / 2.0 }
  }

  const ZeroRect := Rect(0.0, 0.0, 0.0, 0.0)
}
