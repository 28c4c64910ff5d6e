/** Planar points, rectangles, and the shapes handed to the geometry library.

    The polygon library (construction, union, difference, rotation, translation) is
    foreign to the components: a `Shape` records what was handed to it, and nothing
    is assumed about what it computes. */
module Geometry {
  import opened Base

  datatype Point = Point(x: real, y: real)

  function Add(a: Point, b: Point): Point { Point(a.x + b.x, a.y + b.y) }

  function Sub(a: Point, b: Point): Point { Point(a.x - b.x, a.y - b.y) }

  function Scale(k: real, a: Point): Point { Point(k * a.x, k * a.y) }

  /** The z-component of the cross product, as `np.cross` gives it for 2-vectors. */
  function Cross(a: Point, b: Point): real { a.x * b.y - a.y * b.x }

  /** A rectangle as `draw.rectangle(w, h, xoff, yoff)` builds it: centred at
      `(cx, cy)`, `w` wide along x and `h` high along y. */
  datatype Rect = Rect(cx: real, cy: real, w: real, h: real)

  /** The same rectangle reflected in the line x = 0. */
  function MirrorX(r: Rect): Rect { r.(cx := -r.cx) }

  /** The same rectangle reflected in the line y = 0. */
  function MirrorY(r: Rect): Rect { r.(cy := -r.cy) }

  /** A value handed to the geometry library. A part of a union may be Python's
      `None`, because the route builder appends unchecked results. */
  datatype Shape =
    | Polygon(vertices: seq<Point>)
    | Box(rect: Rect)
    | Union(parts: seq<Option<Shape>>)
    | Difference(outer: Option<Shape>, inner: Option<Shape>)
    | Line(points: seq<Point>)
}
