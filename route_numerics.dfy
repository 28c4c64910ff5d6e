/** The floating-point primitives the route builder takes from numpy, as inputs.

    The route builder evaluates `numpy.linalg.norm`, `arccos`, `tan`, `cos`/`sin`, and a
    block of trigonometry that places the fillet circle (qroutemod.py:283-309). None of
    them is reimplemented: a `Numerics` value carries them, and `Sound` states the few
    facts about them that the proofs rely on. */
module RouteNumerics {
  import opened Geometry

  /** `np.pi` (the double nearest to pi, written out). */
  const Pi: real := 3.141592653589793

  /** Segments no longer than this are skipped by the straight-segment rasterizer. */
  const SegmentTolerance: real := 0.000000001

  /** Where the fillet arc lies: the circle centre and the sweep angles after the
      start/end swap of qroutemod.py:307-309. */
  datatype ArcFrame = ArcFrame(centre: Point, thetaStart: real, thetaEnd: real)

  datatype Numerics = Numerics(
    /** `np.linalg.norm` of a vector */
    norm: Point -> real,
    /** `np.arccos(np.dot(u, v))` for the unit vectors of the two arguments */
    angle: (Point, Point) -> real,
    /** `np.tan` */
    tan: real -> real,
    /** circle centre and sweep angles for (start, corner, end, radius, angle) */
    frame: (Point, Point, Point, real, real) -> ArcFrame,
    /** `(np.cos(t), np.sin(t))` */
    unit: real -> Point)

  /** The facts about the primitives that the route builder's arithmetic depends on:
      lengths are never negative, `arccos` lands in [0, pi], and `tan` is positive on
      (0, pi/2), so the fillet overrun test never divides by zero. */
  ghost predicate Sound(num: Numerics) {
    && (forall v :: num.norm(v) >= 0.0)
    && (forall u, v :: 0.0 <= num.angle(u, v) <= Pi)
    && (forall t :: 0.0 < t < Pi / 2.0 ==> num.tan(t) > 0.0)
  }

  /** Length of the straight piece from `a` to `b`. */
  function Dist(num: Numerics, a: Point, b: Point): real {
    num.norm(Sub(b, a))
  }
}
