// Touch geometry: the point type delivered by the pan gesture recognizer and the
// vertical distance used to turn two samples into a progress increment.
// Coordinates are real numbers; floating-point rounding is not modelled.

module Geometry {

  /** A touch location in the coordinate space of the controller's view (CGPoint). */
  datatype Point = Point(x: real, y: real)

  /** The initial value of the stored sample point (CGPoint.zero). */
  const Origin: Point := Point(0.0, 0.0)

  /**
   * Signed vertical distance travelled from `from` to `to`: positive when `to` is
   * further down the screen. The horizontal coordinate plays no part.
   */
  function DistanceToPoint(from: Point, to: Point): (d: real)
    ensures from.y + d == to.y
    ensures d > 0.0 <==> to.y > from.y
  {
    to.y - from.y
  }

  /** Moving a sample sideways changes nothing, and distances compose along a path. */
  lemma DistanceIsVerticalAndAdditive(a: Point, b: Point, c: Point, dx: real)
    ensures DistanceToPoint(a, Point(b.x + dx, b.y)) == DistanceToPoint(a, b)
    ensures DistanceToPoint(a, b) + DistanceToPoint(b, c) == DistanceToPoint(a, c)
    ensures DistanceToPoint(b, a) == -DistanceToPoint(a, b)
  {
  }
}
