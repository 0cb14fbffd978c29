/**
 * The two shapes the drawing clients commit, and the fixed arithmetic that
 * turns a drag from an anchor (sx, sy) to a release point (cx, cy) into one.
 * Coordinates are mathematical reals (no floating-point rounding).
 */
module Shapes {

  datatype Shape =
    | Rect(x: real, y: real, width: real, height: real)
    | Circle(centerX: real, centerY: real, radius: real)

  /** `Math.abs`. */
  function Abs(v: real): (r: real)
    ensures r >= 0.0 && (r == v || r == -v)
  {
    if v < 0.0 then -v else v
  }

  /** `Math.max` of two numbers. */
  function Max(a: real, b: real): (r: real)
    ensures r >= a && r >= b && (r == a || r == b)
  {
    if a >= b then a else b
  }

  /**
   * The rectangle anchored at the press point whose opposite corner is the
   * release point; width and height are negative when dragging up or left.
   */
  function RectFromDrag(sx: real, sy: real, cx: real, cy: real): (s: Shape)
    ensures s.Rect? && s.x == sx && s.y == sy
    ensures s.x + s.width == cx && s.y + s.height == cy
  {
    Rect(sx, sy, cx - sx, cy - sy)
  }

  /**
   * The circle centred on the midpoint of the drag whose diameter is the
   * larger of the drag's horizontal and vertical extents.
   */
  function CircleFromDrag(sx: real, sy: real, cx: real, cy: real): (s: Shape)
    ensures s.Circle?
    ensures 2.0 * s.centerX == sx + cx && 2.0 * s.centerY == sy + cy
    ensures s.radius >= 0.0
    ensures 2.0 * s.radius >= Abs(cx - sx) && 2.0 * s.radius >= Abs(cy - sy)
    ensures 2.0 * s.radius == Abs(cx - sx) || 2.0 * s.radius == Abs(cy - sy)
  {
    var width := cx - sx;
    var height := cy - sy;
    Circle(sx + width / 2.0, sy + height / 2.0, Max(Abs(width), Abs(height)) / 2.0)
  }

  /**
   * Both ends of the drag lie in the circle's bounding square, and the
   * square touches them along the drag's longer axis.
   */
  lemma CircleSquareSpansDrag(sx: real, sy: real, cx: real, cy: real)
    ensures var c := CircleFromDrag(sx, sy, cx, cy);
      && c.centerX - c.radius <= sx <= c.centerX + c.radius
      && c.centerX - c.radius <= cx <= c.centerX + c.radius
      && c.centerY - c.radius <= sy <= c.centerY + c.radius
      && c.centerY - c.radius <= cy <= c.centerY + c.radius
      && (Abs(cx - c.centerX) == c.radius || Abs(cy - c.centerY) == c.radius)
  {
  }
}
