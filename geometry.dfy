/** Integer rectangles with the semantics of Go's `image.Rectangle`, and the
    conversion of a float to an int that Go's `int(f)` performs. These are the
    helpers shared by both copies of the frame step. */
module Geometry {

  datatype Option<T> = None | Some(value: T)

  datatype Point = Point(x: int, y: int)

  /** A rectangle holds the points p with min.x <= p.x < max.x and
      min.y <= p.y < max.y (half-open on both axes). */
  datatype Rect = Rect(min: Point, max: Point)

  /** Go's `int(f)` for a float64 holding `r`: truncation toward zero,
      which differs from `Floor` for negative non-integers. */
  function Trunc(r: real): (n: int)
    ensures 0.0 <= r ==> 0 <= n && n as real <= r < n as real + 1.0
    ensures r < 0.0 ==> n <= 0 && n as real - 1.0 < r <= n as real
  {
    if r >= 0.0 then r.Floor else -((-r).Floor)
  }

  /** `image.Rect(x0, y0, x1, y1)`: the corners are swapped where needed so
      that min <= max on each axis. */
  function MkRect(x0: int, y0: int, x1: int, y1: int): Rect
  {
    var (lx, hx) := if x0 > x1 then (x1, x0) else (x0, x1);
    var (ly, hy) := if y0 > y1 then (y1, y0) else (y0, y1);
    Rect(Point(lx, ly), Point(hx, hy))
  }

  /** `MkRect` orders each pair of coordinates and keeps both of them. */
  lemma MkRectSorts(x0: int, y0: int, x1: int, y1: int)
    ensures var r := MkRect(x0, y0, x1, y1);
            r.min.x <= r.max.x && r.min.y <= r.max.y &&
            multiset{r.min.x, r.max.x} == multiset{x0, x1} &&
            multiset{r.min.y, r.max.y} == multiset{y0, y1}
  {
  }

  /** `Rectangle.Empty`: the rectangle holds no point. */
  predicate Empty(r: Rect) {
    r.min.x >= r.max.x || r.min.y >= r.max.y
  }

  /** `Rectangle.Overlaps`: both non-empty and the open interiors meet, so
      rectangles that only share an edge do not overlap. */
  predicate Overlaps(a: Rect, b: Rect) {
    !Empty(a) && !Empty(b) &&
    a.min.x < b.max.x && b.min.x < a.max.x &&
    a.min.y < b.max.y && b.min.y < a.max.y
  }

  /** The half-open cell membership `image.Point.In`. */
  predicate Contains(r: Rect, p: Point) {
    r.min.x <= p.x < r.max.x && r.min.y <= p.y < r.max.y
  }

  /** An independent reading of `Overlaps`: two rectangles overlap exactly
      when some integer point lies in both. */
  lemma OverlapsIffCommonPoint(a: Rect, b: Rect)
    ensures Overlaps(a, b) <==> exists p :: Contains(a, p) && Contains(b, p)
  {
    if Overlaps(a, b) {
      var p := Point(if a.min.x < b.min.x then b.min.x else a.min.x,
                     if a.min.y < b.min.y then b.min.y else a.min.y);
      assert Contains(a, p) && Contains(b, p);
    }
  }

  /** Overlap does not depend on the order of the arguments. */
  lemma OverlapsSymmetric(a: Rect, b: Rect)
    ensures Overlaps(a, b) == Overlaps(b, a)
  {
  }

  /** Rectangles that share only an edge do not overlap. */
  lemma TouchingDoesNotOverlap(a: Rect, b: Rect)
    requires a.max.y == b.min.y || a.max.x == b.min.x
    ensures !Overlaps(a, b)
  {
  }

  /** Known values of `Trunc`: it rounds toward zero on both sides. */
  lemma TruncRoundsTowardZero()
    ensures Trunc(100.4) == 100 && Trunc(-0.5) == 0 && Trunc(-2.5) == -2
  {
  }

  /** Truncation is monotone. */
  lemma TruncMonotone(a: real, b: real)
    requires a <= b
    ensures Trunc(a) <= Trunc(b)
  {
  }
}
