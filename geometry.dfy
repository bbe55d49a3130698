/**
 * Pixel geometry shared by every script: landmark points, hands, and the
 * Euclidean distance comparisons that the scripts write with `math.hypot`.
 *
 * All coordinates are integers, so `math.hypot(dx, dy) < t` for an integer
 * threshold `t` is exactly `dx*dx + dy*dy < t*t`.  Where a script keeps the
 * floating-point length itself (a deviation, a travelled distance), the model
 * receives that length from the caller and requires it to be the true length
 * (`IsLength`).
 */
module Geometry {

  /** A landmark (frame pixels) or a cursor position (screen pixels). */
  datatype Point = Point(x: int, y: int)

  /** One detected hand: the detector's landmark list, wrist at index 0. */
  type Hand = seq<Point>

  /** The hand detector reports 21 landmarks per hand. */
  const LandmarkCount: nat := 21

  predicate ValidHand(h: Hand) {
    |h| == LandmarkCount
  }

  /** Squared Euclidean distance between two points. */
  function SqDist(p: Point, q: Point): (d: nat)
    ensures d == 0 <==> p == q
  {
    var dx, dy := p.x - q.x, p.y - q.y;
    SquareIsZero(dx);
    SquareIsZero(dy);
    dx * dx + dy * dy
  }

  lemma SquareIsZero(a: int)
    ensures a * a >= 0
    ensures a * a == 0 <==> a == 0
  {
    if a > 0 {
      assert a * a >= a;
    } else if a < 0 {
      assert a * a == (-a) * (-a);
      assert (-a) * (-a) >= -a;
    }
  }

  /** `math.hypot(p - q) < t`. */
  predicate Closer(p: Point, q: Point, t: nat) {
    SqDist(p, q) < t * t
  }

  /** `math.hypot(p - q) > t`. */
  predicate Farther(p: Point, q: Point, t: nat) {
    SqDist(p, q) > t * t
  }

  /** `d` is the exact Euclidean length between `p` and `q`. */
  predicate IsLength(d: real, p: Point, q: Point) {
    d >= 0.0 && d * d == SqDist(p, q) as real
  }

  lemma SquareMonotone(a: real, b: real)
    requires 0.0 <= a && 0.0 <= b
    ensures a < b <==> a * a < b * b
  {
    if a < b {
      calc {
        a * a;
      <= a * b;
      <  b * b;
      }
    } else {
      calc {
        b * b;
      <= b * a;
      <= a * a;
      }
    }
  }

  /**
   * The integer comparisons agree with comparing the real length against the
   * threshold, in both directions: the squared form loses nothing.
   */
  lemma {:induction false} LengthComparisons(d: real, p: Point, q: Point, t: nat)
    requires IsLength(d, p, q)
    ensures d < t as real <==> Closer(p, q, t)
    ensures d > t as real <==> Farther(p, q, t)
  {
    SquareMonotone(d, t as real);
    SquareMonotone(t as real, d);
    assert (t as real) * (t as real) == (t * t) as real;
  }
}
