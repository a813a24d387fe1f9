/**
 * Points and the distance helpers of src/utils/Util.ts.
 *
 * Dafny has no square root, so a distance is never computed here: a comparison
 * `getDistance(a, b) < r` is decided on the squared distance, and the contracts
 * state what that means for the true distance through IsDistance.
 */
module Geometry {
  import opened BoardTypes

  /** A point or a vector of the canvas (Point in the source). */
  datatype Point = Point(x: real, y: real)

  function Add(a: Point, b: Point): Point { Point(a.x + b.x, a.y + b.y) }

  function Sub(a: Point, b: Point): Point { Point(a.x - b.x, a.y - b.y) }

  function Scale(a: Point, k: real): Point { Point(a.x * k, a.y * k) }

  /** The square of getDistance(a, b). */
  function DistSq(a: Point, b: Point): (r: real)
    ensures r >= 0.0
    ensures a == b ==> r == 0.0
  {
    (b.x - a.x) * (b.x - a.x) + (b.y - a.y) * (b.y - a.y)
  }

  /** d is the Euclidean distance from a to b, the value getDistance returns. */
  ghost predicate IsDistance(a: Point, b: Point, d: real)
  {
    d >= 0.0 && d * d == DistSq(a, b)
  }

  /** For non-negative reals, comparing two values and comparing their squares agree. */
  lemma SquareOrder(d: real, r: real)
    requires d >= 0.0 && r >= 0.0
    ensures d < r <==> d * d < r * r
  {
    if d < r {
      calc {
        d * d;
      <= { MulLeftMono(d, d, r); }
        d * r;
      < { MulRightStrict(d, r, r); }
        r * r;
      }
    } else {
      calc {
        r * r;
      <= { MulLeftMono(r, r, d); }
        r * d;
      <= { MulLeftMono(d, r, d); }
        d * d;
      }
    }
  }

  lemma MulLeftMono(k: real, a: real, b: real)
    requires k >= 0.0 && a <= b
    ensures k * a <= k * b
  {
    assert k * b - k * a == k * (b - a);
  }

  lemma MulRightStrict(a: real, b: real, k: real)
    requires k > 0.0 && a < b
    ensures a * k < b * k
  {
    assert b * k - a * k == (b - a) * k;
  }

  /** getDistance is non-negative, symmetric, zero from a point to itself, and determined by its arguments. */
  lemma DistanceProperties(a: Point, b: Point, d: real, e: real)
    requires IsDistance(a, b, d)
    ensures d >= 0.0
    ensures IsDistance(b, a, d)
    ensures IsDistance(a, a, 0.0)
    ensures IsDistance(a, b, e) ==> e == d
  {
    assert DistSq(a, b) == DistSq(b, a);
    if IsDistance(a, b, e) {
      if d < e {
        SquareOrder(d, e);
      } else if e < d {
        SquareOrder(e, d);
      }
    }
  }

  lemma WithinMeaning(a: Point, b: Point, r: real)
    ensures forall d | IsDistance(a, b, d) :: (r > 0.0 && DistSq(a, b) < r * r) <==> d < r
  {
    forall d | IsDistance(a, b, d)
      ensures (r > 0.0 && DistSq(a, b) < r * r) <==> d < r
    {
      if r > 0.0 {
        SquareOrder(d, r);
      }
    }
  }

  /** Whether the distance from a to b is strictly less than r. */
  function Within(a: Point, b: Point, r: real): (w: bool)
    ensures forall d | IsDistance(a, b, d) :: w <==> d < r
  {
    WithinMeaning(a, b, r);
    r > 0.0 && DistSq(a, b) < r * r
  }

  /** Anything with a position and a radius: a piece or a hole. */
  datatype Circle = Circle(pos: Point, radius: real)

  /** checkCirCollission: the two discs overlap, that is their centres are strictly closer than the sum of the radii. */
  function CirCollision(c1: Circle, c2: Circle): (hit: bool)
    ensures forall d | IsDistance(c1.pos, c2.pos, d) :: hit <==> d < c1.radius + c2.radius
  {
    Within(c1.pos, c2.pos, c1.radius + c2.radius)
  }

  /** Two discs whose centres are exactly r1 + r2 apart touch but do not collide. */
  lemma TouchingIsNoCollision(c1: Circle, c2: Circle, d: real)
    requires IsDistance(c1.pos, c2.pos, d) && d == c1.radius + c2.radius
    ensures !CirCollision(c1, c2)
  {
  }

  /** The overlap test does not depend on the order of its arguments. */
  lemma CirCollisionSymmetric(c1: Circle, c2: Circle)
    ensures CirCollision(c1, c2) == CirCollision(c2, c1)
  {
    assert DistSq(c1.pos, c2.pos) == DistSq(c2.pos, c1.pos);
  }

  /** A disc of positive radius overlaps itself, which is why a piece must skip itself when testing collisions. */
  lemma SelfCollision(c: Circle)
    requires c.radius > 0.0
    ensures CirCollision(c, c)
  {
    assert IsDistance(c.pos, c.pos, 0.0);
  }

  /** rotate: a quarter turn for 90 degrees; any other angle leaves the point where it is. */
  function Rotate(p: Point, deg: real): (q: Point)
    ensures deg != 90.0 ==> q == p
    ensures deg == 90.0 ==> DistSq(Point(0.0, 0.0), q) == DistSq(Point(0.0, 0.0), p)
    ensures deg == 90.0 ==> q.x * p.x + q.y * p.y == 0.0
    ensures deg == 90.0 ==> p.x * q.y - p.y * q.x == -DistSq(Point(0.0, 0.0), p)
  {
    if deg == 90.0 then Point(p.y, -p.x) else p
  }

  /** Two quarter turns reflect the point through the origin. */
  lemma HalfTurn(p: Point)
    ensures Rotate(Rotate(p, 90.0), 90.0) == Point(-p.x, -p.y)
  {
  }

  /** Four quarter turns give back the original point. */
  lemma FourQuarterTurns(p: Point)
    ensures Rotate(Rotate(Rotate(Rotate(p, 90.0), 90.0), 90.0), 90.0) == p
  {
  }

  /** The turn-dependent part of getMousePos: the top player's input is reflected through the canvas centre. */
  function Mirror(p: Point, turn: Turn, width: real, height: real): (q: Point)
    ensures turn == Bottom ==> q == p
    ensures turn == Top ==> Add(p, q) == Point(width, height)
  {
    if turn == Top then Point(width - p.x, height - p.y) else p
  }

  /** Mirroring is its own inverse. */
  lemma MirrorTwice(p: Point, turn: Turn, width: real, height: real)
    ensures Mirror(Mirror(p, turn, width, height), turn, width, height) == p
  {
  }

  /**
   * getMousePos without the DOM: the event's client position is made relative to the
   * canvas's top-left corner and then mirrored for the top player.
   */
  function CanvasPoint(client: Point, canvasOrigin: Point, turn: Turn, width: real, height: real): (q: Point)
    ensures turn == Bottom ==> q == Sub(client, canvasOrigin)
    ensures turn == Top ==> q == Sub(Point(width, height), Sub(client, canvasOrigin))
  {
    Mirror(Sub(client, canvasOrigin), turn, width, height)
  }
}
