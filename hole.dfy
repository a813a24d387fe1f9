/**
 * A pocket (src/game/Hole.ts): a fixed disc of radius 15 near one corner of the
 * canvas that keeps, in order, the pieces captured in it.
 */
module Holes {
  import opened Geometry
  import opened Pieces

  /** The inset of every pocket centre from the two nearest canvas edges. */
  const Unit: real := 25.0

  /** Where pocket `index` sits: 0 top-left, 1 top-right, 2 bottom-right, 3 bottom-left. */
  function HoleCenter(index: int, width: real, height: real): Point
    requires 0 <= index < 4
  {
    if index == 0 then Point(Unit, Unit)
    else if index == 1 then Point(width - Unit, Unit)
    else if index == 2 then Point(width - Unit, height - Unit)
    else Point(Unit, height - Unit)
  }

  /** On a canvas wider and taller than 50 the four pockets are at four different places. */
  lemma HoleCentersDistinct(i: int, j: int, width: real, height: real)
    requires 0 <= i < 4 && 0 <= j < 4 && i != j
    requires width > 50.0 && height > 50.0
    ensures HoleCenter(i, width, height) != HoleCenter(j, width, height)
  {
  }

  /**
   * If the canvas is at least 80 wide and tall, no point lies inside two pockets:
   * pocket centres are then at least 30 apart on some axis, twice the pocket radius.
   */
  lemma {:induction false} AtMostOneHole(p: Point, i: int, j: int, width: real, height: real)
    requires 0 <= i < 4 && 0 <= j < 4 && i != j
    requires width >= 80.0 && height >= 80.0
    requires Within(HoleCenter(i, width, height), p, 15.0)
    ensures !Within(HoleCenter(j, width, height), p, 15.0)
  {
    var a, b := HoleCenter(i, width, height), HoleCenter(j, width, height);
    if Within(b, p, 15.0) {
      NearOnBothAxes(a, p, 15.0);
      NearOnBothAxes(b, p, 15.0);
      assert false;
    }
  }

  /** Within distance r implies within r on each axis. */
  lemma NearOnBothAxes(c: Point, p: Point, r: real)
    requires r > 0.0 && DistSq(c, p) < r * r
    ensures -r < p.x - c.x < r && -r < p.y - c.y < r
  {
    AxisBound(p.x - c.x, p.y - c.y, r);
    AxisBound(p.y - c.y, p.x - c.x, r);
  }

  lemma AxisBound(u: real, v: real, r: real)
    requires r > 0.0 && u * u + v * v < r * r
    ensures -r < u < r
  {
    var a := if u < 0.0 then -u else u;
    assert a * a == u * u;
    assert v * v >= 0.0;
    if a >= r {
      SquareOrder(r, a);
    }
  }

  class Hole {
    const radius: real
    const num: int
    const x: real
    const y: real
    /** The captured pieces, oldest first. */
    var pocket: seq<Gatti>

    constructor(index: int, width: real, height: real)
      requires 0 <= index < 4
      ensures radius == 15.0 && num == index && pocket == []
      ensures Center() == HoleCenter(index, width, height)
    {
      radius := 15.0;
      num := index;
      pocket := [];
      var c := HoleCenter(index, width, height);
      x := c.x;
      y := c.y;
    }

    function Center(): Point
    {
      Point(x, y)
    }

    /** check: the piece's centre is strictly closer to the pocket centre than the pocket radius. */
    function Check(g: Gatti): (inside: bool)
      reads g
      ensures forall d | IsDistance(Center(), g.pos, d) :: inside <==> d < radius
    {
      Within(Center(), g.pos, radius)
    }

    /** addToPocket: append the piece after those already captured. */
    method AddToPocket(g: Gatti)
      modifies this`pocket
      ensures pocket == old(pocket) + [g]
      ensures |pocket| == |old(pocket)| + 1 && pocket[..|old(pocket)|] == old(pocket)
    {
      pocket := pocket + [g];
    }
  }
}
