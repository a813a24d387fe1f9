/**
 * A carrom piece (src/game/Gatti.ts): its fields, the strike, the per-frame
 * motion step of draw, the boundary reflection and the point test. The capture
 * rule checkInHoles needs the board and lives with it (module Boards), because
 * two Dafny modules cannot import each other; the elastic collision resolver is
 * not part of this module (it is an opaque step of the frame loop).
 */
module Pieces {
  import opened Wrappers
  import opened GattiTypes
  import opened BoardTypes
  import opened Geometry

  /** 'rest' | 'motion' */
  datatype Motion = Rest | InMotion

  /** The edges checkBoundary tests, in its order of priority. */
  datatype Edge = TopEdge | BottomEdge | RightEdge | LeftEdge

  /** Whether a disc of the given radius centred at p reaches past edge e of the canvas. */
  predicate Crosses(p: Point, radius: real, width: real, height: real, e: Edge)
  {
    match e
    case TopEdge => p.y < radius
    case BottomEdge => p.y > height - radius
    case RightEdge => p.x > width - radius
    case LeftEdge => p.x < radius
  }

  /** The position of an edge in checkBoundary's order of priority. */
  function Rank(e: Edge): nat
  {
    match e
    case TopEdge => 0
    case BottomEdge => 1
    case RightEdge => 2
    case LeftEdge => 3
  }

  /**
   * The one edge checkBoundary handles for a disc of the given radius centred at p:
   * the first crossed edge in the order top, bottom, right, left; None when the disc
   * crosses no edge.
   */
  function CrossedEdge(p: Point, radius: real, width: real, height: real): (e: Option<Edge>)
    ensures e.Some? ==>
      && Crosses(p, radius, width, height, e.value)
      && forall f :: Rank(f) < Rank(e.value) ==> !Crosses(p, radius, width, height, f)
    ensures e.None? ==> forall f :: !Crosses(p, radius, width, height, f)
  {
    if p.y - radius < 0.0 then Some(TopEdge)
    else if p.y + radius > height then Some(BottomEdge)
    else if p.x + radius > width then Some(RightEdge)
    else if p.x - radius < 0.0 then Some(LeftEdge)
    else None
  }

  /** No edge is handled exactly when the disc lies inside the canvas on both axes. */
  lemma NoEdgeIffInside(p: Point, radius: real, width: real, height: real)
    ensures CrossedEdge(p, radius, width, height) == None <==>
      (radius <= p.y <= height - radius && radius <= p.x <= width - radius)
  {
  }

  /** In a corner past both the top and the left edge, only the top edge is handled. */
  lemma TopWinsInCorner(p: Point, radius: real, width: real, height: real)
    requires p.y - radius < 0.0 && p.x - radius < 0.0
    ensures CrossedEdge(p, radius, width, height) == Some(TopEdge)
  {
  }

  /** v plus n unit steps. */
  function Steps(from: real, n: nat): real
  {
    from + n as real
  }

  /** `to` is reached from `from` by a whole number of unit steps upwards. */
  ghost predicate UnitStepsUp(from: real, to: real)
  {
    exists n: nat :: to == Steps(from, n)
  }

  /** The nudge of the top and left edges: `while (v - radius < 0) v++`. */
  method NudgeUp(v: real, radius: real) returns (w: real)
    ensures v - radius < 0.0 ==> 0.0 <= w - radius < 1.0
    ensures v - radius >= 0.0 ==> w == v
    ensures UnitStepsUp(v, w)
  {
    w := v;
    ghost var n: nat := 0;
    while w - radius < 0.0
      invariant w == Steps(v, n)
      invariant n > 0 ==> w - 1.0 - radius < 0.0
      decreases radius - w
    {
      w := w + 1.0;
      n := n + 1;
    }
  }

  /** The nudge of the bottom and right edges: `while (v + radius > limit) v--`. */
  method NudgeDown(v: real, radius: real, limit: real) returns (w: real)
    ensures v + radius > limit ==> limit - 1.0 < w + radius <= limit
    ensures v + radius <= limit ==> w == v
    ensures UnitStepsUp(w, v)
  {
    w := v;
    ghost var n: nat := 0;
    while w + radius > limit
      invariant v == Steps(w, n)
      invariant n > 0 ==> w + 1.0 + radius > limit
      decreases w + radius - limit
    {
      w := w - 1.0;
      n := n + 1;
    }
  }

  class Gatti {
    const kind: GattiType
    const color: string
    const radius: real
    /** radius + 3; kept for fidelity, nothing in the rules reads it. */
    const boundary: real
    const friction: real
    const status: string
    var pos: Point
    var velocity: Point
    var state: Motion

    constructor(kind: GattiType, pos: Point)
      ensures this.kind == kind && color == TypeColor(kind)
      ensures radius == TypeSize(kind) && boundary == radius + 3.0
      ensures this.pos == pos && velocity == Point(0.0, 0.0)
      ensures friction == 0.92 && state == Rest && status == "ok"
    {
      this.kind := kind;
      this.color := TypeColor(kind);
      this.radius := TypeSize(kind);
      this.boundary := TypeSize(kind) + 3.0;
      this.pos := pos;
      this.velocity := Point(0.0, 0.0);
      this.friction := 0.92;
      this.state := Rest;
      this.status := "ok";
    }

    /** The piece as a disc, for the overlap and containment tests. */
    function Disc(): Circle
      reads this`pos
    {
      Circle(pos, radius)
    }

    /** strike: the velocity becomes exactly (fx, fy); position and state are untouched. */
    method Strike(fx: real, fy: real)
      modifies this`velocity
      ensures velocity == Point(fx, fy)
    {
      velocity := Point(fx, fy);
    }

    /**
     * The motion half of draw: advance by the old velocity, apply friction, and
     * settle to 'rest' only while the board is in 'third' and one velocity axis
     * is near zero (`nearZero` stands for `Math.floor(v.toFixed(1)) === 0`).
     */
    method Move(boardState: GameState, nearZero: real -> bool)
      modifies this`pos, this`velocity, this`state
      ensures pos == Add(old(pos), old(velocity))
      ensures velocity == Scale(old(velocity), friction)
      ensures state == Rest <==> (nearZero(velocity.x) || nearZero(velocity.y)) && boardState == Third
      ensures boardState != Third ==> state == InMotion
    {
      pos := Point(pos.x + velocity.x, pos.y + velocity.y);
      velocity := Point(velocity.x * friction, velocity.y * friction);
      if (nearZero(velocity.x) || nearZero(velocity.y)) && boardState == Third {
        state := Rest;
      } else {
        state := InMotion;
      }
    }

    /** checkPoint: p lies strictly inside the piece. */
    function CheckPoint(p: Point): (inside: bool)
      reads this
      ensures forall d | IsDistance(p, pos, d) :: inside <==> d < radius
    {
      Within(p, pos, radius)
    }

    /**
     * checkBoundary: reflect off at most one edge (the first of top, bottom, right,
     * left that the disc crosses) by negating that axis of the velocity, then step
     * the position back by whole units until the disc no longer crosses that edge.
     */
    method CheckBoundary(width: real, height: real)
      modifies this`pos, this`velocity
      ensures var e := CrossedEdge(old(pos), radius, width, height);
        match e
        case None =>
          pos == old(pos) && velocity == old(velocity)
        case Some(TopEdge) =>
          && velocity == Point(old(velocity).x, -old(velocity).y)
          && pos.x == old(pos).x && 0.0 <= pos.y - radius < 1.0 && UnitStepsUp(old(pos).y, pos.y)
        case Some(BottomEdge) =>
          && velocity == Point(old(velocity).x, -old(velocity).y)
          && pos.x == old(pos).x && height - 1.0 < pos.y + radius <= height && UnitStepsUp(pos.y, old(pos).y)
        case Some(RightEdge) =>
          && velocity == Point(-old(velocity).x, old(velocity).y)
          && pos.y == old(pos).y && width - 1.0 < pos.x + radius <= width && UnitStepsUp(pos.x, old(pos).x)
        case Some(LeftEdge) =>
          && velocity == Point(-old(velocity).x, old(velocity).y)
          && pos.y == old(pos).y && 0.0 <= pos.x - radius < 1.0 && UnitStepsUp(old(pos).x, pos.x)
    {
      if pos.y - radius < 0.0 {
        velocity := Point(velocity.x, -velocity.y);
        var y := NudgeUp(pos.y, radius);
        pos := Point(pos.x, y);
      } else if pos.y + radius > height {
        velocity := Point(velocity.x, -velocity.y);
        var y := NudgeDown(pos.y, radius, height);
        pos := Point(pos.x, y);
      } else if pos.x + radius > width {
        velocity := Point(-velocity.x, velocity.y);
        var x := NudgeDown(pos.x, radius, width);
        pos := Point(x, pos.y);
      } else if pos.x - radius < 0.0 {
        velocity := Point(-velocity.x, velocity.y);
        var x := NudgeUp(pos.x, radius);
        pos := Point(x, pos.y);
      }
    }
  }
}
