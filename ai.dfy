/**
 * The computer opponent of src/game/AI.ts: which piece it aims at and where it
 * puts the striker. The angle-based target score, the square root behind
 * getDistance and the cos/sin power vectors are left uninterpreted (AiOracles);
 * what they feed into — the candidate filter, the strict-maximum selection, the
 * nearest-piece fallback, the clamping and the restored striker — is modelled.
 */
module Opponent {
  import opened Wrappers
  import opened GattiTypes
  import opened Geometry
  import opened Pieces
  import opened Boards

  /** A strictly positive real: the target score is a product of positive factors. */
  type PosReal = r: real | r > 0.0 witness 1.0

  /** The trigonometric parts of AI.ts. */
  datatype AiOracles = AiOracles(
    /** The score of a piece of the given kind at p, seen from the striker at s. */
    score: (Point, Point, GattiType) -> PosReal,
    /** getDistance, a square root; it only sets the length of power and aim vectors. */
    dist: (Point, Point) -> real,
    /** (cos a, sin a) * len, where a is the angle from the first point to the second. */
    towards: (Point, Point, real) -> Point)

  /** What the target loops look at of a piece: its kind and its position. */
  datatype PieceView = PieceView(kind: GattiType, pos: Point)

  function ViewsOf(gs: seq<Gatti>): (vs: seq<PieceView>)
    reads gs
    ensures |vs| == |gs|
    ensures forall i :: 0 <= i < |gs| ==> vs[i] == PieceView(gs[i].kind, gs[i].pos)
  {
    seq(|gs|, i requires 0 <= i < |gs| reads gs => PieceView(gs[i].kind, gs[i].pos))
  }

  /** The candidate band of findBestTarget: pieces closer than 30 or farther than 400 are skipped. */
  const MinReach: real := 30.0
  const MaxReach: real := 400.0

  /** findBestTarget's candidate test, on squared distances. */
  predicate Candidate(v: PieceView, s: Point)
  {
    && v.kind != Striker
    && !(DistSq(s, v.pos) < MinReach * MinReach || DistSq(s, v.pos) > MaxReach * MaxReach)
  }

  /** A candidate is a piece other than the striker whose distance from the striker lies in [30, 400]. */
  lemma CandidateMeaning(v: PieceView, s: Point, d: real)
    requires IsDistance(s, v.pos, d)
    ensures Candidate(v, s) <==> v.kind != Striker && MinReach <= d <= MaxReach
  {
    SquareOrder(d, MinReach);
    SquareOrder(MaxReach, d);
  }

  /** The fallback's test: a piece other than the striker, strictly farther than 30. */
  predicate Eligible(v: PieceView, s: Point)
  {
    v.kind != Striker && DistSq(s, v.pos) > MinReach * MinReach
  }

  /** An eligible piece is one other than the striker at distance greater than 30. */
  lemma EligibleMeaning(v: PieceView, s: Point, d: real)
    requires IsDistance(s, v.pos, d)
    ensures Eligible(v, s) <==> v.kind != Striker && d > MinReach
  {
    SquareOrder(MinReach, d);
  }

  function ScoreOf(o: AiOracles, v: PieceView, s: Point): PosReal
  {
    o.score(s, v.pos, v.kind)
  }

  /**
   * Where the first loop of findBestTarget stands after n pieces: -1 while no
   * candidate has been seen, otherwise the index of the candidate it holds; a later
   * candidate replaces it only with a strictly higher score, and every score beats
   * the initial -1.
   */
  function Best(vs: seq<PieceView>, s: Point, o: AiOracles, n: nat): (r: int)
    requires n <= |vs|
    ensures -1 <= r < n
    ensures r >= 0 ==> Candidate(vs[r], s)
  {
    if n == 0 then -1
    else
      var r := Best(vs, s, o, n - 1);
      if Candidate(vs[n - 1], s) && (r == -1 || ScoreOf(o, vs[n - 1], s) > ScoreOf(o, vs[r], s)) then n - 1 else r
  }

  /**
   * The first loop finds nothing exactly when no piece is a candidate; otherwise it
   * holds a candidate whose score no other candidate beats, and every candidate
   * before it scores strictly less (ties keep the earliest).
   */
  lemma {:induction false} BestMeaning(vs: seq<PieceView>, s: Point, o: AiOracles, n: nat)
    requires n <= |vs|
    ensures var r := Best(vs, s, o, n);
      && (r == -1 <==> forall i :: 0 <= i < n ==> !Candidate(vs[i], s))
      && (r >= 0 ==> forall i :: 0 <= i < n && Candidate(vs[i], s) ==> ScoreOf(o, vs[i], s) <= ScoreOf(o, vs[r], s))
      && (r >= 0 ==> forall i :: 0 <= i < r && Candidate(vs[i], s) ==> ScoreOf(o, vs[i], s) < ScoreOf(o, vs[r], s))
  {
    if n > 0 {
      BestMeaning(vs, s, o, n - 1);
    }
  }

  /**
   * Where the fallback loop stands after n pieces: -1 while no eligible piece has
   * been seen (minDist is still Infinity), otherwise the index of the piece it
   * holds; a later eligible piece replaces it only when strictly nearer.
   */
  function Nearest(vs: seq<PieceView>, s: Point, n: nat): (r: int)
    requires n <= |vs|
    ensures -1 <= r < n
    ensures r >= 0 ==> Eligible(vs[r], s)
  {
    if n == 0 then -1
    else
      var r := Nearest(vs, s, n - 1);
      if Eligible(vs[n - 1], s) && (r == -1 || DistSq(s, vs[n - 1].pos) < DistSq(s, vs[r].pos)) then n - 1 else r
  }

  /**
   * The fallback finds nothing exactly when no piece is eligible; otherwise it holds
   * the earliest of the eligible pieces nearest to the striker.
   */
  lemma {:induction false} NearestMeaning(vs: seq<PieceView>, s: Point, n: nat)
    requires n <= |vs|
    ensures var r := Nearest(vs, s, n);
      && (r == -1 <==> forall i :: 0 <= i < n ==> !Eligible(vs[i], s))
      && (r >= 0 ==> forall i :: 0 <= i < n && Eligible(vs[i], s) ==> DistSq(s, vs[r].pos) <= DistSq(s, vs[i].pos))
      && (r >= 0 ==> forall i :: 0 <= i < r && Eligible(vs[i], s) ==> DistSq(s, vs[r].pos) < DistSq(s, vs[i].pos))
  {
    if n > 0 {
      NearestMeaning(vs, s, n - 1);
    }
  }

  function MinR(a: real, b: real): real { if a <= b then a else b }

  function MaxR(a: real, b: real): real { if a >= b then a else b }

  /** Math.max(lo, Math.min(hi, v)). */
  function Clamp(lo: real, hi: real, v: real): (r: real)
    ensures r >= lo
    ensures lo <= hi ==> r <= hi
    ensures lo <= v <= hi ==> r == v
    ensures lo <= hi && v < lo ==> r == lo
    ensures lo <= hi && v > hi ==> r == hi
  {
    MaxR(lo, MinR(hi, v))
  }

  /**
   * The power vector findBestTarget returns: toward the target with length
   * min(0.12 d, 40); failing a target, toward the nearest eligible piece with length
   * min(0.12 d, 35); failing that, toward the centre of the canvas with length 30.
   */
  function PowerFor(vs: seq<PieceView>, s: Point, width: real, height: real, o: AiOracles): Point
  {
    var b := Best(vs, s, o, |vs|);
    if b >= 0 then o.towards(s, vs[b].pos, MinR(o.dist(s, vs[b].pos) * 0.12, 40.0))
    else
      var n := Nearest(vs, s, |vs|);
      if n >= 0 then o.towards(s, vs[n].pos, MinR(o.dist(s, vs[n].pos) * 0.12, 35.0))
      else o.towards(s, Point(width / 2.0, height / 2.0), 30.0)
  }

  /**
   * makeMove's aim before clamping: from the striker toward the target, min(0.8 d, 200)
   * long; without a target, the striker plus three times the power vector.
   */
  function AimFor(vs: seq<PieceView>, s: Point, width: real, height: real, o: AiOracles): Point
  {
    var b := Best(vs, s, o, |vs|);
    if b >= 0 then Add(s, o.towards(s, vs[b].pos, MinR(o.dist(s, vs[b].pos) * 0.8, 200.0)))
    else Add(s, Scale(PowerFor(vs, s, width, height, o), 3.0))
  }

  /** Two views of the same pieces that may differ only in where strikers are. */
  predicate AgreeOffStriker(v1: seq<PieceView>, v2: seq<PieceView>)
  {
    && |v1| == |v2|
    && forall i :: 0 <= i < |v1| ==> v1[i].kind == v2[i].kind && (v1[i].kind != Striker ==> v1[i].pos == v2[i].pos)
  }

  /** The first loop skips the striker, so where it stands does not change what the loop picks. */
  lemma {:induction false} BestIgnoresStriker(v1: seq<PieceView>, v2: seq<PieceView>, s: Point, o: AiOracles, n: nat)
    requires AgreeOffStriker(v1, v2) && n <= |v1|
    ensures Best(v1, s, o, n) == Best(v2, s, o, n)
  {
    if n > 0 {
      BestIgnoresStriker(v1, v2, s, o, n - 1);
      assert Candidate(v1[n - 1], s) == Candidate(v2[n - 1], s);
    }
  }

  /** The same holds for the fallback loop. */
  lemma {:induction false} NearestIgnoresStriker(v1: seq<PieceView>, v2: seq<PieceView>, s: Point, n: nat)
    requires AgreeOffStriker(v1, v2) && n <= |v1|
    ensures Nearest(v1, s, n) == Nearest(v2, s, n)
  {
    if n > 0 {
      NearestIgnoresStriker(v1, v2, s, n - 1);
      assert Eligible(v1[n - 1], s) == Eligible(v2[n - 1], s);
    }
  }

  /** Hence makeMove's aim does not depend on where the striker stood while it was computed. */
  lemma AimIgnoresStriker(v1: seq<PieceView>, v2: seq<PieceView>, s: Point, width: real, height: real, o: AiOracles)
    requires AgreeOffStriker(v1, v2)
    ensures AimFor(v1, s, width, height, o) == AimFor(v2, s, width, height, o)
  {
    BestIgnoresStriker(v1, v2, s, o, |v1|);
    NearestIgnoresStriker(v1, v2, s, |v1|);
  }

  /** The first loop of findBestTarget. */
  method BestCandidate(gs: seq<Gatti>, s: Point, o: AiOracles) returns (target: Option<Gatti>, power: Point)
    ensures var vs := ViewsOf(gs); var b := Best(vs, s, o, |vs|);
      && (b == -1 ==> target == None)
      && (b >= 0 ==> target == Some(gs[b]) && power == o.towards(s, vs[b].pos, MinR(o.dist(s, vs[b].pos) * 0.12, 40.0)))
  {
    ghost var vs := ViewsOf(gs);
    target := None;
    var bestScore: real := -1.0;
    power := Point(0.0, 0.0);
    ghost var b := -1;
    for i := 0 to |gs|
      invariant b == Best(vs, s, o, i)
      invariant b == -1 ==> target == None && bestScore == -1.0
      invariant b >= 0 ==> target == Some(gs[b]) && bestScore == ScoreOf(o, vs[b], s)
      invariant b >= 0 ==> power == o.towards(s, vs[b].pos, MinR(o.dist(s, vs[b].pos) * 0.12, 40.0))
    {
      var g := gs[i];
      if g.kind == Striker {
        continue;
      }
      var d2 := DistSq(s, g.pos);
      if d2 < MinReach * MinReach || d2 > MaxReach * MaxReach {
        continue;
      }
      var score := o.score(s, g.pos, g.kind);
      if score > bestScore {
        bestScore := score;
        target := Some(g);
        b := i;
        power := o.towards(s, g.pos, MinR(o.dist(s, g.pos) * 0.12, 40.0));
      }
    }
  }

  /** The fallback loop of findBestTarget: minDist starts at Infinity, written None here. */
  method NearestPiece(gs: seq<Gatti>, s: Point) returns (nearest: Option<Gatti>)
    ensures var vs := ViewsOf(gs); var n := Nearest(vs, s, |vs|);
      nearest == if n == -1 then None else Some(gs[n])
  {
    ghost var vs := ViewsOf(gs);
    nearest := None;
    var minDist: Option<real> := None;
    ghost var n := -1;
    for i := 0 to |gs|
      invariant n == Nearest(vs, s, i)
      invariant n == -1 ==> nearest == None && minDist == None
      invariant n >= 0 ==> nearest == Some(gs[n]) && minDist == Some(DistSq(s, vs[n].pos))
    {
      var g := gs[i];
      if g.kind == Striker {
        continue;
      }
      var d2 := DistSq(s, g.pos);
      if (minDist == None || d2 < minDist.value) && d2 > MinReach * MinReach {
        minDist := Some(d2);
        nearest := Some(g);
        n := i;
      }
    }
  }

  /**
   * findBestTarget: the target is the candidate Best settles on and the power
   * vector is PowerFor; the target is never the striker.
   */
  method FindBestTarget(board: Board, o: AiOracles) returns (target: Option<Gatti>, power: Point)
    ensures var vs := ViewsOf(board.gattis); var b := Best(vs, board.striker.pos, o, |vs|);
      && target == (if b == -1 then None else Some(board.gattis[b]))
      && power == PowerFor(vs, board.striker.pos, board.width, board.height, o)
    ensures target.Some? ==> target.value in board.gattis && target.value.kind != Striker
    ensures target.Some? ==> Candidate(PieceView(target.value.kind, target.value.pos), board.striker.pos)
  {
    var s := board.striker.pos;
    target, power := BestCandidate(board.gattis, s, o);
    if target == None {
      var nearest := NearestPiece(board.gattis, s);
      if nearest.Some? {
        var p := nearest.value.pos;
        power := o.towards(s, p, MinR(o.dist(s, p) * 0.12, 35.0));
      } else {
        power := o.towards(s, Point(board.width / 2.0, board.height / 2.0), 30.0);
      }
    }
  }

  /** With the score abstracted as positive, there is no target exactly when no piece is a candidate. */
  lemma NoTargetIffNoCandidate(gs: seq<Gatti>, s: Point, o: AiOracles)
    ensures Best(ViewsOf(gs), s, o, |gs|) == -1 <==> forall g :: g in gs ==> !Candidate(PieceView(g.kind, g.pos), s)
  {
    var vs := ViewsOf(gs);
    BestMeaning(vs, s, o, |vs|);
    if Best(vs, s, o, |vs|) == -1 {
      forall g | g in gs
        ensures !Candidate(PieceView(g.kind, g.pos), s)
      {
        var i :| 0 <= i < |gs| && gs[i] == g;
        assert vs[i] == PieceView(g.kind, g.pos);
      }
    }
  }

  /** What makeMove returns: where to put the striker and where to aim. */
  datatype AiMove = AiMove(strikerX: real, strikerY: real, aim: Point)

  /** The aim point pulled into the canvas. */
  function IntoCanvas(p: Point, width: real, height: real): (q: Point)
    ensures 0.0 <= q.x && 0.0 <= q.y
    ensures width >= 0.0 ==> q.x <= width
    ensures height >= 0.0 ==> q.y <= height
    ensures 0.0 <= p.x <= width && 0.0 <= p.y <= height ==> q == p
  {
    Point(Clamp(0.0, width, p.x), Clamp(0.0, height, p.y))
  }

  /** The aim of makeMove, computed while the striker stands at `tried`. */
  method AimFrom(board: Board, o: AiOracles, tried: Point) returns (aim: Point)
    requires board.striker.pos == tried
    ensures aim == AimFor(ViewsOf(board.gattis), tried, board.width, board.height, o)
  {
    var target, power := FindBestTarget(board, o);
    if target.Some? {
      var t := target.value.pos;
      aim := Add(tried, o.towards(tried, t, MinR(o.dist(tried, t) * 0.8, 200.0)));
    } else {
      aim := Add(tried, Scale(power, 3.0));
    }
  }

  /**
   * makeMove: the striker is tried at the middle of the top baseline (y = 60),
   * the aim is computed from there, and the striker is put back where it was.
   * The returned x is the middle clamped into [60, width - 60], y is 60, and the
   * aim is AimFor from the tried position, clamped into the canvas.
   */
  method MakeMove(board: Board, o: AiOracles) returns (m: AiMove)
    requires board.striker.kind == Striker
    modifies board.striker`pos
    ensures board.striker.pos == old(board.striker.pos)
    ensures m.strikerY == Baseline
    ensures m.strikerX == Clamp(Baseline, board.width - Baseline, board.width / 2.0)
    ensures board.width >= 2.0 * Baseline ==> m.strikerX == board.width / 2.0
    ensures var tried := Point(board.width / 2.0, Baseline);
      m.aim == IntoCanvas(AimFor(ViewsOf(board.gattis), tried, board.width, board.height, o), board.width, board.height)
    ensures 0.0 <= m.aim.x && 0.0 <= m.aim.y
    ensures board.width >= 0.0 ==> m.aim.x <= board.width
    ensures board.height >= 0.0 ==> m.aim.y <= board.height
  {
    var start := Baseline;
    var end := board.width - Baseline;
    var strikerY := Baseline;
    var strikerX := board.width / 2.0;
    var tried := Point(strikerX, strikerY);

    var original := board.striker.pos;
    board.striker.pos := tried;
    ghost var moved := ViewsOf(board.gattis);
    var aim := AimFrom(board, o, tried);
    assert ViewsOf(board.gattis) == moved;
    assert aim == AimFor(moved, tried, board.width, board.height, o);
    board.striker.pos := original;

    ghost var restored := ViewsOf(board.gattis);
    assert AgreeOffStriker(moved, restored);
    AimIgnoresStriker(moved, restored, tried, board.width, board.height, o);
    ghost var wanted := AimFor(restored, tried, board.width, board.height, o);
    assert aim == wanted;

    aim := IntoCanvas(aim, board.width, board.height);
    m := AiMove(Clamp(start, end, strikerX), strikerY, aim);
    assert m.aim == IntoCanvas(wanted, board.width, board.height);
  }
}
