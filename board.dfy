/**
 * The board aggregate of src/game/Board.ts, together with the capture rule
 * checkInHoles of src/game/Gatti.ts (it lives here because it writes the board).
 *
 * Every rule-relevant field is gathered by Snapshot() into a Rules.Tally, so the
 * methods that change the board are proved to perform the pure functions of the
 * Rules module, and the properties of the rules are proved once, about those.
 */
module Boards {
  import opened Wrappers
  import opened GattiTypes
  import opened BoardTypes
  import opened Geometry
  import opened Players
  import opened Pieces
  import opened Holes
  import opened Rules

  /** Distance of the striker's baseline from the top or bottom edge. */
  const Baseline: real := 60.0

  /** Where nextTurn puts the striker for the side about to play. */
  function BaselinePos(turn: Turn, width: real, height: real): Point
  {
    Point(width / 2.0, if turn == Bottom then height - Baseline else Baseline)
  }

  /** The top player's starting point is the bottom player's mirrored through the centre. */
  lemma BaselinesMirror(width: real, height: real)
    ensures Mirror(BaselinePos(Bottom, width, height), Top, width, height) == BaselinePos(Top, width, height)
    ensures BaselinePos(Bottom, width, height).x == BaselinePos(Top, width, height).x == width / 2.0
  {
  }

  /** Which of the four holes contain a point (hole k contains it when closer than 15 to its centre). */
  function HitsAt(p: Point, width: real, height: real): (hits: seq<bool>)
    ensures |hits| == 4
    ensures forall k :: 0 <= k < 4 ==> hits[k] == Within(HoleCenter(k, width, height), p, 15.0)
  {
    seq(4, k requires 0 <= k < 4 => Within(HoleCenter(k, width, height), p, 15.0))
  }

  /**
   * On a board of at least 80 by 80 a piece lies in at most one hole, so a full
   * pass of checkInHoles is exactly the capture by that hole, or nothing.
   */
  lemma CaptureByOneHole(t: Tally, g: Gatti, width: real, height: real, j: nat)
    requires |t.pockets| == 4 && width >= 80.0 && height >= 80.0
    requires j < 4 && Within(HoleCenter(j, width, height), g.pos, 15.0)
    ensures CheckedHoles(t, g, HitsAt(g.pos, width, height), 4) == Captured(t, g, j)
  {
    var hits := HitsAt(g.pos, width, height);
    forall k | 0 <= k < 4 && k != j
      ensures !hits[k]
    {
      AtMostOneHole(g.pos, j, k, width, height);
    }
    SingleHole(t, g, hits, j, 4);
  }

  /** A piece in no hole leaves the board as it was. */
  lemma CaptureByNoHole(t: Tally, g: Gatti, width: real, height: real)
    requires |t.pockets| == 4
    requires forall k :: 0 <= k < 4 ==> !Within(HoleCenter(k, width, height), g.pos, 15.0)
    ensures CheckedHoles(t, g, HitsAt(g.pos, width, height), 4) == t
  {
    NoHoleNoChange(t, g, HitsAt(g.pos, width, height), 4);
  }

  /** The relative placement of the 17 pieces arrangeGattis adds, in units of the spacing. */
  const Offsets: seq<(int, int)> := [
    (0, 0),
    (1, 0), (2, 0), (-1, 0), (-2, 0),
    (0, -1), (0, -2), (0, 1), (0, 2),
    (1, 1), (2, 2), (-1, -1), (-2, -2),
    (1, -1), (2, -2), (-1, 1), (-2, 2)]

  /**
   * The kind of the k-th piece pushed: the queen first, then black and white
   * alternately, so eight of each; never a second striker.
   */
  function KindAt(k: nat): (kind: GattiType)
    ensures kind != Striker
    ensures kind == Queen <==> k == 0
    ensures k > 0 ==> (kind == Black <==> k % 2 == 1)
  {
    if k == 0 then Queen else if k % 2 == 1 then Black else White
  }

  /** Where the k-th piece of the layout goes around centre c with spacing s. */
  function Placed(c: Point, s: real, k: nat): Point
    requires k < 17
  {
    Point(c.x + (Offsets[k].0 as real) * s, c.y + (Offsets[k].1 as real) * s)
  }

  lemma OffsetsDistinct()
    ensures forall i, j :: 0 <= i < j < 17 ==> Offsets[i] != Offsets[j]
  {
  }

  /** A displacement of at least one spacing along an axis, squared, is at least the spacing squared. */
  lemma AxisGap(u: real, s: real)
    requires u >= 1.0 || u <= -1.0
    ensures (u * s) * (u * s) >= s * s
  {
    assert (u * s) * (u * s) == (u * u) * (s * s);
    var a := if u < 0.0 then -u else u;
    assert u * u == a * a;
    MulLeftMono(a, 1.0, a);
    MulLeftMono(s * s, 1.0, u * u);
  }

  /**
   * With a spacing of at least 20 (arrangeGattis uses the striker's diameter, 26),
   * no two of the 17 pieces, each of radius 10, overlap.
   */
  lemma {:induction false} LayoutNoOverlap(c: Point, s: real)
    requires s >= 20.0
    ensures forall i, j :: 0 <= i < j < 17 ==>
      !CirCollision(Circle(Placed(c, s, i), 10.0), Circle(Placed(c, s, j), 10.0))
  {
    OffsetsDistinct();
    forall i, j | 0 <= i < j < 17
      ensures !CirCollision(Circle(Placed(c, s, i), 10.0), Circle(Placed(c, s, j), 10.0))
    {
      PairApart(c, s, Offsets[i], Offsets[j]);
    }
  }

  /** Two distinct offsets put their pieces at least one spacing apart. */
  lemma PairApart(c: Point, s: real, a: (int, int), b: (int, int))
    requires s >= 20.0 && a != b
    ensures var p := Point(c.x + (a.0 as real) * s, c.y + (a.1 as real) * s);
      var q := Point(c.x + (b.0 as real) * s, c.y + (b.1 as real) * s);
      DistSq(p, q) >= 400.0
  {
    var p := Point(c.x + (a.0 as real) * s, c.y + (a.1 as real) * s);
    var q := Point(c.x + (b.0 as real) * s, c.y + (b.1 as real) * s);
    var u := (b.0 as real) - (a.0 as real);
    var v := (b.1 as real) - (a.1 as real);
    Shift(c.x, a.0 as real, b.0 as real, s);
    Shift(c.y, a.1 as real, b.1 as real, s);
    assert s * s >= 400.0 by {
      MulLeftMono(s, 20.0, s);
      MulLeftMono(20.0, 20.0, s);
    }
    assert DistSq(p, q) == (u * s) * (u * s) + (v * s) * (v * s);
    assert u == (b.0 - a.0) as real && v == (b.1 - a.1) as real;
    if a.0 != b.0 {
      assert u >= 1.0 || u <= -1.0;
      AxisGap(u, s);
      SquareNonNegative(v * s);
    } else {
      assert v >= 1.0 || v <= -1.0;
      AxisGap(v, s);
      SquareNonNegative(u * s);
    }
  }

  lemma Shift(o: real, a: real, b: real, s: real)
    ensures (o + b * s) - (o + a * s) == (b - a) * s
  {
  }

  lemma SquareNonNegative(x: real)
    ensures x * x >= 0.0
  {
    if x < 0.0 {
      MulLeftMono(-x, 0.0, -x);
    } else {
      MulLeftMono(x, 0.0, x);
    }
  }

  /** The 17 places of the layout around centre c with spacing s, in push order, the first of them the centre. */
  function Spots(c: Point, s: real): (l: seq<Point>)
    ensures |l| == 17 && l[0] == c
  {
    seq(17, k requires 0 <= k < 17 => Placed(c, s, k))
  }

  /**
   * The pieces gs, motionless, are pieces k0, k0 + 1, ... of the layout, of the
   * kinds KindAt gives and at the places spots lists.
   */
  ghost predicate PlacedFrom(gs: seq<Gatti>, spots: seq<Point>, k0: nat)
    reads gs
  {
    && k0 + |gs| <= 17 && |spots| == 17
    && forall j :: 0 <= j < |gs| ==>
      && gs[j].kind == KindAt(k0 + j) && gs[j].pos == spots[k0 + j]
      && gs[j].velocity == Point(0.0, 0.0) && gs[j].state == Rest
  }

  /** Two runs of the layout, the second starting where the first ends, make one run. */
  lemma PlacedJoin(gs1: seq<Gatti>, gs2: seq<Gatti>, spots: seq<Point>, k0: nat)
    requires PlacedFrom(gs1, spots, k0) && PlacedFrom(gs2, spots, k0 + |gs1|)
    ensures PlacedFrom(gs1 + gs2, spots, k0)
  {
    var gs := gs1 + gs2;
    forall j | |gs1| <= j < |gs|
      ensures gs[j] == gs2[j - |gs1|] && k0 + j == (k0 + |gs1|) + (j - |gs1|)
    {
    }
  }

  /** g may join pieces: it is not a striker, not already in play and not pocketed. */
  ghost predicate Admissible(pieces: seq<Gatti>, g: Gatti, pockets: seq<seq<Gatti>>)
  {
    g.kind != Striker && g !in pieces && forall h :: 0 <= h < |pockets| ==> g !in pockets[h]
  }

  /** Pushing an admissible piece keeps the layout well formed. */
  lemma LayoutGrows(pieces: seq<Gatti>, g: Gatti, pockets: seq<seq<Gatti>>)
    requires Layout(pieces, pockets) && Admissible(pieces, g, pockets)
    ensures Layout(pieces + [g], pockets)
  {
    var grown := pieces + [g];
    forall i, j | 0 <= i < j < |grown|
      ensures grown[i] != grown[j]
    {
      if j == |pieces| {
        assert grown[i] in pieces;
      }
    }
  }

  /** The striker alone, with four empty pockets, is a well-formed layout. */
  lemma InitialLayout(s: Gatti)
    requires s.kind == Striker
    ensures Layout([s], [[], [], [], []])
  {
  }

  /** The loop of init that pushes new Hole(i) for i = 0 .. 3. */
  method CornerHoles(width: real, height: real) returns (holes: seq<Hole>)
    ensures |holes| == 4
    ensures forall k :: 0 <= k < 4 ==>
      fresh(holes[k]) && holes[k].pocket == [] && holes[k].num == k && holes[k].radius == 15.0
      && holes[k].Center() == HoleCenter(k, width, height)
  {
    holes := [];
    for i := 0 to 4
      invariant |holes| == i
      invariant forall k :: 0 <= k < i ==>
        fresh(holes[k]) && holes[k].pocket == [] && holes[k].num == k && holes[k].radius == 15.0
        && holes[k].Center() == HoleCenter(k, width, height)
    {
      var h := new Hole(i, width, height);
      holes := holes + [h];
    }
  }

  class Board {
    const width: real
    const height: real
    var gattis: seq<Gatti>
    var holes: seq<Hole>
    /** target.flag: the aim line is shown and a release strikes. */
    var targetFlag: bool
    var striker: Gatti
    var cursorInitial: Point
    var cursorFinal: Point
    var state: GameState
    var turn: Turn
    var next: Turn
    var player1: Player
    var player2: Player
    var queenMode: bool
    var isGameOver: bool
    var player1PiecesHit: int
    var player2PiecesHit: int
    /** Striker fines whose toast timer has not fired yet. */
    var pendingFouls: nat

    /** The four pockets, in hole order. */
    ghost function Pockets(): seq<seq<Gatti>>
      reads this`holes, holes
    {
      if |holes| == 4 then [holes[0].pocket, holes[1].pocket, holes[2].pocket, holes[3].pocket] else []
    }

    /** The rule-relevant state of the board. */
    ghost function Snapshot(): Tally
      reads this, holes, player1, player2
    {
      Tally(gattis, Pockets(), turn, next, queenMode, player1.score, player2.score,
        player1PiecesHit, player2PiecesHit, pendingFouls)
    }

    /**
     * The board's invariant: the rules' invariant on the snapshot, the striker is
     * gattis[0], hole k sits at corner k with radius 15, and the players differ.
     */
    ghost predicate Valid()
      reads this, holes, player1, player2
    {
      && WellFormed(Snapshot())
      && gattis[0] == striker
      && striker.radius == TypeSize(Striker)
      && |holes| == 4
      && (forall k :: 0 <= k < 4 ==>
            holes[k].num == k && holes[k].radius == 15.0 && holes[k].Center() == HoleCenter(k, width, height))
      && player1 != player2
    }

    constructor(width: real, height: real)
      ensures this.width == width && this.height == height
      ensures gattis == [] && holes == []
      ensures fresh(striker) && striker.kind == Striker && striker.pos == Point(250.0, height - Baseline)
      ensures cursorInitial == Point(0.0, 0.0) && cursorFinal == Point(0.0, 0.0) && !targetFlag
      ensures state == First && turn == Bottom && next == Top
      ensures fresh(player1) && fresh(player2) && player1.score == 0 && player2.score == 0
      ensures !queenMode && !isGameOver && player1PiecesHit == 0 && player2PiecesHit == 0
      ensures pendingFouls == 0
    {
      this.width := width;
      this.height := height;
      gattis := [];
      holes := [];
      targetFlag := false;
      striker := new Gatti(Striker, Point(250.0, height - Baseline));
      cursorInitial := Point(0.0, 0.0);
      cursorFinal := Point(0.0, 0.0);
      state := First;
      turn := Bottom;
      next := Top;
      player1 := new Player("Player 1", 0);
      player2 := new Player("Player 2 (Computer)", 1);
      queenMode := false;
      isGameOver := false;
      player1PiecesHit := 0;
      player2PiecesHit := 0;
      pendingFouls := 0;
    }

    /**
     * init: a new striker at the middle of the bottom baseline is the only piece,
     * four new empty holes, two new players, bottom to move. The aim flag, the
     * cursor and any fine still waiting on its timer are left as they were.
     */
    method Init()
      modifies this
      ensures Valid()
      ensures gattis == [striker] && fresh(striker)
      ensures striker.pos == Point(width / 2.0, height - Baseline)
      ensures striker.velocity == Point(0.0, 0.0) && striker.state == Rest
      ensures forall k :: 0 <= k < 4 ==> fresh(holes[k]) && holes[k].pocket == []
      ensures fresh(player1) && fresh(player2) && player1.score == 0 && player2.score == 0
      ensures player1.id == Top && player2.id == Bottom
      ensures state == First && turn == Bottom && next == Top
      ensures !queenMode && !isGameOver && player1PiecesHit == 0 && player2PiecesHit == 0
      ensures targetFlag == old(targetFlag) && pendingFouls == old(pendingFouls)
      ensures cursorInitial == old(cursorInitial) && cursorFinal == old(cursorFinal)
    {
      ResetPieces();
      ResetPlayers();
      FreshBoardValid();
    }

    /** The first half of init: a new striker alone in play and four new empty holes. */
    method ResetPieces()
      modifies this`striker, this`gattis, this`holes
      ensures gattis == [striker] && fresh(striker) && striker.kind == Striker
      ensures striker.radius == TypeSize(Striker)
      ensures striker.pos == Point(width / 2.0, height - Baseline)
      ensures striker.velocity == Point(0.0, 0.0) && striker.state == Rest
      ensures |holes| == 4
      ensures forall k :: 0 <= k < 4 ==>
        fresh(holes[k]) && holes[k].pocket == [] && holes[k].num == k && holes[k].radius == 15.0
        && holes[k].Center() == HoleCenter(k, width, height)
    {
      striker := new Gatti(Striker, Point(width / 2.0, height - Baseline));
      gattis := [striker];
      holes := CornerHoles(width, height);
    }

    /** The second half of init: two new players with no score, bottom to move, no queen. */
    method ResetPlayers()
      modifies this`player1, this`player2, this`state, this`turn, this`next
      modifies this`queenMode, this`isGameOver, this`player1PiecesHit, this`player2PiecesHit
      ensures fresh(player1) && fresh(player2) && player1.score == 0 && player2.score == 0
      ensures player1.id == Top && player2.id == Bottom
      ensures state == First && turn == Bottom && next == Top
      ensures !queenMode && !isGameOver && player1PiecesHit == 0 && player2PiecesHit == 0
    {
      player1 := new Player("Player 1", 0);
      player2 := new Player("Player 2 (Computer)", 1);
      state := First;
      turn := Bottom;
      next := Top;
      queenMode := false;
      isGameOver := false;
      player1PiecesHit := 0;
      player2PiecesHit := 0;
    }

    /** The state init leaves is valid. */
    lemma FreshBoardValid()
      requires gattis == [striker] && striker.kind == Striker && striker.radius == TypeSize(Striker)
      requires |holes| == 4
      requires forall k :: 0 <= k < 4 ==>
        holes[k].pocket == [] && holes[k].num == k && holes[k].radius == 15.0
        && holes[k].Center() == HoleCenter(k, width, height)
      requires player1 != player2 && player1.score == 0 && player2.score == 0
      requires player1PiecesHit == 0 && player2PiecesHit == 0
      ensures Valid()
    {
      assert Pockets() == [[], [], [], []];
      InitialLayout(striker);
    }

    /**
     * arrangeGattis: the queen at the centre, then eight black and eight white
     * pieces on the axes and diagonals through it at one and two spacings, where
     * the spacing is the diameter of gattis[0] (the striker, so 26). The striker is
     * given a tiny horizontal velocity and set in motion; nothing else of it changes.
     */
    method ArrangeGattis()
      requires Valid()
      modifies this`gattis, striker`velocity, striker`state
      ensures Valid()
      ensures |gattis| == |old(gattis)| + 17 && gattis[..|old(gattis)|] == old(gattis)
      ensures PlacedFrom(gattis[|old(gattis)|..], Spots(Point(width / 2.0, height / 2.0), striker.radius * 2.0), 0)
      ensures striker.velocity == Point(0.00005, old(striker.velocity.y)) && striker.state == InMotion
      ensures striker.pos == old(striker.pos)
    {
      ghost var added := PlaceOpening(Pockets());
      assert gattis[|old(gattis)|..] == added;
    }

    /** The pushes of arrangeGattis, keeping the layout with the given pockets. */
    method PlaceOpening(ghost pockets: seq<seq<Gatti>>) returns (ghost added: seq<Gatti>)
      requires |gattis| >= 1 && gattis[0] == striker && Layout(gattis, pockets)
      modifies this`gattis, striker`velocity, striker`state
      ensures gattis == old(gattis) + added && |added| == 17
      ensures PlacedFrom(added, Spots(Point(width / 2.0, height / 2.0), old(gattis)[0].radius * 2.0), 0)
      ensures Layout(gattis, pockets)
      ensures striker.velocity == Point(0.00005, old(striker.velocity.y)) && striker.state == InMotion
      ensures striker.pos == old(striker.pos)
    {
      var c := Point(width / 2.0, height / 2.0);
      var q := Push(Queen, c, pockets);
      NudgeStriker();
      var spots := Spots(c, gattis[0].radius * 2.0);
      assert gattis[0] == old(gattis)[0];
      assert spots == Spots(Point(width / 2.0, height / 2.0), old(gattis)[0].radius * 2.0);
      var rest := PushSpokes(spots, pockets);
      added := [q] + rest;
      assert PlacedFrom([q], spots, 0);
      PlacedJoin([q], rest, spots, 0);
    }

    /** gattis[0], the striker, gets a tiny horizontal velocity and is set in motion. */
    method NudgeStriker()
      requires |gattis| >= 1 && gattis[0] == striker
      modifies striker`velocity, striker`state
      ensures striker.velocity == Point(0.00005, old(striker.velocity.y)) && striker.state == InMotion
    {
      gattis[0].velocity := Point(0.00005, gattis[0].velocity.y);
      gattis[0].state := InMotion;
    }

    /** Pieces 1 .. 16 of the layout: the spokes along the axes, then along the diagonals. */
    method PushSpokes(spots: seq<Point>, ghost pockets: seq<seq<Gatti>>) returns (ghost added: seq<Gatti>)
      requires |spots| == 17 && Layout(gattis, pockets)
      modifies this`gattis
      ensures gattis == old(gattis) + added && |added| == 16
      ensures PlacedFrom(added, spots, 1) && Layout(gattis, pockets)
    {
      var axes := PushAxes(spots, pockets);
      var diagonals := PushDiagonals(spots, pockets);
      added := axes + diagonals;
      PlacedJoin(axes, diagonals, spots, 1);
    }

    /** Pieces 1 .. 8 of the layout: the spokes along the axes, right and left, then up and down. */
    method PushAxes(spots: seq<Point>, ghost pockets: seq<seq<Gatti>>) returns (ghost added: seq<Gatti>)
      requires |spots| == 17 && Layout(gattis, pockets)
      modifies this`gattis
      ensures gattis == old(gattis) + added && |added| == 8
      ensures PlacedFrom(added, spots, 1) && Layout(gattis, pockets)
    {
      var a1 := PushCross(spots, 1, pockets);
      var a2 := PushCross(spots, 5, pockets);
      added := a1 + a2;
      PlacedJoin(a1, a2, spots, 1);
    }

    /** Pieces 9 .. 16 of the layout: the spokes along the two diagonals. */
    method PushDiagonals(spots: seq<Point>, ghost pockets: seq<seq<Gatti>>) returns (ghost added: seq<Gatti>)
      requires |spots| == 17 && Layout(gattis, pockets)
      modifies this`gattis
      ensures gattis == old(gattis) + added && |added| == 8
      ensures PlacedFrom(added, spots, 9) && Layout(gattis, pockets)
    {
      var a1 := PushCross(spots, 9, pockets);
      var a2 := PushCross(spots, 13, pockets);
      added := a1 + a2;
      PlacedJoin(a1, a2, spots, 9);
    }

    /** Two opposite spokes: pieces k .. k + 3 of the layout. */
    method PushCross(spots: seq<Point>, k: nat, ghost pockets: seq<seq<Gatti>>) returns (ghost added: seq<Gatti>)
      requires |spots| == 17 && k + 3 < 17 && Layout(gattis, pockets)
      requires k % 2 == 1
      modifies this`gattis
      ensures gattis == old(gattis) + added && |added| == 4
      ensures PlacedFrom(added, spots, k) && Layout(gattis, pockets)
    {
      var a1 := PushSpoke(spots, k, pockets);
      var a2 := PushSpoke(spots, k + 2, pockets);
      added := a1 + a2;
      PlacedJoin(a1, a2, spots, k);
    }

    /** One spoke: a black piece one spacing from the centre, then a white piece two spacings out. */
    method PushSpoke(spots: seq<Point>, k: nat, ghost pockets: seq<seq<Gatti>>) returns (ghost added: seq<Gatti>)
      requires |spots| == 17 && k + 1 < 17 && k % 2 == 1
      requires Layout(gattis, pockets)
      modifies this`gattis
      ensures gattis == old(gattis) + added && |added| == 2
      ensures PlacedFrom(added, spots, k) && Layout(gattis, pockets)
    {
      var b := Push(Black, spots[k], pockets);
      var w := Push(White, spots[k + 1], pockets);
      added := [b, w];
    }

    /** gattis.push(new Gatti(kind, pos)) for a piece other than the striker. */
    method Push(kind: GattiType, pos: Point, ghost pockets: seq<seq<Gatti>>) returns (g: Gatti)
      requires kind != Striker && Layout(gattis, pockets)
      modifies this`gattis
      ensures gattis == old(gattis) + [g] && Layout(gattis, pockets)
      ensures fresh(g) && g.kind == kind && g.pos == pos && g.velocity == Point(0.0, 0.0) && g.state == Rest
    {
      g := new Gatti(kind, pos);
      gattis := gattis + [g];
      LayoutGrows(old(gattis), g, pockets);
    }

    /**
     * nextTurn: the turn always passes to the other side and next becomes the side
     * that just played, whatever next was; the striker goes to the middle of the new
     * side's baseline.
     */
    method NextTurn()
      requires Valid()
      modifies this`turn, this`next, striker`pos
      ensures Valid()
      ensures turn == old(turn).Other() && next == old(turn)
      ensures striker.pos == BaselinePos(turn, width, height)
      ensures striker.velocity == old(striker.velocity) && striker.state == old(striker.state)
    {
      if turn == Bottom {
        turn := Top;
        next := Bottom;
      } else {
        turn := Bottom;
        next := Top;
      }
      var y := if turn == Bottom then height - Baseline else Baseline;
      striker.pos := Point(striker.pos.x, y);
      striker.pos := Point(width / 2.0, striker.pos.y);
    }

    /**
     * checkGameOver: true exactly when no piece other than the striker is left,
     * which on a valid board means the striker is alone; only then is isGameOver set.
     */
    method CheckGameOver() returns (over: bool)
      requires Valid()
      modifies this`isGameOver
      ensures over <==> RemainingPieces(gattis) == 0
      ensures over <==> gattis == [striker]
      ensures isGameOver == (old(isGameOver) || over)
    {
      RemainingAllButStriker(Snapshot());
      var remaining := RemainingPieces(gattis);
      if remaining == 0 {
        isGameOver := true;
        return true;
      }
      return false;
    }

    /** getCurrentPlayer: player 1 plays from the bottom, player 2 from the top. */
    function CurrentPlayer(): (p: Player)
      reads this
      ensures p == (if IsPlayer1Turn() then player1 else player2)
    {
      if turn == Bottom then player1 else player2
    }

    /** isPlayer1Turn: player 1 plays from the bottom. */
    function IsPlayer1Turn(): (b: bool)
      reads this`turn
      ensures b <==> turn == Bottom
    {
      turn == Bottom
    }

    /** isPlayer2Turn holds exactly when isPlayer1Turn does not. */
    function IsPlayer2Turn(): (b: bool)
      reads this`turn
      ensures b <==> !IsPlayer1Turn()
    {
      turn == Top
    }

    /** Whether hole k contains g, which on a valid board is the corner-k test of HitsAt. */
    lemma HoleCheckIsHitsAt(g: Gatti, k: nat)
      requires Valid() && k < 4
      ensures holes[k].Check(g) == HitsAt(g.pos, width, height)[k]
    {
    }

    /**
     * The body of checkInHoles for hole k, which contains g: the capture rule of
     * Rules.Captured, performed on the board's fields, the hole's pocket and the
     * players' scores.
     */
    method CaptureIn(g: Gatti, k: nat)
      requires Valid() && k < 4
      modifies this`gattis, this`queenMode, this`next, this`pendingFouls
      modifies this`player1PiecesHit, this`player2PiecesHit, holes[k], player1, player2
      ensures Valid()
      ensures Snapshot() == Captured(old(Snapshot()), g, k)
    {
      if g.kind == Striker {
        // board.toast('Foul', ...) defers the fine; the turn goes to the opponent
        pendingFouls := pendingFouls + 1;
        next := turn.Other();
      } else if g.kind == Queen {
        CaptureQueen(g, k);
      } else {
        CapturePiece(g, k);
      }
    }

    /** The queen in hole k: queen mode starts, the queen is pocketed and the side keeps the turn. */
    method CaptureQueen(g: Gatti, k: nat)
      requires Valid() && k < 4 && g.kind == Queen
      modifies this`gattis, this`queenMode, this`next, holes[k]
      ensures Valid()
      ensures Snapshot() == PocketPiece(old(Snapshot()).(queenMode := true), g, k).(next := old(turn))
    {
      ghost var before := Snapshot();
      queenMode := true;
      GainPreserves(before, Snapshot());
      Sink(g, k);
      next := turn;
    }

    /**
     * A black or white piece in hole k: the queen bonus when queen mode is on, the
     * piece is pocketed, one point and one capture, and the side keeps the turn.
     */
    method CapturePiece(g: Gatti, k: nat)
      requires Valid() && k < 4 && g.kind != Striker && g.kind != Queen
      modifies this`gattis, this`next, this`player1PiecesHit, this`player2PiecesHit, holes[k], player1, player2
      ensures Valid()
      ensures Snapshot() == Scored(old(Snapshot()), g, k)
    {
      AwardQueenBonus();
      Sink(g, k);
      Reward();
    }

    /** While queen mode is on, each further capture first earns the side to move 10 points. */
    method AwardQueenBonus()
      requires Valid()
      modifies player1, player2
      ensures Valid()
      ensures Snapshot() == if old(queenMode) then AddScore(old(Snapshot()), 10) else old(Snapshot())
    {
      ghost var before := Snapshot();
      if queenMode {
        var current := CurrentPlayer();
        current.IncScore(Some("queen"));
        GainPreserves(before, Snapshot());
      }
    }

    /** One point and one capture for the side to move, which keeps the turn. */
    method Reward()
      requires Valid()
      modifies this`next, this`player1PiecesHit, this`player2PiecesHit, player1, player2
      ensures Valid()
      ensures Snapshot() == AddHit(AddScore(old(Snapshot()), 1)).(next := old(turn))
    {
      ghost var before := Snapshot();
      var current := CurrentPlayer();
      current.IncScore(None);
      if IsPlayer1Turn() {
        player1PiecesHit := player1PiecesHit + 1;
      } else {
        player2PiecesHit := player2PiecesHit + 1;
      }
      next := turn;
      GainPreserves(before, Snapshot());
    }

    /**
     * The step both the queen and the piece branches share: when g is still in
     * play it is spliced out of gattis and appended to hole k's pocket.
     */
    method Sink(g: Gatti, k: nat)
      requires Valid() && k < 4 && g.kind != Striker
      modifies this`gattis, holes[k]
      ensures Valid()
      ensures Snapshot() == PocketPiece(old(Snapshot()), g, k)
    {
      ghost var before := Snapshot();
      PocketPreserves(before, g, k);
      assert forall j :: 0 <= j < 4 && j != k ==> holes[j] != holes[k];
      var index := IndexOf(gattis, g);
      if index > -1 {
        var removed := gattis[index];
        gattis := gattis[..index] + gattis[index + 1..];
        holes[k].AddToPocket(removed);
        assert Pockets() == before.pockets[k := before.pockets[k] + [g]];
      }
      assert Snapshot() == PocketPiece(before, g, k);
    }

    /**
     * checkInHoles(g): each hole in order that contains g applies the capture rule;
     * the result is Rules.CheckedHoles over the holes g lies in.
     */
    method CheckInHoles(g: Gatti)
      requires Valid()
      modifies this`gattis, this`queenMode, this`next, this`pendingFouls
      modifies this`player1PiecesHit, this`player2PiecesHit, holes, player1, player2
      ensures Valid()
      ensures Snapshot() == CheckedHoles(old(Snapshot()), g, HitsAt(g.pos, width, height), 4)
    {
      ghost var start := Snapshot();
      ghost var hits := HitsAt(g.pos, width, height);
      for i := 0 to |holes|
        invariant Valid()
        invariant Snapshot() == CheckedHoles(start, g, hits, i)
      {
        HoleCheckIsHitsAt(g, i);
        if holes[i].Check(g) {
          CaptureIn(g, i);
        }
      }
    }

    /** The toast callback of a striker foul: the side to move when it fires is fined. */
    method FoulToast()
      requires Valid() && pendingFouls > 0
      modifies this`pendingFouls, player1, player2
      ensures Valid()
      ensures Snapshot() == FoulFired(old(Snapshot()))
    {
      FoulFiredEffect(Snapshot());
      pendingFouls := pendingFouls - 1;
      CurrentPlayer().ApplyFine("striker");
    }
  }
}
