/**
 * The capture rules of checkInHoles (src/game/Gatti.ts:132-188) as pure functions
 * over a snapshot of the rule-relevant part of the board: the pieces still in play,
 * the four pockets, whose turn it is, the next turn, the queen flag, both scores,
 * both capture counters and the striker fines still waiting on a timer.
 */
module Rules {
  import opened GattiTypes
  import opened BoardTypes
  import opened Pieces
  import opened Players

  datatype Tally = Tally(
    pieces: seq<Gatti>,
    pockets: seq<seq<Gatti>>,
    turn: Turn,
    next: Turn,
    queenMode: bool,
    score1: int,
    score2: int,
    hit1: int,
    hit2: int,
    fouls: nat)

  /** Array.prototype.indexOf on object identity: the first position of g, or -1. */
  function IndexOf(s: seq<Gatti>, g: Gatti): (i: int)
    ensures -1 <= i < |s|
    ensures i >= 0 ==> s[i] == g && g !in s[..i]
    ensures i == -1 <==> g !in s
  {
    if |s| == 0 then -1
    else if s[0] == g then 0
    else
      var k := IndexOf(s[1..], g);
      assert s[1..][..k + 1] == s[..k + 2][1..] by { }
      if k == -1 then -1 else k + 1
  }

  /** In a sequence without repeats, indexOf finds each element at its own position. */
  lemma IndexOfDistinct(s: seq<Gatti>, i: nat)
    requires Distinct(s) && i < |s|
    ensures IndexOf(s, s[i]) == i
  {
  }

  /** gattis.splice(i, 1): the sequence without its i-th element. */
  function Splice(s: seq<Gatti>, i: nat): (t: seq<Gatti>)
    requires i < |s|
    ensures |t| == |s| - 1
    ensures forall j :: 0 <= j < |t| ==> t[j] == if j < i then s[j] else s[j + 1]
    ensures multiset(t) + multiset{s[i]} == multiset(s)
  {
    assert s == s[..i] + [s[i]] + s[i + 1..];
    s[..i] + s[i + 1..]
  }

  /** Whether no object occurs twice. */
  predicate Distinct(s: seq<Gatti>)
  {
    forall i, j :: 0 <= i < j < |s| ==> s[i] != s[j]
  }

  /**
   * The invariant the board keeps: the striker is the first piece and the only
   * striker, no piece is listed twice, a pocketed piece is never in play, there
   * are four pockets, and scores and counters are non-negative.
   */
  ghost predicate WellFormed(t: Tally)
  {
    && Layout(t.pieces, t.pockets)
    && t.score1 >= 0 && t.score2 >= 0 && t.hit1 >= 0 && t.hit2 >= 0
  }

  /** The part of WellFormed about where the pieces are. */
  ghost predicate Layout(pieces: seq<Gatti>, pockets: seq<seq<Gatti>>)
  {
    && |pieces| >= 1
    && pieces[0].kind == Striker
    && (forall i :: 1 <= i < |pieces| ==> pieces[i].kind != Striker)
    && Distinct(pieces)
    && |pockets| == 4
    && (forall k, g :: 0 <= k < |pockets| && g in pockets[k] ==> g !in pieces)
  }

  /** Add n to the score of the side whose turn it is. */
  function AddScore(t: Tally, n: int): Tally
  {
    if t.turn == Bottom then t.(score1 := t.score1 + n) else t.(score2 := t.score2 + n)
  }

  /** One more capture for the side whose turn it is. */
  function AddHit(t: Tally): Tally
  {
    if t.turn == Bottom then t.(hit1 := t.hit1 + 1) else t.(hit2 := t.hit2 + 1)
  }

  /** Remove g from play and append it to pocket k, when g is still in play. */
  function PocketPiece(t: Tally, g: Gatti, k: nat): (c: Tally)
    requires k < |t.pockets|
    ensures |c.pockets| == |t.pockets|
    ensures g !in t.pieces ==> c == t
    ensures g in t.pieces ==>
      && multiset(c.pieces) + multiset{g} == multiset(t.pieces)
      && c.pockets[k] == t.pockets[k] + [g]
      && forall m :: 0 <= m < |t.pockets| && m != k ==> c.pockets[m] == t.pockets[m]
  {
    var i := IndexOf(t.pieces, g);
    if i > -1 then t.(pieces := Splice(t.pieces, i), pockets := t.pockets[k := t.pockets[k] + [g]])
    else t
  }

  /** The effect of finding g inside hole k (the body of the `if (h.check(this))`). */
  function Captured(t: Tally, g: Gatti, k: nat): (c: Tally)
    requires k < |t.pockets|
    ensures |c.pockets| == |t.pockets| && c.turn == t.turn
  {
    match g.kind
    case Striker =>
      // the fine is deferred by toast; the turn goes to the opponent
      t.(fouls := t.fouls + 1, next := t.turn.Other())
    case Queen =>
      PocketPiece(t.(queenMode := true), g, k).(next := t.turn)
    case _ =>
      Scored(t, g, k)
  }

  /**
   * A black or white piece in hole k: ten more points if the queen was pocketed
   * earlier in the game, the piece leaves play into the pocket, one point and one
   * capture for the side to move, and that side keeps the turn.
   */
  function Scored(t: Tally, g: Gatti, k: nat): (c: Tally)
    requires k < |t.pockets|
    ensures |c.pockets| == |t.pockets| && c.turn == t.turn
  {
    var bonus := if t.queenMode then AddScore(t, 10) else t;
    AddHit(AddScore(PocketPiece(bonus, g, k), 1)).(next := t.turn)
  }

  /** checkInHoles over holes 0 .. n-1 in order; inHole[k] says whether hole k contains g. */
  function CheckedHoles(t: Tally, g: Gatti, inHole: seq<bool>, n: nat): (c: Tally)
    requires n <= |inHole| <= |t.pockets|
    ensures |c.pockets| == |t.pockets| && c.turn == t.turn
  {
    if n == 0 then t
    else
      var before := CheckedHoles(t, g, inHole, n - 1);
      if inHole[n - 1] then Captured(before, g, n - 1) else before
  }

  /** Removing one piece other than the striker keeps the striker first and the pieces distinct. */
  lemma SplicePreserves(t: Tally, i: nat)
    requires WellFormed(t) && 1 <= i < |t.pieces|
    ensures var s := Splice(t.pieces, i);
      && s[0] == t.pieces[0]
      && (forall j :: 1 <= j < |s| ==> s[j].kind != Striker)
      && Distinct(s)
      && (forall h :: h in s <==> h in t.pieces && h != t.pieces[i])
  {
    var s := Splice(t.pieces, i);
    forall j | 0 <= j < |s|
      ensures s[j] == if j < i then t.pieces[j] else t.pieces[j + 1]
    {
    }
    forall h | h in t.pieces && h != t.pieces[i]
      ensures h in s
    {
      var j :| 0 <= j < |t.pieces| && t.pieces[j] == h;
      assert s[if j < i then j else j - 1] == h;
    }
  }

  /** Capturing g in hole k keeps the board's invariant. */
  lemma {:induction false} CapturedPreserves(t: Tally, g: Gatti, k: nat)
    requires WellFormed(t) && k < |t.pockets|
    ensures WellFormed(Captured(t, g, k))
  {
    match g.kind
    case Striker =>
    case Queen =>
      PocketPreserves(t.(queenMode := true), g, k);
    case Black =>
      ScoredPreserves(t, g, k);
    case White =>
      ScoredPreserves(t, g, k);
  }

  lemma ScoredPreserves(t: Tally, g: Gatti, k: nat)
    requires WellFormed(t) && k < |t.pockets| && g.kind != Striker
    ensures WellFormed(Scored(t, g, k))
  {
    var bonus := if t.queenMode then AddScore(t, 10) else t;
    GainPreserves(t, bonus);
    PocketPreserves(bonus, g, k);
    var p := PocketPiece(bonus, g, k);
    var q := AddScore(p, 1);
    GainPreserves(p, q);
    GainPreserves(q, AddHit(q).(next := t.turn));
  }

  /** Raising scores or counters, with the pieces and pockets left alone, keeps the invariant. */
  lemma GainPreserves(a: Tally, b: Tally)
    requires WellFormed(a) && b.pieces == a.pieces && b.pockets == a.pockets
    requires b.score1 >= a.score1 && b.score2 >= a.score2 && b.hit1 >= a.hit1 && b.hit2 >= a.hit2
    ensures WellFormed(b)
  {
  }

  lemma PocketPreserves(t: Tally, g: Gatti, k: nat)
    requires WellFormed(t) && k < |t.pockets| && g.kind != Striker
    ensures WellFormed(PocketPiece(t, g, k))
  {
    var i := IndexOf(t.pieces, g);
    if i > -1 {
      assert i != 0;
      SplicePreserves(t, i);
      var pieces := Splice(t.pieces, i);
      var pockets := t.pockets[k := t.pockets[k] + [g]];
      forall m, h | 0 <= m < |pockets| && h in pockets[m]
        ensures h !in pieces
      {
        if m == k && h == g {
          // g was in play only at position i
        } else {
          assert h in t.pockets[m];
        }
      }
      assert Layout(pieces, pockets);
    }
  }

  /** Checking g against any number of holes keeps the board's invariant. */
  lemma {:induction false} CheckedHolesPreserves(t: Tally, g: Gatti, inHole: seq<bool>, n: nat)
    requires WellFormed(t) && n <= |inHole| <= |t.pockets|
    ensures WellFormed(CheckedHoles(t, g, inHole, n))
  {
    if n > 0 {
      CheckedHolesPreserves(t, g, inHole, n - 1);
      if inHole[n - 1] {
        CapturedPreserves(CheckedHoles(t, g, inHole, n - 1), g, n - 1);
      }
    }
  }

  /**
   * A black or white piece still in play, found in hole k: it moves from play into
   * pocket k, the side to move gains 11 points when the queen has been pocketed and
   * 1 point otherwise, its capture counter goes up by one, the other side is
   * untouched and the side to move keeps the turn.
   */
  lemma ScoredEffect(t: Tally, g: Gatti, k: nat)
    requires WellFormed(t) && k < |t.pockets| && g in t.pieces
    requires g.kind == Black || g.kind == White
    ensures var c := Captured(t, g, k);
      && (forall h :: h in c.pieces <==> h in t.pieces && h != g)
      && |c.pieces| == |t.pieces| - 1
      && c.pockets == t.pockets[k := t.pockets[k] + [g]]
      && var gain := if t.queenMode then 11 else 1;
      && (t.turn == Bottom ==>
            c.score1 == t.score1 + gain && c.score2 == t.score2 && c.hit1 == t.hit1 + 1 && c.hit2 == t.hit2)
      && (t.turn == Top ==>
            c.score2 == t.score2 + gain && c.score1 == t.score1 && c.hit2 == t.hit2 + 1 && c.hit1 == t.hit1)
      && c.next == t.turn && c.queenMode == t.queenMode && c.fouls == t.fouls
  {
    var i := IndexOf(t.pieces, g);
    assert i >= 1 by {
      assert t.pieces[0].kind == Striker;
    }
    SplicePreserves(t, i);
  }

  /**
   * The queen in hole k: queen mode is switched on for the rest of the game, the
   * queen moves from play into pocket k, no score changes and the side to move
   * keeps the turn.
   */
  lemma QueenEffect(t: Tally, g: Gatti, k: nat)
    requires WellFormed(t) && k < |t.pockets| && g in t.pieces && g.kind == Queen
    ensures var c := Captured(t, g, k);
      && c.queenMode
      && (forall h :: h in c.pieces <==> h in t.pieces && h != g)
      && c.pockets == t.pockets[k := t.pockets[k] + [g]]
      && c.score1 == t.score1 && c.score2 == t.score2
      && c.hit1 == t.hit1 && c.hit2 == t.hit2
      && c.next == t.turn && c.fouls == t.fouls
  {
    var i := IndexOf(t.pieces, g);
    assert i >= 1 by {
      assert t.pieces[0].kind == Striker;
    }
    SplicePreserves(t, i);
  }

  /**
   * The striker in a hole: it stays in play, nothing is pocketed or scored, one
   * more fine is scheduled and the turn passes to the opponent.
   */
  lemma StrikerEffect(t: Tally, g: Gatti, k: nat)
    requires k < |t.pockets| && g.kind == Striker
    ensures var c := Captured(t, g, k);
      && c.pieces == t.pieces && c.pockets == t.pockets
      && c.score1 == t.score1 && c.score2 == t.score2
      && c.fouls == t.fouls + 1 && c.next == t.turn.Other() && c.next != t.turn
  {
  }

  /** Once the queen is pocketed, checking pieces against holes never switches queen mode off. */
  lemma {:induction false} QueenModeSticky(t: Tally, g: Gatti, inHole: seq<bool>, n: nat)
    requires n <= |inHole| <= |t.pockets| && t.queenMode
    ensures CheckedHoles(t, g, inHole, n).queenMode
  {
    if n > 0 {
      QueenModeSticky(t, g, inHole, n - 1);
    }
  }

  /** No score and no capture counter is lower in b than in a. */
  predicate NoLoss(a: Tally, b: Tally)
  {
    b.score1 >= a.score1 && b.score2 >= a.score2 && b.hit1 >= a.hit1 && b.hit2 >= a.hit2
  }

  /** Pocketing never lowers a score or a capture counter. */
  lemma {:induction false} ScoresNeverDecrease(t: Tally, g: Gatti, inHole: seq<bool>, n: nat)
    requires n <= |inHole| <= |t.pockets|
    ensures NoLoss(t, CheckedHoles(t, g, inHole, n))
  {
    if n > 0 {
      ScoresNeverDecrease(t, g, inHole, n - 1);
      CheckedStepGains(t, g, inHole, n);
    }
  }

  /** The last hole checked loses nothing of what the earlier holes left. */
  lemma CheckedStepGains(t: Tally, g: Gatti, inHole: seq<bool>, n: nat)
    requires 0 < n <= |inHole| <= |t.pockets|
    ensures NoLoss(CheckedHoles(t, g, inHole, n - 1), CheckedHoles(t, g, inHole, n))
  {
    var before := CheckedHoles(t, g, inHole, n - 1);
    if inHole[n - 1] {
      CapturedGains(before, g, n - 1);
      assert CheckedHoles(t, g, inHole, n) == Captured(before, g, n - 1);
    } else {
      assert CheckedHoles(t, g, inHole, n) == before;
    }
  }

  lemma CapturedGains(t: Tally, g: Gatti, k: nat)
    requires k < |t.pockets|
    ensures NoLoss(t, Captured(t, g, k))
  {
    if g.kind == Queen {
      PocketPieceKeeps(t.(queenMode := true), g, k);
    } else if g.kind != Striker {
      ScoredGains(t, g, k);
    }
  }

  lemma ScoredGains(t: Tally, g: Gatti, k: nat)
    requires k < |t.pockets|
    ensures NoLoss(t, Scored(t, g, k))
  {
    var bonus := if t.queenMode then AddScore(t, 10) else t;
    PocketPieceKeeps(bonus, g, k);
  }

  /** Pocketing moves a piece and touches nothing else of the tally. */
  lemma PocketPieceKeeps(t: Tally, g: Gatti, k: nat)
    requires k < |t.pockets|
    ensures var p := PocketPiece(t, g, k);
      && p.turn == t.turn && p.next == t.next && p.queenMode == t.queenMode && p.fouls == t.fouls
      && p.score1 == t.score1 && p.score2 == t.score2 && p.hit1 == t.hit1 && p.hit2 == t.hit2
      && (g !in t.pieces ==> p.pieces == t.pieces)
      && (g in t.pieces ==> p.pieces == Splice(t.pieces, IndexOf(t.pieces, g)))
  {
  }

  /** A piece inside no hole changes nothing. */
  lemma {:induction false} NoHoleNoChange(t: Tally, g: Gatti, inHole: seq<bool>, n: nat)
    requires n <= |inHole| <= |t.pockets|
    requires forall k :: 0 <= k < n ==> !inHole[k]
    ensures CheckedHoles(t, g, inHole, n) == t
  {
    if n > 0 {
      NoHoleNoChange(t, g, inHole, n - 1);
    }
  }

  /** A piece inside exactly one hole j is captured by that hole alone. */
  lemma {:induction false} SingleHole(t: Tally, g: Gatti, inHole: seq<bool>, j: nat, n: nat)
    requires j < n <= |inHole| <= |t.pockets|
    requires inHole[j] && forall k :: 0 <= k < n && k != j ==> !inHole[k]
    ensures CheckedHoles(t, g, inHole, n) == Captured(t, g, j)
  {
    if n == j + 1 {
      NoHoleNoChange(t, g, inHole, j);
    } else {
      SingleHole(t, g, inHole, j, n - 1);
    }
  }

  /**
   * Checking g against the holes takes at most g itself out of play: the pieces are
   * either unchanged or lose exactly the position where g stood, which is never the
   * striker's position 0.
   */
  lemma {:induction false} CheckedHolesPieces(t: Tally, g: Gatti, inHole: seq<bool>, n: nat)
    requires WellFormed(t) && n <= |inHole| <= |t.pockets|
    ensures var c := CheckedHoles(t, g, inHole, n);
      || c.pieces == t.pieces
      || (g in t.pieces && IndexOf(t.pieces, g) >= 1 && c.pieces == Splice(t.pieces, IndexOf(t.pieces, g)))
  {
    if n > 0 {
      CheckedHolesPieces(t, g, inHole, n - 1);
      var before := CheckedHoles(t, g, inHole, n - 1);
      if inHole[n - 1] {
        var c := Captured(before, g, n - 1);
        assert CheckedHoles(t, g, inHole, n) == c;
        CapturedPieces(before, g, n - 1);
        if g in t.pieces && g.kind != Striker {
          var i := IndexOf(t.pieces, g);
          assert i >= 1 by {
            assert t.pieces[0].kind == Striker;
          }
          if before.pieces != t.pieces {
            SplicePreserves(t, i);
            assert g !in before.pieces;
          }
        }
      }
    }
  }

  /**
   * What checking one piece against the holes can do, summed up: at most one piece
   * leaves play and none enters, no score or counter goes down, queen mode stays on
   * once on, and the turn is unchanged.
   */
  lemma CheckedHolesBounds(t: Tally, g: Gatti, inHole: seq<bool>)
    requires WellFormed(t) && |inHole| == |t.pockets|
    ensures var c := CheckedHoles(t, g, inHole, |inHole|);
      && |c.pieces| >= |t.pieces| - 1
      && (forall h :: h in c.pieces ==> h in t.pieces)
      && NoLoss(t, c)
      && (t.queenMode ==> c.queenMode)
      && c.turn == t.turn
  {
    var n := |inHole|;
    CheckedHolesPieces(t, g, inHole, n);
    ScoresNeverDecrease(t, g, inHole, n);
    if t.queenMode {
      QueenModeSticky(t, g, inHole, n);
    }
    var c := CheckedHoles(t, g, inHole, n);
    if c.pieces != t.pieces {
      SplicePreserves(t, IndexOf(t.pieces, g));
    }
  }

  /** What one capture does to the pieces in play. */
  lemma CapturedPieces(t: Tally, g: Gatti, k: nat)
    requires k < |t.pockets|
    ensures var c := Captured(t, g, k);
      || (c.pieces == t.pieces && (g.kind == Striker || g !in t.pieces))
      || (g.kind != Striker && g in t.pieces && c.pieces == Splice(t.pieces, IndexOf(t.pieces, g)))
  {
    if g.kind == Queen {
      PocketPieceKeeps(t.(queenMode := true), g, k);
    } else if g.kind != Striker {
      var bonus := if t.queenMode then AddScore(t, 10) else t;
      PocketPieceKeeps(bonus, g, k);
      assert Scored(t, g, k).pieces == PocketPiece(bonus, g, k).pieces;
    }
  }

  /** The pieces other than the striker still in play (the filter in checkGameOver). */
  function RemainingPieces(s: seq<Gatti>): (n: nat)
    ensures n <= |s|
    ensures n == 0 <==> forall i :: 0 <= i < |s| ==> s[i].kind == Striker
  {
    if |s| == 0 then 0
    else
      var rest := RemainingPieces(s[1..]);
      assert forall i :: 1 <= i < |s| ==> s[i] == s[1..][i - 1];
      (if s[0].kind == Striker then 0 else 1) + rest
  }

  /** On a well-formed board every piece but the first is counted as remaining. */
  lemma {:induction false} RemainingAllButStriker(t: Tally)
    requires WellFormed(t)
    ensures RemainingPieces(t.pieces) == |t.pieces| - 1
  {
    NoStrikerCount(t.pieces[1..]);
  }

  lemma {:induction false} NoStrikerCount(s: seq<Gatti>)
    requires forall i :: 0 <= i < |s| ==> s[i].kind != Striker
    ensures RemainingPieces(s) == |s|
  {
    if |s| > 0 {
      NoStrikerCount(s[1..]);
    }
  }

  /**
   * One deferred striker fine fires: the player whose turn it is when the timer
   * runs is fined as applyFine('striker') says, and one fewer fine is pending.
   */
  function FoulFired(t: Tally): (c: Tally)
    requires t.fouls > 0
    ensures c.fouls == t.fouls - 1
  {
    var fined := if t.turn == Bottom then t.(score1 := Fined(t.score1, "striker"))
      else t.(score2 := Fined(t.score2, "striker"));
    fined.(fouls := t.fouls - 1)
  }

  /** A fine keeps the invariant, lowers only the side to move by 2 or not at all, and moves no piece. */
  lemma FoulFiredEffect(t: Tally)
    requires WellFormed(t) && t.fouls > 0
    ensures var c := FoulFired(t);
      && WellFormed(c)
      && c.pieces == t.pieces && c.pockets == t.pockets
      && (t.turn == Bottom ==> c.score2 == t.score2 && (c.score1 == t.score1 - 2 || c.score1 == t.score1))
      && (t.turn == Top ==> c.score1 == t.score1 && (c.score2 == t.score2 - 2 || c.score2 == t.score2))
      && (c.score1 < t.score1 ==> t.score1 >= 2)
      && (c.score2 < t.score2 ==> t.score2 >= 2)
  {
  }
}
