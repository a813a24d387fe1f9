/**
 * The turn state machine of src/components/CarromBoard.tsx as steps over a Board:
 * the input handlers, one frame of the update loop, and the callbacks its timers
 * run (each callback is a step of its own; the delays are not modelled). A turn
 * goes 'first' (place the striker) -> 'second' (aim) -> 'third' (pieces moving)
 * -> 'first' again once every piece has come to rest.
 */
module CarromLoop {
  import opened Wrappers
  import opened GattiTypes
  import opened BoardTypes
  import opened Geometry
  import opened Pieces
  import opened Rules
  import opened Boards
  import opened Opponent

  /** The parts of the loop left uninterpreted. */
  datatype Oracles = Oracles(
    /** Target.determinePower(p1, p2): the shot vector, built from atan2, cos and sin. */
    power: (Point, Point) -> Point,
    /** Math.floor(v.toFixed(1)) === 0: one velocity axis is close enough to zero. */
    nearZero: real -> bool,
    ai: AiOracles)

  /** The part of the board the release handler decides: the game state and target.flag. */
  datatype Phase = Phase(state: GameState, flag: bool)

  /**
   * handleMouseUp / handleTouchEnd on player 1's turn: an armed release in 'second'
   * shoots and moves to 'third'; the flag is then cleared; a release in 'first'
   * moves to 'second' and arms the flag exactly when the placement is clear.
   */
  function Release(p: Phase, clear: bool): (q: Phase)
    ensures q.flag <==> p.state == First && clear
    ensures p.state == Second && p.flag ==> q == Phase(Third, false)
    ensures p.state == Second && !p.flag ==> q == Phase(Second, false)
    ensures p.state == First ==> q.state == (if clear then Second else First)
    ensures p.state == Third ==> q == Phase(Third, false)
  {
    var state := if p.flag && p.state == Second then Third else p.state;
    if state == First && clear then Phase(Second, true) else Phase(state, false)
  }

  /** The striker overlaps none of gattis[1..]. */
  predicate PlacementClearOf(striker: Gatti, gs: seq<Gatti>)
    reads striker, gs
  {
    forall i :: 1 <= i < |gs| ==> !CirCollision(striker.Disc(), gs[i].Disc())
  }

  /** The placement scan of the release handler: from index 1, stop at the first overlap. */
  method PlacementClear(board: Board) returns (clear: bool)
    ensures clear == PlacementClearOf(board.striker, board.gattis)
  {
    var gs := board.gattis;
    clear := true;
    var i := 1;
    while i < |gs|
      invariant 1 <= i
      invariant forall j :: 1 <= j < i && j < |gs| ==> !CirCollision(board.striker.Disc(), gs[j].Disc())
    {
      if CirCollision(board.striker.Disc(), gs[i].Disc()) {
        clear := false;
        break;
      }
      i := i + 1;
    }
  }

  /** The input handlers act only on player 1's turn (and once the game has started). */
  predicate Accepts(board: Board, started: bool)
    reads board`turn
  {
    started && board.IsPlayer1Turn()
  }

  /** handleMouseMove / handleTouchMove: the cursor's final point follows the pointer. */
  method HandleMove(board: Board, started: bool, client: Point, origin: Point)
    modifies board`cursorFinal
    ensures Accepts(board, started) ==>
      board.cursorFinal == CanvasPoint(client, origin, board.turn, board.width, board.height)
    ensures !Accepts(board, started) ==> board.cursorFinal == old(board.cursorFinal)
  {
    if !started || !board.IsPlayer1Turn() {
      return;
    }
    board.cursorFinal := CanvasPoint(client, origin, board.turn, board.width, board.height);
  }

  /** handleMouseDown / handleTouchStart: the cursor's initial point is where the press happened. */
  method HandlePress(board: Board, started: bool, client: Point, origin: Point)
    modifies board`cursorInitial
    ensures Accepts(board, started) ==>
      board.cursorInitial == CanvasPoint(client, origin, board.turn, board.width, board.height)
    ensures !Accepts(board, started) ==> board.cursorInitial == old(board.cursorInitial)
  {
    if !started || !board.IsPlayer1Turn() {
      return;
    }
    board.cursorInitial := CanvasPoint(client, origin, board.turn, board.width, board.height);
  }

  /**
   * handleMouseUp, and handleTouchEnd, which does the same: the state and flag move
   * as Release says, judged on the placement before the release, and an armed
   * release in 'second' strikes with determinePower(cursor.final, striker.pos).
   */
  method HandleRelease(board: Board, started: bool, o: Oracles)
    modifies board`state, board`targetFlag, board.striker`velocity
    ensures var before := old(Phase(board.state, board.targetFlag));
      var shoots := before.flag && before.state == Second;
      if old(Accepts(board, started)) then
        && Phase(board.state, board.targetFlag) == Release(before, old(PlacementClearOf(board.striker, board.gattis)))
        && board.striker.velocity ==
             (if shoots then o.power(old(board.cursorFinal), old(board.striker.pos)) else old(board.striker.velocity))
      else
        Phase(board.state, board.targetFlag) == before && board.striker.velocity == old(board.striker.velocity)
  {
    if !started || !board.IsPlayer1Turn() {
      return;
    }
    if board.targetFlag && board.state == Second {
      var power := o.power(board.cursorFinal, board.striker.pos);
      board.striker.Strike(power.x, power.y);
      board.state := Third;
    }
    board.targetFlag := false;
    if board.state == First {
      var clear := PlacementClear(board);
      if clear {
        board.state := Second;
        board.targetFlag := true;
      }
    }
  }

  /**
   * The piece loop of update, from the last piece down: outside 'first' each piece
   * is bounced off the walls and checked against the holes (which may take it out
   * of play at its own index, so the lower indices still to come are untouched),
   * and every piece then makes its motion step. Collision resolution is not part
   * of this model. In 'first' nothing but the motion step happens, so the rules'
   * state is unchanged; no score falls, queen mode stays on, no piece enters play,
   * and outside 'third' every piece that was in play is left in motion.
   */
  method PhysicsPass(board: Board, nearZero: real -> bool)
    requires board.Valid()
    modifies board`gattis, board`queenMode, board`next, board`pendingFouls
    modifies board`player1PiecesHit, board`player2PiecesHit, board.holes, board.player1, board.player2
    modifies board.gattis
    ensures board.Valid()
    ensures board.state == First ==> board.Snapshot() == old(board.Snapshot())
    ensures NoLoss(old(board.Snapshot()), board.Snapshot())
    ensures old(board.queenMode) ==> board.queenMode
    ensures forall h :: h in board.gattis ==> h in old(board.gattis)
    ensures board.state != Third ==> forall j :: 0 <= j < |old(board.gattis)| ==> old(board.gattis)[j].state == InMotion
  {
    ghost var start := board.Snapshot();
    ghost var all := board.gattis;
    var i := |board.gattis|;
    while i > 0
      invariant 0 <= i && PassInvariant(board, all, start, i)
      decreases i
    {
      i := i - 1;
      StepPiece(board, i, nearZero, all, start);
    }
  }

  /**
   * What the piece loop keeps, with i the next index still to visit: the rules'
   * part (Kept) and the motion part (Moving).
   */
  ghost predicate PassInvariant(board: Board, all: seq<Gatti>, start: Tally, i: nat)
    reads board, board.holes, board.player1, board.player2, all
  {
    Kept(board, all, start, i) && Moving(board, all, i)
  }

  /**
   * The pieces below i are as they were, no piece entered play, and the rules'
   * state only gained (and is untouched in 'first').
   */
  ghost predicate Kept(board: Board, all: seq<Gatti>, start: Tally, i: nat)
    reads board, board.holes, board.player1, board.player2
  {
    && i <= |board.gattis| <= |all| && Distinct(all)
    && board.gattis[..i] == all[..i]
    && (forall h :: h in board.gattis ==> h in all)
    && board.Valid()
    && NoLoss(start, board.Snapshot())
    && (board.state == First ==> board.Snapshot() == start)
    && (start.queenMode ==> board.queenMode)
  }

  /** Outside 'third' the pieces already visited are moving. */
  ghost predicate Moving(board: Board, all: seq<Gatti>, i: nat)
    reads board, all
  {
    board.state != Third ==> forall j :: i <= j < |all| ==> all[j].state == InMotion
  }

  /** One turn of the piece loop, on the piece at index i. */
  method StepPiece(board: Board, i: nat, nearZero: real -> bool, ghost all: seq<Gatti>, ghost start: Tally)
    requires PassInvariant(board, all, start, i + 1)
    modifies board`gattis, board`queenMode, board`next, board`pendingFouls
    modifies board`player1PiecesHit, board`player2PiecesHit, board.holes, board.player1, board.player2
    modifies all[i]
    ensures PassInvariant(board, all, start, i)
  {
    var g := board.gattis[i];
    assert g == all[i];
    if board.state != First {
      g.CheckBoundary(board.width, board.height);
      VisitStep(board, g, i, all, start);
    } else {
      assert board.gattis[..i] == all[..i + 1][..i];
    }
    g.Move(board.state, nearZero);
  }

  /** The hole check of one turn of the loop keeps the rules' part of the invariant. */
  method VisitStep(board: Board, g: Gatti, i: nat, ghost all: seq<Gatti>, ghost start: Tally)
    requires Kept(board, all, start, i + 1) && board.state != First && g == all[i]
    modifies board`gattis, board`queenMode, board`next, board`pendingFouls
    modifies board`player1PiecesHit, board`player2PiecesHit, board.holes, board.player1, board.player2
    ensures Kept(board, all, start, i)
  {
    ghost var before := board.gattis;
    assert before[i] == all[i];
    VisitHoles(board, g, i);
    if board.gattis != before {
      assert forall h :: h in board.gattis ==> h in before[..i] || h in before[i + 1..];
    }
  }

  /** checkInHoles for the piece at index i of the pass: only that index can leave play. */
  method VisitHoles(board: Board, g: Gatti, i: nat)
    requires board.Valid() && i < |board.gattis| && board.gattis[i] == g
    modifies board`gattis, board`queenMode, board`next, board`pendingFouls
    modifies board`player1PiecesHit, board`player2PiecesHit, board.holes, board.player1, board.player2
    ensures board.Valid()
    ensures board.gattis == old(board.gattis) || board.gattis == Splice(old(board.gattis), i)
    ensures NoLoss(old(board.Snapshot()), board.Snapshot())
    ensures old(board.queenMode) ==> board.queenMode
  {
    ghost var before := board.Snapshot();
    ghost var hits := HitsAt(g.pos, board.width, board.height);
    board.CheckInHoles(g);
    CheckedHolesBounds(before, g, hits);
    CheckedHolesPieces(before, g, hits, 4);
    IndexOfDistinct(before.pieces, i);
  }

  /**
   * The 'first' branch of update: on player 1's turn the striker follows the
   * cursor along the bottom baseline, strictly inside [60, width - 60]; on the
   * computer's turn it goes where makeMove puts it and the cursor's final point
   * becomes the computer's aim.
   */
  method PlaceStriker(board: Board, o: Oracles)
    requires board.Valid() && board.state == First
    modifies board.striker`pos, board`cursorFinal
    ensures board.Valid()
    ensures var x := old(board.cursorFinal).x;
      board.IsPlayer1Turn() ==>
        && board.cursorFinal == old(board.cursorFinal)
        && board.striker.pos ==
             (if Baseline < x < board.width - Baseline then Point(x, board.height - Baseline) else old(board.striker.pos))
    ensures !board.IsPlayer1Turn() ==>
      && board.striker.pos == Point(Clamp(Baseline, board.width - Baseline, board.width / 2.0), Baseline)
      && board.cursorFinal ==
           old(IntoCanvas(AimFor(ViewsOf(board.gattis), Point(board.width / 2.0, Baseline), board.width, board.height, o.ai),
                          board.width, board.height))
  {
    if board.IsPlayer1Turn() {
      var x := board.cursorFinal.x;
      if Baseline < x < board.width - Baseline {
        board.striker.pos := Point(x, board.height - Baseline);
      }
    } else {
      var m := MakeMove(board, o.ai);
      board.striker.pos := Point(m.strikerX, m.strikerY);
      board.cursorFinal := m.aim;
    }
  }

  /** No piece in play is moving. */
  predicate AtRest(gs: seq<Gatti>)
    reads gs
  {
    forall i :: 0 <= i < |gs| ==> gs[i].state != InMotion
  }

  /** The rest scan of the 'third' branch: stop at the first piece in motion. */
  method AllAtRest(gs: seq<Gatti>) returns (rest: bool)
    ensures rest <==> AtRest(gs)
  {
    rest := true;
    var i := 0;
    while i < |gs|
      invariant 0 <= i <= |gs|
      invariant forall j :: 0 <= j < i ==> gs[j].state != InMotion
    {
      if gs[i].state == InMotion {
        rest := false;
        break;
      }
      i := i + 1;
    }
  }

  /** What one frame of update reports to the rest of the program. */
  datatype Outcome =
    | Playing
      /** Every piece came to rest: the turn-change timer is started. */
    | TurnOver
      /** onGameOver(player1.score, player2.score, player1PiecesHit, player2PiecesHit). */
    | GameOver(score1: int, score2: int, hit1: int, hit2: int)

  /**
   * The 'third' branch of update: once every piece is at rest, the game is over
   * when only the striker is left in play; otherwise the board goes back to
   * 'first' and the turn-change timer starts.
   */
  method SettleTurn(board: Board) returns (out: Outcome)
    requires board.Valid() && board.state == Third
    modifies board`state, board`isGameOver
    ensures board.Valid()
    ensures out == Playing <==> !AtRest(board.gattis)
    ensures out.GameOver? <==> AtRest(board.gattis) && board.gattis == [board.striker]
    ensures out.GameOver? ==>
      out == GameOver(board.player1.score, board.player2.score, board.player1PiecesHit, board.player2PiecesHit)
    ensures board.isGameOver == (old(board.isGameOver) || out.GameOver?)
    ensures board.state == (if out == TurnOver then First else Third)
  {
    var rest := AllAtRest(board.gattis);
    if !rest {
      return Playing;
    }
    var over := board.CheckGameOver();
    if over {
      return GameOver(board.player1.score, board.player2.score, board.player1PiecesHit, board.player2PiecesHit);
    }
    board.state := First;
    out := TurnOver;
  }

  /**
   * One frame of update: the piece loop, then the 'first' or the 'third' branch.
   * The rules' state only gains, and is left as it was in 'first'.
   */
  method Update(board: Board, o: Oracles) returns (out: Outcome)
    requires board.Valid()
    modifies board`gattis, board`queenMode, board`next, board`pendingFouls
    modifies board`player1PiecesHit, board`player2PiecesHit, board.holes, board.player1, board.player2
    modifies board.gattis, board`state, board`isGameOver, board`cursorFinal
    ensures board.Valid()
    ensures NoLoss(old(board.Snapshot()), board.Snapshot())
    ensures old(board.queenMode) ==> board.queenMode
    ensures old(board.state) == First ==> board.Snapshot() == old(board.Snapshot()) && out == Playing
    ensures old(board.state) == Second ==> board.state == Second && out == Playing
    ensures old(board.state) == Third ==>
      && (out == Playing <==> !AtRest(board.gattis))
      && (out.GameOver? <==> AtRest(board.gattis) && board.gattis == [board.striker])
      && board.state == (if out == TurnOver then First else Third)
    ensures out.GameOver? ==>
      out == GameOver(board.player1.score, board.player2.score, board.player1PiecesHit, board.player2PiecesHit)
    ensures board.isGameOver == (old(board.isGameOver) || out.GameOver?)
    ensures old(board.state) == First && board.IsPlayer1Turn() ==> board.cursorFinal == old(board.cursorFinal)
  {
    PhysicsPass(board, o.nearZero);
    out := Playing;
    if board.state == First {
      PlaceStriker(board, o);
    } else if board.state == Third {
      out := SettleTurn(board);
    }
  }

  /**
   * The turn-change timer: the turn passes and the striker goes to the new
   * player's baseline; the computer moves next exactly when the turn is now the top
   * player's.
   */
  method TurnTimer(board: Board) returns (aiToMove: bool)
    requires board.Valid()
    modifies board`turn, board`next, board.striker`pos
    ensures board.Valid()
    ensures board.turn == old(board.turn).Other() && board.next == old(board.turn)
    ensures board.striker.pos == BaselinePos(board.turn, board.width, board.height)
    ensures aiToMove <==> board.turn == Top
    ensures aiToMove <==> old(board.turn) == Bottom
  {
    board.NextTurn();
    aiToMove := board.IsPlayer2Turn();
  }

  /** The computer's first timer: the striker goes where makeMove says. */
  method AiPlace(board: Board, o: Oracles) returns (m: AiMove)
    requires board.Valid()
    modifies board.striker`pos
    ensures board.Valid()
    ensures board.striker.pos == Point(m.strikerX, m.strikerY)
    ensures m.strikerY == Baseline && m.strikerX == Clamp(Baseline, board.width - Baseline, board.width / 2.0)
    ensures m.aim ==
      old(IntoCanvas(AimFor(ViewsOf(board.gattis), Point(board.width / 2.0, Baseline), board.width, board.height, o.ai),
                     board.width, board.height))
  {
    m := MakeMove(board, o.ai);
    board.striker.pos := Point(m.strikerX, m.strikerY);
  }

  /** The computer's second timer: the board shows the aim and waits to shoot. */
  method AiAim(board: Board, m: AiMove)
    modifies board`state, board`targetFlag, board`cursorFinal, board`cursorInitial
    ensures board.state == Second && board.targetFlag
    ensures board.cursorFinal == m.aim && board.cursorInitial == Point(m.strikerX, m.strikerY)
  {
    board.state := Second;
    board.targetFlag := true;
    board.cursorFinal := m.aim;
    board.cursorInitial := Point(m.strikerX, m.strikerY);
  }

  /**
   * The computer's last timer: the striker is struck with a tenth of
   * determinePower(strikerPoint, aimPoint), and the pieces start moving.
   */
  method AiShoot(board: Board, m: AiMove, o: Oracles)
    modifies board`state, board`targetFlag, board.striker`velocity
    ensures board.state == Third && !board.targetFlag
    ensures var power := o.power(Point(m.strikerX, m.strikerY), m.aim);
      board.striker.velocity == Scale(power, 0.1)
  {
    var power := o.power(Point(m.strikerX, m.strikerY), m.aim);
    board.striker.Strike(power.x * 0.1, power.y * 0.1);
    board.state := Third;
    board.targetFlag := false;
  }
}
