# Carrom: the game-rule layer

A Dafny model of the rule layer of a browser carrom game
(Cognito-Innovations/carrom-game-web). It covers:

- the piece kinds;
- players and their scores;
- the four corner pockets;
- the pieces, with their strike, motion step, wall reflection and capture rules;
- the board aggregate, with its reset, the 17-piece opening layout, turn changes and game-over detection;
- the computer opponent's target choice and striker placement;
- the turn state machine of the React component: placing ('first'), aiming ('second'), pieces moving ('third').

The code mutates one shared board, and the model keeps that form. Board, Gatti,
Hole and Player are classes whose methods update their fields. The rules
themselves are pure functions over a snapshot of the board (`Rules.Tally`), and
every rule-applying board method is proved to perform exactly its function:
`Snapshot() == Captured(old(Snapshot()), g, k)`. The properties of the game are
then proved as lemmas about those functions.

The model stands in for these parts of the code:

- **Distances.** `getDistance` takes a square root, which Dafny lacks, so each
  comparison of distances is made on squared distances. The contracts state
  their meaning for the true distance through `IsDistance(a, b, d)`, that is
  `d >= 0 && d * d == DistSq(a, b)`.
- **Trigonometry and the rest test.** Parts built on `atan2`, `cos`, `sin`, the
  AI's score formula and the float test `Math.floor(v.toFixed(1)) === 0` are
  parameters: the `Oracles` and `AiOracles` datatypes. The AI score is an
  arbitrary positive real.

Modules, one per source file:

| module | file |
|---|---|
| `GattiTypes` | src/types/Gatti.ts |
| `BoardTypes` | the two enumerations of src/game/Board.ts |
| `Geometry` | src/utils/Util.ts |
| `Players` | src/game/Player.ts |
| `Holes` | src/game/Hole.ts |
| `Pieces` | src/game/Gatti.ts |
| `Rules` and `Boards` | src/game/Board.ts, plus `checkInHoles` of src/game/Gatti.ts |
| `Opponent` | src/game/AI.ts |
| `CarromLoop` | src/components/CarromBoard.tsx |

`Wrappers` holds an `Option` type.

`checkInHoles` is a method of Gatti, but it writes the board, and two Dafny
modules cannot import each other. So it is `Boards.Board.CheckInHoles(g)`.

Where the code departs from the intended design, the model follows the code:

- **Queen mode is never cleared.** `checkInHoles` sets it (Gatti.ts:144) and only
  `init` resets it (Board.ts:60). Once the queen is pocketed, every later black
  or white capture scores 11 for the rest of the game (`Rules.ScoredEffect`).
  The intended design has the bonus used up by the next capture.
- **The striker fine is skipped, not clamped.** `applyFine('striker')` subtracts 2
  only when the score is at least 2 (Player.ts:26), so a score of 1 stays 1
  (`Players.StrikerFineNotClamped`). The intended design clamps the penalty at zero.
- **`nextTurn` ignores `next`.** It always passes the turn to the other side
  (Board.ts:246-253). The `next` that capture sets is written but never read.
- **`strike` does not change the piece's state** (Gatti.ts:53-56).
- **The opening layout is spaced by the striker's diameter.** The spacing is
  `gattis[0].radius * 2`, which is 26 (Board.ts:219).
- **Player 1's `id` is 'top', while player 1 plays from the bottom.** The
  constructor gives order 0 the id 'top' (Player.ts:9).
- **Within one frame, each piece is checked against the walls and the holes
  before it makes its motion step.** The piece loop runs the checks first and
  `draw` moves the piece afterwards (CarromBoard.tsx:42-57). So a piece is judged
  pocketed at its position before the step.
- **The two strikes pass `determinePower` its arguments in different roles.**
  The human release passes `(cursor.final, striker.pos)` (CarromBoard.tsx:190).
  The computer's timer passes `(strikerPoint, aimPoint)` and scales the result by
  0.1 (CarromBoard.tsx:131-135). Both calls are modelled as written, with
  `determinePower` uninterpreted.

## Model

| member | source | states |
|---|---|---|
| GattiTypes.TypeColor | src/types/Gatti.ts:3-8 | every kind has a non-empty fill colour |
| GattiTypes.TypeSize | src/types/Gatti.ts:10-15 | every radius is positive |
| GattiTypes.ExactlyFourKinds | src/types/Gatti.ts:1 | a kind is one of black, white, queen, striker |
| GattiTypes.StrikerIsLargest | src/types/Gatti.ts:10-15 | black, white and queen have radius 10, strictly smaller than the striker's |
| GattiTypes.ColorsDistinct | src/types/Gatti.ts:3-8 | no two kinds share a colour |
| BoardTypes.Turn.Other | src/game/Board.ts:246-253 | the side nextTurn switches to is never the side that just played |
| BoardTypes.OtherTwice | src/game/Board.ts:246-253 | switching sides twice gives back the original side |
| Geometry.DistSq | src/utils/Util.ts:33-35 | the squared distance is non-negative and zero from a point to itself |
| Geometry.SquareOrder | src/utils/Util.ts:33-41 | for non-negative values, `d < r` holds exactly when `d*d < r*r`: comparing distances on their squares is sound |
| Geometry.DistanceProperties | src/utils/Util.ts:33-35 | getDistance is non-negative, symmetric, zero on equal points and determined by its arguments |
| Geometry.WithinMeaning | src/utils/Util.ts:37-41 | the squared test `r > 0 && DistSq < r*r` agrees with `distance < r` |
| Geometry.Within | src/utils/Util.ts:37-41 | holds exactly when the true distance is strictly below r |
| Geometry.CirCollision | src/utils/Util.ts:37-41 | two discs collide exactly when their centres are strictly closer than the sum of the radii |
| Geometry.TouchingIsNoCollision | src/utils/Util.ts:37-41 | discs exactly r1 + r2 apart do not collide |
| Geometry.CirCollisionSymmetric | src/utils/Util.ts:37-41 | the overlap test is symmetric |
| Geometry.SelfCollision | src/utils/Util.ts:37-41 | a disc of positive radius collides with itself |
| Geometry.Rotate | src/utils/Util.ts:43-48 | for 90 degrees the result is perpendicular to p, of the same length, and a clockwise quarter turn (cross product p × q equals minus the squared length), which fixes it as (p.y, −p.x); any other angle returns p |
| Geometry.FourQuarterTurns | src/utils/Util.ts:43-48 | four 90-degree rotations give back p |
| Geometry.HalfTurn | src/utils/Util.ts:43-48 | two 90-degree rotations reflect p through the origin |
| Geometry.Mirror | src/utils/Util.ts:21-24 | the top player's point is reflected through the canvas centre; the bottom player's is unchanged |
| Geometry.MirrorTwice | src/utils/Util.ts:21-24 | mirroring twice is the identity |
| Geometry.CanvasPoint | src/utils/Util.ts:18-26 | the client point made relative to the canvas, then mirrored for the top player |
| Players.Incremented | src/game/Player.ts:12-18 | 'queen' adds exactly 10; any other argument, or none, adds exactly 1 |
| Players.Decremented | src/game/Player.ts:20-22 | subtracts 1 only from a score of at least 1, and a non-negative score stays non-negative |
| Players.Fined | src/game/Player.ts:24-30 | subtracts the fine (2 or 5) only when the score covers it, otherwise nothing; a non-negative score stays in [0, score] |
| Players.StrikerFineNotClamped | src/game/Player.ts:24-29 | a striker fine leaves a score of 1 at 1 and takes 2 to 0; an invalid-gatti fine leaves 4 at 4 |
| Players.UnknownFineIsNoOp | src/game/Player.ts:24-30 | a fine of any other type changes nothing |
| Players.Player.constructor | src/game/Player.ts:6-10 | score 0, the given name, id 'top' exactly when order is 0 |
| Players.Player.IncScore | src/game/Player.ts:12-18 | the new score is Incremented(old score, q) |
| Players.Player.DecScore | src/game/Player.ts:20-22 | the new score is Decremented(old score) |
| Players.Player.ApplyFine | src/game/Player.ts:24-30 | the new score is Fined(old score, fine) |
| Holes.HoleCentersDistinct | src/game/Hole.ts:17-30 | on a canvas wider and taller than 50 the four pocket centres are pairwise distinct |
| Holes.AtMostOneHole | src/game/Hole.ts:47-51 | on a canvas of at least 80 by 80 no point lies inside two pockets |
| Holes.Hole.constructor | src/game/Hole.ts:12-31 | radius 15, num = index, empty pocket, centre at corner `index` inset by 25 |
| Holes.Hole.Check | src/game/Hole.ts:47-51 | holds exactly when the distance from the pocket centre to the piece is below the radius |
| Holes.Hole.AddToPocket | src/game/Hole.ts:53-55 | appends the piece; the length grows by one and earlier entries are unchanged |
| Pieces.NoEdgeIffInside | src/game/Gatti.ts:64-78 | no edge is handled exactly when the disc lies inside the canvas on both axes |
| Pieces.TopWinsInCorner | src/game/Gatti.ts:64-78 | past both the top and the left edge, only the top edge is handled |
| Pieces.CrossedEdge | src/game/Gatti.ts:64-76 | the edge chosen is one the disc reaches past, and no edge earlier in the priority order top, bottom, right, left is reached past; None only when the disc crosses no edge |
| Pieces.NudgeUp | src/game/Gatti.ts:67 | whole unit steps up until `v - radius` lies in [0, 1); no change when already clear |
| Pieces.NudgeDown | src/game/Gatti.ts:70 | whole unit steps down until `v + radius` lies in (limit - 1, limit]; no change when already clear |
| Pieces.Gatti.constructor | src/game/Gatti.ts:18-28 | colour and radius from the tables, boundary = radius + 3, velocity (0, 0), friction 0.92, rest, status 'ok' |
| Pieces.Gatti.Strike | src/game/Gatti.ts:53-56 | the velocity becomes exactly (fx, fy); position and state are not in its frame |
| Pieces.Gatti.Move | src/game/Gatti.ts:30-43 | advance by the old velocity, multiply the velocity by friction; rest exactly when the board is in 'third' and one axis is near zero, otherwise motion |
| Pieces.Gatti.CheckPoint | src/game/Gatti.ts:58-62 | holds exactly when p is strictly closer than the radius |
| Pieces.Gatti.CheckBoundary | src/game/Gatti.ts:64-78 | at most one edge, in priority top, bottom, right, left; only that axis of the velocity is negated, only that coordinate moves, by whole units, until it is clear |
| Rules.IndexOf | src/game/Gatti.ts:145-146 | the first position of g, or -1 exactly when g is absent |
| Rules.Splice | src/game/Gatti.ts:147 | one element shorter; the elements before i stay where they were and those after i move down by one, in order; exactly one copy of s[i] leaves the multiset |
| Rules.PocketPiece | src/game/Gatti.ts:145-150 | a piece still in play leaves it (one copy fewer) and is appended to pocket k, the other pockets unchanged; a piece not in play changes nothing |
| Rules.Captured | src/game/Gatti.ts:135-185 | the pockets keep their number and the turn is unchanged; see the Effect lemmas |
| Rules.Scored | src/game/Gatti.ts:154-178 | the pockets keep their number and the turn is unchanged; see ScoredEffect |
| Rules.CheckedHoles | src/game/Gatti.ts:133-187 | the pockets keep their number and the turn is unchanged |
| Rules.SplicePreserves | src/game/Gatti.ts:145-147 | removing a piece other than the striker keeps the striker first, the rest non-strikers, the pieces distinct, and exactly the other pieces remain (their order is Splice's contract) |
| Rules.CapturedPreserves | src/game/Gatti.ts:135-185 | one capture keeps the board's invariant |
| Rules.ScoredPreserves | src/game/Gatti.ts:154-175 | a black or white capture keeps the invariant |
| Rules.PocketPreserves | src/game/Gatti.ts:145-148 | moving a non-striker from play into a pocket keeps the invariant |
| Rules.CheckedHolesPreserves | src/game/Gatti.ts:133-187 | checking a piece against any number of holes keeps the invariant |
| Rules.ScoredEffect | src/game/Gatti.ts:154-178 | a black or white piece leaves play into pocket k; the side to move gains 11 with queen mode on and 1 otherwise, plus one capture; the other side is untouched; next = turn; queen mode kept |
| Rules.QueenEffect | src/game/Gatti.ts:143-178 | queen mode on, the queen leaves play into pocket k, no score changes, next = turn |
| Rules.StrikerEffect | src/game/Gatti.ts:138-185 | the striker stays in play, nothing is pocketed or scored, one more deferred fine, next = the opponent |
| Rules.QueenModeSticky | src/game/Gatti.ts:143-144 | once on, checking pieces against holes never clears queen mode |
| Rules.ScoresNeverDecrease | src/game/Gatti.ts:133-187 | no score or capture counter goes down |
| Rules.NoHoleNoChange | src/game/Gatti.ts:133-135 | a piece in no hole changes nothing |
| Rules.SingleHole | src/game/Gatti.ts:133-187 | a piece in exactly one hole is captured by that hole alone |
| Rules.CheckedHolesPieces | src/game/Gatti.ts:133-187 | the pieces are unchanged, or lose exactly g's position, which is never the striker's position 0 |
| Rules.CheckedHolesBounds | src/game/Gatti.ts:133-187 | at most one piece leaves play and none enters; nothing is lost; queen mode stays on; the turn is unchanged |
| Rules.CapturedPieces | src/game/Gatti.ts:135-175 | one capture leaves the pieces unchanged (striker or absent) or splices out g |
| Rules.RemainingPieces | src/game/Board.ts:267 | zero exactly when every piece is a striker, never more than the pieces |
| Rules.RemainingAllButStriker | src/game/Board.ts:265-273 | on a valid board every piece but the first counts as remaining |
| Rules.FoulFired | src/game/Gatti.ts:139-141 | one fewer fine is pending |
| Rules.FoulFiredEffect | src/game/Gatti.ts:139-141 | only the side to move is fined, by 2 or not at all (only when it had at least 2); no piece moves; the invariant holds |
| Boards.BaselinesMirror | src/game/Board.ts:255-262 | the top baseline point is the bottom one mirrored, both at x = width / 2 |
| Boards.HitsAt | src/game/Gatti.ts:133-135 | entry k holds exactly when the point is inside pocket k |
| Boards.CaptureByOneHole | src/game/Gatti.ts:133-187 | on a board of at least 80 by 80, a full pass is the capture by the one hole containing the piece |
| Boards.CaptureByNoHole | src/game/Gatti.ts:133-135 | a piece in no hole leaves the board as it was |
| Boards.KindAt | src/game/Board.ts:214-243 | the queen first, then black and white alternately, never a striker |
| Boards.LayoutNoOverlap | src/game/Board.ts:213-243 | with a spacing of at least 20, no two of the 17 opening pieces overlap |
| Boards.Spots | src/game/Board.ts:214-243 | 17 places, the first the centre |
| Boards.CornerHoles | src/game/Board.ts:51-54 | four new empty holes, hole k at corner k |
| Boards.Board.constructor | src/game/Board.ts:28-45 | no pieces or holes, a striker at (250, H - 60), bottom to move, 'first', zero scores and counters |
| Boards.Board.Init | src/game/Board.ts:47-64 | gattis is exactly [striker] at (W/2, H - 60), four empty holes, new players at 0, 'first', bottom to move, next top, queen mode and game over off, counters 0; the board is valid |
| Boards.Board.ResetPieces | src/game/Board.ts:48-54 | the first half of init |
| Boards.Board.ResetPlayers | src/game/Board.ts:55-63 | the second half of init |
| Boards.Board.FreshBoardValid | src/game/Board.ts:47-64 | the state init leaves satisfies the invariant |
| Boards.Board.ArrangeGattis | src/game/Board.ts:213-243 | exactly 17 pieces appended: the queen at the centre, then black and white at the Spots with spacing 2 * radius of gattis[0]; gattis[0] gets velocity.x = 0.00005 and motion; the invariant holds |
| Boards.Board.PlaceOpening | src/game/Board.ts:214-243 | the pushes of arrangeGattis in order |
| Boards.Board.NudgeStriker | src/game/Board.ts:216-217 | only velocity.x and state of gattis[0] change |
| Boards.Board.PushSpokes | src/game/Board.ts:221-243 | pieces 1 to 16 of the layout |
| Boards.Board.PushAxes | src/game/Board.ts:221-231 | pieces 1 to 8, along the axes |
| Boards.Board.PushDiagonals | src/game/Board.ts:233-243 | pieces 9 to 16, along the diagonals |
| Boards.Board.PushCross | src/game/Board.ts:221-225 | two opposite spokes |
| Boards.Board.PushSpoke | src/game/Board.ts:221-222 | black at one spacing, then white at two |
| Boards.Board.Push | src/game/Board.ts:221 | one new resting piece appended; the layout stays well formed |
| Boards.Board.NextTurn | src/game/Board.ts:246-263 | turn flips and next becomes the old turn, whatever next was; the striker goes to (W/2, H - 60) for bottom and (W/2, 60) for top |
| Boards.Board.CheckGameOver | src/game/Board.ts:265-273 | true exactly when no non-striker remains, which is exactly gattis == [striker]; only then is isGameOver set; gattis is outside its frame |
| Boards.Board.CurrentPlayer | src/game/Board.ts:275-279 | bottom maps to player 1, top to player 2 |
| Boards.Board.IsPlayer1Turn | src/game/Board.ts:281-283 | holds exactly when the bottom side, player 1, is to move |
| Boards.Board.IsPlayer2Turn | src/game/Board.ts:281-287 | holds exactly when isPlayer1Turn does not |
| Boards.Board.HoleCheckIsHitsAt | src/game/Gatti.ts:133-135 | on a valid board, hole k's check is entry k of HitsAt |
| Boards.Board.CaptureIn | src/game/Gatti.ts:135-185 | performs Captured on the board and keeps the invariant |
| Boards.Board.CaptureQueen | src/game/Gatti.ts:143-152 | queen mode on, the queen pocketed, next = turn |
| Boards.Board.CapturePiece | src/game/Gatti.ts:154-175 | performs Scored |
| Boards.Board.AwardQueenBonus | src/game/Gatti.ts:155-158 | 10 for the side to move exactly when queen mode is on |
| Boards.Board.Reward | src/game/Gatti.ts:165-178 | 1 point and 1 capture for the side to move, next = turn |
| Boards.Board.Sink | src/game/Gatti.ts:145-150 | g, if still in play, is spliced out and appended to pocket k |
| Boards.Board.CheckInHoles | src/game/Gatti.ts:132-188 | performs CheckedHoles over the holes containing g, in hole order, and keeps the invariant |
| Boards.Board.FoulToast | src/game/Gatti.ts:139-141 | performs FoulFired: the side to move when the timer fires is fined |
| Opponent.CandidateMeaning | src/game/AI.ts:22-26 | a candidate is a non-striker whose distance from the striker lies in [30, 400] |
| Opponent.EligibleMeaning | src/game/AI.ts:83-85 | a fallback piece is a non-striker at distance strictly above 30 |
| Opponent.Best | src/game/AI.ts:21-74 | -1 or the index of a candidate |
| Opponent.BestMeaning | src/game/AI.ts:17-74 | -1 exactly when no piece is a candidate; otherwise no candidate scores higher, and every earlier candidate scores strictly less (ties keep the earliest) |
| Opponent.Nearest | src/game/AI.ts:82-89 | -1 or the index of an eligible piece |
| Opponent.NearestMeaning | src/game/AI.ts:79-89 | -1 exactly when no piece is eligible; otherwise the earliest of the nearest eligible pieces |
| Opponent.Clamp | src/game/AI.ts:162-166 | within [lo, hi] when lo <= hi; unchanged inside; lo below, hi above |
| Opponent.BestIgnoresStriker | src/game/AI.ts:22 | the first loop's choice does not depend on where the striker piece stands |
| Opponent.NearestIgnoresStriker | src/game/AI.ts:83 | nor does the fallback's |
| Opponent.AimIgnoresStriker | src/game/AI.ts:129-159 | so the aim does not depend on where the striker stood before the temporary move |
| Opponent.BestCandidate | src/game/AI.ts:16-74 | the loop finds Best's target, with the power toward it of length min(0.12 d, 40) |
| Opponent.NearestPiece | src/game/AI.ts:79-89 | the loop finds Nearest's piece |
| Opponent.FindBestTarget | src/game/AI.ts:14-116 | the target is Best's (never the striker, always within [30, 400]); the power is toward the target, else the nearest piece, else the centre |
| Opponent.NoTargetIffNoCandidate | src/game/AI.ts:17-63 | there is no target exactly when no piece lies in the candidate band |
| Opponent.IntoCanvas | src/game/AI.ts:161-163 | the aim is pulled into [0, W] x [0, H] and left alone when already inside |
| Opponent.AimFrom | src/game/AI.ts:135-155 | the aim toward the target, min(0.8 d, 200) long, or the striker plus three times the power |
| Opponent.MakeMove | src/game/AI.ts:119-171 | the striker's position is restored; y = 60; x is W/2 clamped into [60, W - 60]; the aim is computed from (W/2, 60) and lies in the canvas |
| CarromLoop.Release | src/components/CarromBoard.tsx:189-208 | an armed release in 'second' goes to 'third'; the flag ends set exactly when a release in 'first' validated the placement, which also moves to 'second' |
| CarromLoop.PlacementClear | src/components/CarromBoard.tsx:196-203 | true exactly when the striker overlaps none of gattis[1..] |
| CarromLoop.HandleMove | src/components/CarromBoard.tsx:172-176 | on player 1's turn the cursor's final point follows the pointer; otherwise nothing changes |
| CarromLoop.HandlePress | src/components/CarromBoard.tsx:178-182 | on player 1's turn the cursor's initial point is the press; otherwise nothing changes |
| CarromLoop.HandleRelease | src/components/CarromBoard.tsx:184-209 | on player 1's turn the state and flag move as Release says and an armed release strikes with determinePower(cursor.final, striker.pos); otherwise nothing changes |
| CarromLoop.PhysicsPass | src/components/CarromBoard.tsx:42-57 | in 'first' the rules' state is unchanged; no score falls; queen mode stays on; no piece enters play; outside 'third' every piece is left moving |
| CarromLoop.StepPiece | src/components/CarromBoard.tsx:43-56 | one piece: walls and holes outside 'first', then the motion step |
| CarromLoop.VisitStep | src/components/CarromBoard.tsx:46-54 | the hole check of one piece keeps the loop's rules invariant |
| CarromLoop.VisitHoles | src/components/CarromBoard.tsx:47-54 | only the visited index can leave play; nothing is lost; queen mode stays on |
| CarromLoop.PlaceStriker | src/components/CarromBoard.tsx:63-82 | player 1: the striker takes cursor x only when 60 < x < W - 60, at y = H - 60; computer: the striker goes where makeMove says and the cursor takes its aim |
| CarromLoop.AllAtRest | src/components/CarromBoard.tsx:84-90 | true exactly when no piece is in motion |
| CarromLoop.SettleTurn | src/components/CarromBoard.tsx:83-103 | still 'third' while a piece moves; at rest, game over with the scores and counters exactly when only the striker is left, otherwise 'first' |
| CarromLoop.Update | src/components/CarromBoard.tsx:39-103 | one frame: the piece loop, then the 'first' or the 'third' branch; nothing is lost and queen mode is kept; in 'third' the frame stays in play while pieces move, ends the game exactly when only the striker is left (reporting both scores and hit counters and setting isGameOver), and otherwise returns to 'first'; in 'first' on player 1's turn the cursor is left alone |
| CarromLoop.TurnTimer | src/components/CarromBoard.tsx:104-109 | the turn flips, next records the side that just played, the striker goes to the new side's baseline; the computer moves next exactly when the turn passed from bottom to top |
| CarromLoop.AiPlace | src/components/CarromBoard.tsx:110-114 | the striker goes to makeMove's position |
| CarromLoop.AiAim | src/components/CarromBoard.tsx:117-123 | 'second', flag set, the cursor runs from the striker point to the aim |
| CarromLoop.AiShoot | src/components/CarromBoard.tsx:126-138 | the striker's velocity is a tenth of determinePower(strikerPoint, aimPoint); 'third', flag cleared |

## Left out

- Collision resolution (`checkCollission`, src/game/Gatti.ts:80-130) is not modelled. It is built on `atan2`, `cos` and `sin`. Its separation loop has no termination argument.
- CarromLoop.PhysicsPass: one frame's piece loop without collision resolution. Its contract states invariants (nothing lost, queen mode kept, no piece added, 'first' leaves the rules' state alone), not the exact tally after the frame. The exact effect of each capture is in `Boards.Board.CheckInHoles`.
- CarromLoop.Update: states the rules invariants of the frame, the outcome of each branch (with the reported scores and counters on game over, and the new isGameOver flag) and that player 1's cursor is left alone, but not the positions the motion steps reach.
- `Target.determinePower` is uninterpreted (`Oracles.power`). It is trigonometric, so what the model captures is the point pair each caller passes and the scaling, not the vector it returns.
- The AI's score formula is uninterpreted (`AiOracles.score`). It is built from angles and reciprocals and is modelled as a positive real.
- The lengths and directions of the AI's power and aim vectors are uninterpreted (`AiOracles.dist`, `AiOracles.towards`). They are square roots and cos/sin. The fallback's `minDist` comparison is made on squared distances, which `Geometry.SquareOrder` shows is equivalent.
- The floating-point rest test `Math.floor(v.toFixed(1)) === 0` is a parameter `nearZero`.
- Numbers are reals, not IEEE doubles. Rounding, NaN and Infinity are not modelled; the fallback's initial `Infinity` is `None`.
- Timers are not modelled as delays. `toast`'s delayed fine is a pending count plus the step `FoulToast`. The turn-change and computer-move timers are the steps `TurnTimer`, `AiPlace`, `AiAim` and `AiShoot`. Their scheduling, and teardown while they are pending, are not modelled.
- `onScoreUpdate`, `onTurnChange` and the pocket callback are outputs to the React shell and are not modelled. `onGameOver`'s arguments are the `GameOver` outcome.
- `requestAnimationFrame`: `Update` is one frame.
- All drawing is not modelled: `Board.draw`, `Hole.draw`, `Target.draw`, the canvas half of `Gatti.draw` and the JSX.
- The DOM part of `getMousePos` is not modelled. The canvas origin and the client point are parameters, and the mouse and touch variants share one handler per kind.
- The `!canvasRef.current` guard is folded into `started`.
- `Util.random` is not modelled: it uses Math.random and nothing in the core calls it.
- src/components/Game.tsx, src/components/Menu.tsx and src/App.tsx are the UI shell and are not part of this model.
- The board's `ctx`, `canvas` and `target` objects are not modelled. The canvas size is the constants `width` and `height`, and `target.flag` is `targetFlag`.
