/**
 * A player and the score rules (src/game/Player.ts). The score is a field that
 * incScore, decScore and applyFine update in place; the pure functions below say
 * what each update produces, and the methods are proved to perform exactly that.
 */
module Players {
  import opened Wrappers
  import opened BoardTypes

  /** The penalty each kind of foul carries: 2 for 'striker', 5 for 'invalid-gatti', none otherwise. */
  function FineAmount(fine: string): nat
  {
    if fine == "striker" then 2 else if fine == "invalid-gatti" then 5 else 0
  }

  /** The score after incScore(q): the argument 'queen' is worth 10, anything else (or no argument) 1. */
  function Incremented(score: int, q: Option<string>): (r: int)
    ensures q == Some("queen") ==> r == score + 10
    ensures q != Some("queen") ==> r == score + 1
  {
    if q == Some("queen") then score + 10 else score + 1
  }

  /** The score after decScore: one less, but never below zero. */
  function Decremented(score: int): (r: int)
    ensures score >= 1 ==> r == score - 1
    ensures score < 1 ==> r == score
    ensures score >= 0 ==> r >= 0
  {
    if score >= 1 then score - 1 else score
  }

  /** The score after applyFine(fine), written branch by branch as the source does. */
  function Fined(score: int, fine: string): (r: int)
    ensures r == if score >= FineAmount(fine) then score - FineAmount(fine) else score
    ensures score >= 0 ==> 0 <= r <= score
  {
    if fine == "striker" then
      (if score >= 2 then score - 2 else score)
    else if fine == "invalid-gatti" then
      (if score >= 5 then score - 5 else score)
    else
      score
  }

  /** A striker foul on a score of 1 leaves 1: the fine is skipped, not clamped to zero. */
  lemma StrikerFineNotClamped()
    ensures Fined(1, "striker") == 1
    ensures Fined(2, "striker") == 0
    ensures Fined(4, "invalid-gatti") == 4
  {
  }

  /** A fine of an unknown kind changes nothing. */
  lemma UnknownFineIsNoOp(score: int, fine: string)
    requires fine != "striker" && fine != "invalid-gatti"
    ensures Fined(score, fine) == score
  {
  }

  class Player {
    const name: string
    /** 'top' for order 0, 'bottom' otherwise. */
    const id: Turn
    var score: int

    constructor(name: string, order: int)
      ensures this.name == name
      ensures score == 0
      ensures id == Top <==> order == 0
    {
      this.name := name;
      this.score := 0;
      this.id := if order == 0 then Top else Bottom;
    }

    method IncScore(q: Option<string>)
      modifies this`score
      ensures score == Incremented(old(score), q)
    {
      if q == Some("queen") {
        score := score + 10;
      } else {
        score := score + 1;
      }
    }

    method DecScore()
      modifies this`score
      ensures score == Decremented(old(score))
    {
      if score >= 1 {
        score := score - 1;
      }
    }

    method ApplyFine(fine: string)
      modifies this`score
      ensures score == Fined(old(score), fine)
    {
      if fine == "striker" {
        if score >= 2 {
          score := score - 2;
        }
      } else if fine == "invalid-gatti" {
        if score >= 5 {
          score := score - 5;
        }
      }
    }
  }
}
