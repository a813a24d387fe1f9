/** The board's two enumerations (src/game/Board.ts:7-8). */
module BoardTypes {

  /** 'top' | 'bottom': the side whose turn it is. Player 1 plays from the bottom. */
  datatype Turn = Top | Bottom {
    /** The opposing side. */
    function Other(): (o: Turn)
      ensures o != this
    {
      if this == Top then Bottom else Top
    }
  }

  /** 'first' (placing the striker) | 'second' (aiming) | 'third' (pieces moving). */
  datatype GameState = First | Second | Third

  lemma {:induction false} OtherTwice(t: Turn)
    ensures t.Other().Other() == t
  {
  }
}
