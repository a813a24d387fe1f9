/**
 * The four kinds of carrom piece and their constant tables
 * (src/types/Gatti.ts): colour and radius per kind.
 */
module GattiTypes {

  /** 'black' | 'white' | 'queen' | 'striker' */
  datatype GattiType = Black | White | Queen | Striker

  /** typeColor: the fill colour of each kind. */
  function TypeColor(t: GattiType): (c: string)
    ensures |c| > 0
  {
    match t
    case Black => "#3366ff"
    case White => "purple"
    case Queen => "red"
    case Striker => "green"
  }

  /** typeSize: the radius of each kind. */
  function TypeSize(t: GattiType): (r: real)
    ensures r > 0.0
  {
    match t
    case Black => 10.0
    case White => 10.0
    case Queen => 10.0
    case Striker => 13.0
  }

  /** Every kind is one of the four listed kinds. */
  lemma ExactlyFourKinds(t: GattiType)
    ensures t in {Black, White, Queen, Striker}
  {
  }

  /** The three playing pieces share one radius, and the striker is strictly the largest body. */
  lemma StrikerIsLargest(t: GattiType)
    requires t != Striker
    ensures TypeSize(t) == 10.0
    ensures TypeSize(t) < TypeSize(Striker)
  {
  }

  /** No two kinds are drawn in the same colour. */
  lemma ColorsDistinct(a: GattiType, b: GattiType)
    requires a != b
    ensures TypeColor(a) != TypeColor(b)
  {
  }
}
