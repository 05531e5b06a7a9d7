/** The contents of one square of the board and its three-character rendering
    (src/lib_tictacrustle/square_value.rs). */
module SquareValues {

  datatype SquareValue = Empty | X | O

  /** The `Display` text of a value: the mark padded by one space on each side. */
  function Render(v: SquareValue): (s: string)
    ensures |s| == 3 && s[0] == ' ' && s[2] == ' '
    ensures s[1] == 'X' <==> v == X
    ensures s[1] == 'O' <==> v == O
    ensures s[1] == ' ' <==> v == Empty
  {
    match v
    case X => " X "
    case O => " O "
    case Empty => "   "
  }

  /** The mark character in the middle of a rendered cell names the value again. */
  function Mark(c: char): (v: SquareValue)
  {
    if c == 'X' then X else if c == 'O' then O else Empty
  }

  /** Reading the middle character of the rendering gives the value back: no two
      values share a rendering. */
  lemma RenderInjective(a: SquareValue, b: SquareValue)
    ensures Mark(Render(a)[1]) == a
    ensures Render(a) == Render(b) ==> a == b
  {
  }
}
