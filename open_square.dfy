/** The unguarded square of src/components/square.rs: every setter overwrites the
    value, whatever it was, and `set_empty` clears it again (last write wins). */
module OpenSquare {
  import opened SquareValues

  /** One call of a setter. */
  datatype Write = Put(v: SquareValue) | PutX | PutO | PutEmpty

  /** The value a setter stores; the previous value plays no part. */
  function Written(w: Write): SquareValue
  {
    match w
    case Put(v) => v
    case PutX => X
    case PutO => O
    case PutEmpty => Empty
  }

  /** The value after a sequence of setter calls on a square holding `v`. */
  function Replay(v: SquareValue, ws: seq<Write>): SquareValue
    decreases |ws|
  {
    if ws == [] then v else Replay(Written(ws[0]), ws[1..])
  }

  /** Last write wins: after a non-empty sequence of setters the square holds what the
      last one stored, and an empty sequence leaves it as it was. */
  lemma {:induction false} LastWriteWins(v: SquareValue, ws: seq<Write>)
    ensures ws == [] ==> Replay(v, ws) == v
    ensures ws != [] ==> Replay(v, ws) == Written(ws[|ws| - 1])
    decreases |ws|
  {
    if ws != [] {
      LastWriteWins(Written(ws[0]), ws[1..]);
    }
  }

  /** Unlike the guarded square, a mark is not final: any value, X or O included, can be
      overwritten, and a later `set_empty` returns the square to Empty. */
  lemma {:induction false} Overwritable(v: SquareValue, ws: seq<Write>, w: Write)
    ensures Replay(v, ws + [w]) == Written(w)
    ensures Replay(v, ws + [PutEmpty]) == Empty
  {
    LastWriteWins(v, ws + [w]);
    LastWriteWins(v, ws + [PutEmpty]);
  }

  class Square {
    var value: SquareValue

    /** `Square::new`: an Empty square. */
    constructor ()
      ensures value == Empty
    {
      value := Empty;
    }

    /** `Default`, which is `Square::new`. */
    static method Default() returns (s: Square)
      ensures fresh(s) && s.value == Empty
    {
      s := new Square();
    }

    /** `is_empty`: the square shows three spaces. */
    predicate IsEmpty()
      reads this
      ensures IsEmpty() <==> SquareValues.Render(value) == "   "
    {
      value == Empty
    }

    /** `is_x`: the square shows " X ". */
    predicate IsX()
      reads this
      ensures IsX() <==> SquareValues.Render(value) == " X "
    {
      value == X
    }

    /** `is_o`: the square shows " O ". */
    predicate IsO()
      reads this
      ensures IsO() <==> SquareValues.Render(value) == " O "
    {
      value == O
    }

    /** `get_value`: the value the square's display names. */
    function GetValue(): (v: SquareValue)
      reads this
      ensures Mark(SquareValues.Render(value)[1]) == v
    {
      value
    }

    /** The `Display` text, which is that of the square's value. */
    function Render(): (s: string)
      reads this
      ensures |s| == 3
      ensures s == " X " <==> IsX()
      ensures s == " O " <==> IsO()
      ensures s == "   " <==> IsEmpty()
    {
      SquareValues.Render(value)
    }

    /** `set_value`: stores any value, Empty included. */
    method SetValue(v: SquareValue)
      modifies this
      ensures value == Written(Put(v)) && GetValue() == v
    {
      value := v;
    }

    /** `set_x`: stores X over whatever was there, O included. */
    method SetX()
      modifies this
      ensures value == Written(PutX) && IsX()
    {
      value := X;
    }

    /** `set_o`: stores O over whatever was there. */
    method SetO()
      modifies this
      ensures value == Written(PutO) && IsO()
    {
      value := O;
    }

    /** `set_empty`: clears the square. */
    method SetEmpty()
      modifies this
      ensures value == Written(PutEmpty) && IsEmpty()
    {
      value := Empty;
    }
  }

  /** Exactly one of the three predicates holds, and it names `GetValue()`. */
  lemma ExactlyOnePredicate(s: Square)
    ensures s.IsEmpty() <==> s.GetValue() == Empty
    ensures s.IsX() <==> s.GetValue() == X
    ensures s.IsO() <==> s.GetValue() == O
    ensures (if s.IsEmpty() then 1 else 0) + (if s.IsX() then 1 else 0) + (if s.IsO() then 1 else 0) == 1
  {
  }
}
