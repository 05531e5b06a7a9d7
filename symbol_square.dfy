/** The unguarded square of src/tttm/src/components/square.rs, repeated unchanged in
    src/ttrustle/components/square.rs: like the square of src/components/square.rs,
    except that `set_value` takes a player's symbol and so can only store X or O. */
module SymbolSquare {
  import opened SquareValues
  import Players
  import OpenSquare

  /** The square value a symbol stands for. */
  function FromSymbol(s: Players.Symbol): (v: SquareValue)
    ensures v != Empty
    ensures v == X <==> s == Players.X
    ensures v == O <==> s == Players.O
  {
    match s
    case X => X
    case O => O
  }

  /** A square marked by a symbol renders that symbol's text, padded by one space on
      each side. */
  lemma RenderSymbol(s: Players.Symbol)
    ensures SquareValues.Render(FromSymbol(s)) == " " + Players.SymbolText(s) + " "
  {
  }

  /** `set_value(symbol)` is the setter writing `FromSymbol(symbol)`: after any setters
      ending with it the square holds that mark, never Empty. */
  lemma {:induction false} SetValueNeverEmpties(v: SquareValue, ws: seq<OpenSquare.Write>, s: Players.Symbol)
    ensures OpenSquare.Replay(v, ws + [OpenSquare.Put(FromSymbol(s))]) == FromSymbol(s) != Empty
  {
    OpenSquare.Overwritable(v, ws, OpenSquare.Put(FromSymbol(s)));
  }

  class Square {
    var value: SquareValue

    /** `Square::new`: an Empty square. */
    constructor ()
      ensures value == Empty
    {
      value := Empty;
    }

    /** `Default`, which is `Square::new`. */
    static method Default() returns (s: Square)
      ensures fresh(s) && s.value == Empty
    {
      s := new Square();
    }

    /** `is_empty`: the square shows three spaces. */
    predicate IsEmpty()
      reads this
      ensures IsEmpty() <==> SquareValues.Render(value) == "   "
    {
      value == Empty
    }

    /** `is_x`: the square shows " X ". */
    predicate IsX()
      reads this
      ensures IsX() <==> SquareValues.Render(value) == " X "
    {
      value == X
    }

    /** `is_o`: the square shows " O ". */
    predicate IsO()
      reads this
      ensures IsO() <==> SquareValues.Render(value) == " O "
    {
      value == O
    }

    /** `get_value`: the value the square's display names. */
    function GetValue(): (v: SquareValue)
      reads this
      ensures Mark(SquareValues.Render(value)[1]) == v
    {
      value
    }

    /** The `Display` text, which is that of the square's value. */
    function Render(): (s: string)
      reads this
      ensures |s| == 3
      ensures s == " X " <==> IsX()
      ensures s == " O " <==> IsO()
      ensures s == "   " <==> IsEmpty()
    {
      SquareValues.Render(value)
    }

    /** The derived `PartialEq`: squares holding the same value are equal. */
    predicate Equals(other: Square)
      reads this, other
      ensures Equals(other) <==> Render() == other.Render()
    {
      RenderInjective(value, other.value);
      value == other.value
    }

    /** `set_value`: stores the symbol's mark, X for `Symbol::X` and O for `Symbol::O`. */
    method SetValue(s: Players.Symbol)
      modifies this
      ensures value == OpenSquare.Written(OpenSquare.Put(FromSymbol(s)))
      ensures !IsEmpty() && (IsX() <==> s == Players.X) && (IsO() <==> s == Players.O)
    {
      match s
      case X => value := X;
      case O => value := O;
    }

    /** `set_x`: stores X over whatever was there. */
    method SetX()
      modifies this
      ensures value == OpenSquare.Written(OpenSquare.PutX) && IsX()
    {
      value := X;
    }

    /** `set_o`: stores O over whatever was there. */
    method SetO()
      modifies this
      ensures value == OpenSquare.Written(OpenSquare.PutO) && IsO()
    {
      value := O;
    }

    /** `set_empty`: clears the square. */
    method SetEmpty()
      modifies this
      ensures value == OpenSquare.Written(OpenSquare.PutEmpty) && IsEmpty()
    {
      value := Empty;
    }
  }

  /** Exactly one of the three predicates holds, and it names `GetValue()`. */
  lemma ExactlyOnePredicate(s: Square)
    ensures s.IsEmpty() <==> s.GetValue() == Empty
    ensures s.IsX() <==> s.GetValue() == X
    ensures s.IsO() <==> s.GetValue() == O
    ensures (if s.IsEmpty() then 1 else 0) + (if s.IsX() then 1 else 0) + (if s.IsO() then 1 else 0) == 1
  {
  }
}
