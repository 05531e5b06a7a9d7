/** The write-once square of the `tictacrustle` library
    (src/lib_tictacrustle/square.rs): `set_x` and `set_o` only mark an Empty square
    and report an error, leaving the square as it was, otherwise. */
module GuardedSquare {
  import opened SquareValues

  /** An error carrying its message, as `anyhow::Error::msg` builds it. */
  datatype Error = Msg(text: string)

  /** The `Result<()>` the two setters return. */
  datatype Outcome = Ok | Err(error: Error)

  const NotEmpty: string := "Square is not empty"
  const AlreadyX: string := "Square is already X"
  const AlreadyO: string := "Square is already O"

  /** The two mutators of a square. */
  datatype Setter = SetsX | SetsO

  /** What a setter writes when it succeeds. */
  function Target(m: Setter): (v: SquareValue)
    ensures v != Empty
  {
    match m
    case SetsX => X
    case SetsO => O
  }

  /** The value a square holds after one setter call, and what the call returns. */
  datatype Transition = Transition(value: SquareValue, outcome: Outcome)

  /** One setter call on a square holding `v`: Empty becomes the setter's mark and the
      call succeeds; the other mark is refused as "not empty"; the setter's own mark is
      refused as "already X" / "already O". A refused call keeps the value. */
  function Step(v: SquareValue, m: Setter): (t: Transition)
    ensures t.outcome.Ok? <==> v == Empty
    ensures t.outcome.Ok? ==> t.value == Target(m)
    ensures t.outcome.Err? ==> t.value == v
    ensures m == SetsX && v == O ==> t.outcome == Err(Msg(NotEmpty))
    ensures m == SetsX && v == X ==> t.outcome == Err(Msg(AlreadyX))
    ensures m == SetsO && v == X ==> t.outcome == Err(Msg(NotEmpty))
    ensures m == SetsO && v == O ==> t.outcome == Err(Msg(AlreadyO))
  {
    match (m, v)
    case (_, Empty) => Transition(Target(m), Ok)
    case (SetsX, O) => Transition(v, Err(Msg(NotEmpty)))
    case (SetsX, X) => Transition(v, Err(Msg(AlreadyX)))
    case (SetsO, X) => Transition(v, Err(Msg(NotEmpty)))
    case (SetsO, O) => Transition(v, Err(Msg(AlreadyO)))
  }

  /** The value after a sequence of setter calls, their results ignored. */
  function Run(v: SquareValue, ms: seq<Setter>): SquareValue
    decreases |ms|
  {
    if ms == [] then v else Run(Step(v, ms[0]).value, ms[1..])
  }

  /** Write-once: a marked square keeps its mark through any sequence of setters. */
  lemma {:induction false} WriteOnce(v: SquareValue, ms: seq<Setter>)
    requires v != Empty
    ensures Run(v, ms) == v
    decreases |ms|
  {
    if ms != [] {
      WriteOnce(Step(v, ms[0]).value, ms[1..]);
    }
  }

  /** The first setter applied to an Empty square decides its value for good. */
  lemma {:induction false} FirstMarkWins(ms: seq<Setter>)
    requires ms != []
    ensures Run(Empty, ms) == Target(ms[0])
  {
    WriteOnce(Target(ms[0]), ms[1..]);
  }

  /** No setter sequence brings a square back to Empty: the result is Empty exactly
      when the square was Empty and no setter was called. */
  lemma {:induction false} NeverEmptied(v: SquareValue, ms: seq<Setter>)
    ensures Run(v, ms) == Empty <==> v == Empty && ms == []
  {
    if ms != [] {
      if v == Empty {
        FirstMarkWins(ms);
      } else {
        WriteOnce(v, ms);
      }
    }
  }

  class Square {
    var value: SquareValue

    /** `Square::new`: an Empty square. */
    constructor ()
      ensures value == Empty
    {
      value := Empty;
    }

    /** `Default`, which is `Square::new`. */
    static method Default() returns (s: Square)
      ensures fresh(s) && s.value == Empty
    {
      s := new Square();
    }

    /** `is_empty`: the square shows three spaces. */
    predicate IsEmpty()
      reads this
      ensures IsEmpty() <==> SquareValues.Render(value) == "   "
    {
      value == Empty
    }

    /** `is_x`: the square shows " X ". */
    predicate IsX()
      reads this
      ensures IsX() <==> SquareValues.Render(value) == " X "
    {
      value == X
    }

    /** `is_o`: the square shows " O ". */
    predicate IsO()
      reads this
      ensures IsO() <==> SquareValues.Render(value) == " O "
    {
      value == O
    }

    /** `get_value`: the value the square's display names. */
    function GetValue(): (v: SquareValue)
      reads this
      ensures Mark(SquareValues.Render(value)[1]) == v
    {
      value
    }

    /** The `Display` text, which is that of the square's value. */
    function Render(): (s: string)
      reads this
      ensures |s| == 3
      ensures s == " X " <==> IsX()
      ensures s == " O " <==> IsO()
      ensures s == "   " <==> IsEmpty()
    {
      SquareValues.Render(value)
    }

    /** The derived `PartialEq`: squares holding the same value are equal. */
    predicate Equals(other: Square)
      reads this, other
      ensures Equals(other) <==> Render() == other.Render()
    {
      RenderInjective(value, other.value);
      value == other.value
    }

    method SetX() returns (r: Outcome)
      modifies this
      ensures Transition(value, r) == Step(old(value), SetsX)
    {
      match value
      case Empty =>
        value := X;
        r := Ok;
      case O =>
        r := Err(Msg(NotEmpty));
      case X =>
        r := Err(Msg(AlreadyX));
    }

    method SetO() returns (r: Outcome)
      modifies this
      ensures Transition(value, r) == Step(old(value), SetsO)
    {
      match value
      case Empty =>
        value := O;
        r := Ok;
      case X =>
        r := Err(Msg(NotEmpty));
      case O =>
        r := Err(Msg(AlreadyO));
    }
  }

  /** Exactly one of the three predicates holds, and it names `GetValue()`. */
  lemma ExactlyOnePredicate(s: Square)
    ensures s.IsEmpty() <==> s.GetValue() == Empty
    ensures s.IsX() <==> s.GetValue() == X
    ensures s.IsO() <==> s.GetValue() == O
    ensures (if s.IsEmpty() then 1 else 0) + (if s.IsX() then 1 else 0) + (if s.IsO() then 1 else 0) == 1
  {
  }
}
