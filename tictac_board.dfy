/** The 1-indexed board of the `tictacrustle` library
    (src/lib_tictacrustle/board.rs): nine write-once squares stored flat, row-major,
    addressed by (row, column) through `(row - 1) * 3 + (col - 1)`. */
module TictacBoard {
  import opened SquareValues
  import opened Layout
  import opened GuardedSquare

  /** `translate_coordinates`. Its `usize` arithmetic underflows (a panic) for row 0 or
      column 0; every caller then indexes the nine-slot array, which panics unless the
      index is below 9. Those are the only demands: a column above 3 is accepted as
      long as the index stays in range. */
  function Translate(row: nat, col: nat): (index: nat)
    requires 1 <= row && 1 <= col
    ensures 3 * (row - 1) <= index
    ensures col <= 3 ==> index < 3 * row && index % 3 == col - 1
  {
    (row - 1) * 3 + (col - 1)
  }

  /** The coordinates `translate_coordinates` maps to a slot, row by row. */
  function Coordinates(index: nat): (rc: (nat, nat))
    requires index < 9
    ensures 1 <= rc.0 <= 3 && 1 <= rc.1 <= 3
  {
    [(1, 1), (1, 2), (1, 3), (2, 1), (2, 2), (2, 3), (3, 1), (3, 2), (3, 3)][index]
  }

  /** The coordinates in the 3 by 3 range. */
  predicate OnBoard(row: nat, col: nat)
  {
    1 <= row <= 3 && 1 <= col <= 3
  }

  /** The coordinates that `get_square` accepts without panicking. */
  predicate Addressable(row: nat, col: nat)
    ensures Addressable(row, col) <==> 1 <= row && 1 <= col && 3 * row + col <= 12
    ensures OnBoard(row, col) ==> Addressable(row, col)
  {
    1 <= row && 1 <= col && Translate(row, col) < 9
  }

  /** On the 3 by 3 range, `Translate` is a bijection onto the slots 0..8 and
      `Coordinates` is its inverse. */
  lemma TranslateBijective(row: nat, col: nat, index: nat)
    ensures OnBoard(row, col) ==> Translate(row, col) < 9 && Coordinates(Translate(row, col)) == (row, col)
    ensures index < 9 ==> OnBoard(Coordinates(index).0, Coordinates(index).1) &&
                          Translate(Coordinates(index).0, Coordinates(index).1) == index
  {
    if OnBoard(row, col) {
      if row == 1 {
        assert Translate(row, col) == col - 1;
      } else if row == 2 {
        assert Translate(row, col) == col + 2;
      } else {
        assert Translate(row, col) == col + 5;
      }
    }
    if index < 9 {
      if index < 3 {
        assert Coordinates(index) == (1, index + 1);
      } else if index < 6 {
        assert Coordinates(index) == (2, index - 2);
      } else {
        assert Coordinates(index) == (3, index - 5);
      }
    }
  }

  /** Two on-board coordinate pairs address the same slot only when they are equal. */
  lemma TranslateInjective(r1: nat, c1: nat, r2: nat, c2: nat)
    requires OnBoard(r1, c1) && OnBoard(r2, c2)
    requires Translate(r1, c1) == Translate(r2, c2)
    ensures r1 == r2 && c1 == c2
  {
    TranslateBijective(r1, c1, 0);
    TranslateBijective(r2, c2, 0);
  }

  /** A column past 3 is not rejected: `get_square(1, 4)` reaches the slot of (2, 1),
      and more generally (row, col + 3) aliases (row + 1, col). */
  lemma ColumnOverflowAliases(row: nat, col: nat)
    requires 1 <= row && 1 <= col && Addressable(row, col + 3)
    ensures Addressable(row + 1, col) && Translate(row, col + 3) == Translate(row + 1, col)
    ensures Translate(1, 4) == Translate(2, 1) == 3
  {
  }

  /** Nine Empty squares. */
  const EmptyCells: seq<SquareValue> := [Empty, Empty, Empty, Empty, Empty, Empty, Empty, Empty, Empty]

  class Board {
    /** The `[Square; 9]` array; the array is never replaced, its squares change in place. */
    const squares: array<Square>

    /** Nine slots holding nine distinct squares: each slot is a square of its own. */
    ghost predicate Valid()
      reads this, squares
    {
      squares.Length == 9 &&
      forall i, j :: 0 <= i < j < 9 ==> squares[i] != squares[j]
    }

    /** The values of the nine squares in row-major order. */
    function Values(): (vs: seq<SquareValue>)
      reads this, squares, squares[..]
      ensures |vs| == squares.Length
      ensures forall i :: 0 <= i < squares.Length ==> vs[i] == squares[i].value
    {
      seq(squares.Length, i requires 0 <= i < squares.Length reads squares, squares[..] => squares[i].value)
    }

    /** The `[Square::default(); 9]` of `Board::new`: nine fresh Empty squares, each
        slot a square of its own. */
    static method NewSquares() returns (a: array<Square>)
      ensures fresh(a) && a.Length == 9
      ensures forall i :: 0 <= i < 9 ==> fresh(a[i]) && a[i].value == Empty
      ensures forall i, j :: 0 <= i < j < 9 ==> a[i] != a[j]
    {
      var s0 := new Square();
      var s1 := new Square();
      var s2 := new Square();
      var s3 := new Square();
      var s4 := new Square();
      var s5 := new Square();
      var s6 := new Square();
      var s7 := new Square();
      var s8 := new Square();
      var all := [s0, s1, s2, s3, s4, s5, s6, s7, s8];
      a := new Square[9] (i requires 0 <= i < 9 => all[i]);
      assert a[..] == all;
    }

    /** `Board::new`: nine fresh Empty squares. */
    constructor ()
      ensures Valid() && fresh(squares)
      ensures forall i :: 0 <= i < 9 ==> fresh(squares[i])
      ensures Values() == EmptyCells
    {
      var a := NewSquares();
      squares := a;
      new;
      assert Values() == EmptyCells;
    }

    /** `Default`, which is `Board::new`. */
    static method Default() returns (b: Board)
      ensures fresh(b) && b.Valid() && fresh(b.squares)
      ensures b.Values() == EmptyCells
    {
      b := new Board();
    }

    /** `get_square`: a shared reference to the square at (row, col). */
    function GetSquare(row: nat, col: nat): (s: Square)
      reads this, squares
      requires Valid() && Addressable(row, col)
      ensures s == squares[Translate(row, col)]
    {
      squares[Translate(row, col)]
    }

    /** The value at (row, col) is slot `(row - 1) * 3 + (col - 1)` of the row-major values. */
    lemma GetSquareIsRowMajor(row: nat, col: nat)
      requires Valid() && OnBoard(row, col)
      ensures GetSquare(row, col).value == Values()[3 * (row - 1) + (col - 1)]
    {
      var k := Translate(row, col);
      assert k == 3 * (row - 1) + (col - 1) < 9;
      assert Values()[k] == squares[k].value;
    }

    /** `get_square_mut`: the square at (row, col), handed out for mutation. No other
        slot holds that square, so a change made through it reaches only that slot. */
    method GetSquareMut(row: nat, col: nat) returns (s: Square)
      requires Valid() && Addressable(row, col)
      ensures s == squares[Translate(row, col)]
      ensures forall j :: 0 <= j < 9 && j != Translate(row, col) ==> squares[j] != s
    {
      s := squares[Translate(row, col)];
    }

    /** `get_square_mut(row, col)` followed by `set_x()` or `set_o()` on the result,
        the way the library is driven (src/ttrustle/main.rs:11-13): the addressed slot
        takes the step of the square's guarded policy and the other eight keep their values. */
    method MarkSquare(row: nat, col: nat, m: Setter) returns (r: Outcome)
      requires Valid() && Addressable(row, col)
      modifies squares[Translate(row, col)]
      ensures Valid()
      ensures var k := Translate(row, col);
        var t := Step(old(Values())[k], m);
        r == t.outcome && Values() == old(Values())[k := t.value]
    {
      var s := GetSquareMut(row, col);
      match m
      case SetsX => r := s.SetX();
      case SetsO => r := s.SetO();
    }

    /** `get_row`: the squares (row, 1), (row, 2), (row, 3). */
    function GetRow(row: nat): (line: seq<Square>)
      reads this, squares
      requires Valid() && 1 <= row <= 3
      ensures |line| == 3
      ensures forall j :: 0 <= j < 3 ==> line[j] == squares[3 * (row - 1) + j]
    {
      [GetSquare(row, 1), GetSquare(row, 2), GetSquare(row, 3)]
    }

    /** `get_column`: the squares (1, col), (2, col), (3, col). */
    function GetColumn(col: nat): (line: seq<Square>)
      reads this, squares
      requires Valid() && 1 <= col <= 3
      ensures |line| == 3
      ensures forall i :: 0 <= i < 3 ==> line[i] == squares[3 * i + col - 1]
    {
      [GetSquare(1, col), GetSquare(2, col), GetSquare(3, col)]
    }

    /** `get_diagonal`: "l" runs from (1, 1) to (3, 3), "r" from (1, 3) to (3, 1);
        any other name panics. */
    function GetDiagonal(diagonal: string): (line: seq<Square>)
      reads this, squares
      requires Valid() && (diagonal == "l" || diagonal == "r")
      ensures |line| == 3
      ensures diagonal == "l" ==> forall k :: 0 <= k < 3 ==> line[k] == squares[4 * k]
      ensures diagonal == "r" ==> forall k :: 0 <= k < 3 ==> line[k] == squares[2 * k + 2]
    {
      if diagonal == "l" then [GetSquare(1, 1), GetSquare(2, 2), GetSquare(3, 3)]
      else [GetSquare(1, 3), GetSquare(2, 2), GetSquare(3, 1)]
    }

    /** The `Display` text: `get_square(1, 1)` .. `get_square(3, 3)`, which are the
        row-major values (`GetSquareIsRowMajor`), laid out as three row lines with a
        separator line between consecutive rows, the lines joined by newlines. */
    function Render(): (text: string)
      reads this, squares, squares[..]
      requires Valid()
      ensures text == JoinLines(Lines(Values()))
    {
      JoinedText(Values());
      Text(Values())
    }
  }

  /** Rows and columns are transposes: the j-th square of row i is the i-th square of
      column j. */
  lemma RowColumnTranspose(b: Board, i: nat, j: nat)
    requires b.Valid() && 1 <= i <= 3 && 1 <= j <= 3
    ensures b.GetRow(i)[j - 1] == b.GetColumn(j)[i - 1] == b.GetSquare(i, j)
  {
  }

  /** Both diagonals pass through the centre square (2, 2), as their middle element,
      and share no other square. */
  lemma DiagonalsMeetAtCentre(b: Board)
    requires b.Valid()
    ensures b.GetDiagonal("l")[1] == b.GetDiagonal("r")[1] == b.GetSquare(2, 2)
    ensures forall k, l :: 0 <= k < 3 && 0 <= l < 3 && b.GetDiagonal("l")[k] == b.GetDiagonal("r")[l] ==> k == 1 && l == 1
  {
  }

  /** The rendered board determines the values of all nine squares. */
  lemma RenderDeterminesBoard(a: Board, b: Board)
    requires a.Valid() && b.Valid()
    requires a.Render() == b.Render()
    ensures a.Values() == b.Values()
  {
    TextInjective(a.Values(), b.Values());
  }

  /** The rendered board is 59 characters long and does not end with a newline. */
  lemma RenderNoTrailingNewline(b: Board)
    requires b.Valid()
    ensures |b.Render()| == 59 && b.Render()[58] != '\n'
  {
    TextShape(b.Values());
  }
}
