/** The 0-indexed board of src/lib_ttt/src/board.rs, repeated in
    src/ttrustle/components/board.rs: a 3 by 3 grid of squares, never changed after
    `new`, read through copies of its squares. A square is represented by its value. */
module GridBoard {
  import opened SquareValues
  import opened Layout

  datatype Board = Board(squares: seq<seq<SquareValue>>)

  /** Three rows of three squares. */
  predicate Valid(b: Board)
  {
    |b.squares| == 3 && forall i :: 0 <= i < 3 ==> |b.squares[i]| == 3
  }

  /** The nine squares in row-major order. */
  function Flatten(b: Board): (cells: seq<SquareValue>)
    requires Valid(b)
    ensures |cells| == 9
    ensures forall r, c :: 0 <= r < 3 && 0 <= c < 3 ==> cells[3 * r + c] == b.squares[r][c]
  {
    var cells := b.squares[0] + b.squares[1] + b.squares[2];
    assert forall r, c :: 0 <= r < 3 && 0 <= c < 3 ==> cells[3 * r + c] == b.squares[r][c] by {
      forall r, c | 0 <= r < 3 && 0 <= c < 3
        ensures cells[3 * r + c] == b.squares[r][c]
      {
        if r == 0 {} else if r == 1 {} else {}
      }
    }
    cells
  }

  /** `Board::new`: nine Empty squares. */
  function New(): (b: Board)
    ensures Valid(b)
    ensures forall r, c :: 0 <= r < 3 && 0 <= c < 3 ==> b.squares[r][c] == Empty
  {
    var row := [Empty, Empty, Empty];
    Board([row, row, row])
  }

  /** `Default`, which is `Board::new` (src/lib_ttt/src/board.rs only). */
  function Default(): (b: Board)
    ensures Valid(b) && Flatten(b) == [Empty, Empty, Empty, Empty, Empty, Empty, Empty, Empty, Empty]
  {
    var b := New();
    assert Flatten(b) == [Empty, Empty, Empty, Empty, Empty, Empty, Empty, Empty, Empty];
    b
  }

  /** `get_square`: a copy of square (row, column). Indexing past 2 panics. */
  function GetSquare(b: Board, row: nat, column: nat): (v: SquareValue)
    requires Valid(b) && row < 3 && column < 3
    ensures v == Flatten(b)[3 * row + column]
  {
    b.squares[row][column]
  }

  /** `get_row`: the squares (row, 0), (row, 1), (row, 2), which is grid row `row`. */
  function GetRow(b: Board, row: nat): (line: seq<SquareValue>)
    requires Valid(b) && row < 3
    ensures line == b.squares[row]
  {
    [GetSquare(b, row, 0), GetSquare(b, row, 1), GetSquare(b, row, 2)]
  }

  /** `get_column`: the squares (0, column), (1, column), (2, column). */
  function GetColumn(b: Board, column: nat): (line: seq<SquareValue>)
    requires Valid(b) && column < 3
    ensures |line| == 3
    ensures forall i :: 0 <= i < 3 ==> line[i] == b.squares[i][column]
  {
    [GetSquare(b, 0, column), GetSquare(b, 1, column), GetSquare(b, 2, column)]
  }

  /** `get_diagonal`: 0 runs from (0, 0) to (2, 2), 1 from (0, 2) to (2, 0); any
      other number panics. */
  function GetDiagonal(b: Board, diagonal: nat): (line: seq<SquareValue>)
    requires Valid(b) && diagonal < 2
    ensures |line| == 3
    ensures diagonal == 0 ==> forall k :: 0 <= k < 3 ==> line[k] == b.squares[k][k]
    ensures diagonal == 1 ==> forall k :: 0 <= k < 3 ==> line[k] == b.squares[k][2 - k]
  {
    if diagonal == 0 then [GetSquare(b, 0, 0), GetSquare(b, 1, 1), GetSquare(b, 2, 2)]
    else [GetSquare(b, 0, 2), GetSquare(b, 1, 1), GetSquare(b, 2, 0)]
  }

  /** `print`: for each row its line of three squares, followed by a separator line
      for rows 0 and 1 only. The result is the five-line row-major layout. */
  method Print(b: Board) returns (lines: seq<string>)
    requires Valid(b)
    ensures lines == Lines(Flatten(b))
  {
    var cells := Flatten(b);
    LinesShape(cells);
    lines := [];
    for row := 0 to 3
      invariant |lines| == if row < 3 then 2 * row else 5
      invariant lines == Lines(cells)[..|lines|]
    {
      var line := RowLine(GetSquare(b, row, 0), GetSquare(b, row, 1), GetSquare(b, row, 2));
      assert line == Lines(cells)[2 * row];
      if row < 2 {
        lines := lines + [line, Separator];
      } else {
        lines := lines + [line];
      }
    }
  }

  /** Rows and columns are transposes: the j-th square of row i is the i-th square of
      column j. */
  lemma RowColumnTranspose(b: Board, i: nat, j: nat)
    requires Valid(b) && i < 3 && j < 3
    ensures GetRow(b, i)[j] == GetColumn(b, j)[i] == GetSquare(b, i, j)
  {
  }

  /** Both diagonals have the centre (1, 1) as their middle square. */
  lemma DiagonalsMeetAtCentre(b: Board)
    requires Valid(b)
    ensures GetDiagonal(b, 0)[1] == GetDiagonal(b, 1)[1] == GetSquare(b, 1, 1)
  {
  }
}
