/** The flat board of src/ttt_menace/lib.rs: nine squares with a value type of the
    file's own, never changed after `new`, printed in three rows. */
module Menace {
  import SquareValues
  import Layout

  /** The file's private value type, declared in the order X, O, Empty. */
  datatype SquareValue = X | O | Empty

  /** Its `Display` text. */
  function Render(v: SquareValue): (s: string)
    ensures |s| == 3 && s[0] == ' ' && s[2] == ' '
    ensures s == " X " <==> v == X
    ensures s == " O " <==> v == O
    ensures s == "   " <==> v == Empty
  {
    match v
    case X => " X "
    case O => " O "
    case Empty => "   "
  }

  /** The shared value with the same name. */
  function ToShared(v: SquareValue): (w: SquareValues.SquareValue)
  {
    match v
    case X => SquareValues.X
    case O => SquareValues.O
    case Empty => SquareValues.Empty
  }

  /** The private rendering agrees with the shared one name by name. */
  lemma RenderAgrees(v: SquareValue)
    ensures Render(v) == SquareValues.Render(ToShared(v))
  {
  }

  datatype Square = Square(value: SquareValue)

  datatype Board = Board(board: seq<Square>)

  predicate Valid(b: Board)
  {
    |b.board| == 9
  }

  /** The nine values as shared values, in board order. */
  function SharedValues(b: Board): (cells: seq<SquareValues.SquareValue>)
    requires Valid(b)
    ensures |cells| == 9
    ensures forall i :: 0 <= i < 9 ==> cells[i] == ToShared(b.board[i].value)
  {
    seq(9, i requires 0 <= i < 9 => ToShared(b.board[i].value))
  }

  /** `Board::new`: nine Empty squares. */
  function New(): (b: Board)
    ensures Valid(b)
    ensures forall i :: 0 <= i < 9 ==> b.board[i].value == Empty
  {
    var e := Square(Empty);
    Board([e, e, e, e, e, e, e, e, e])
  }

  /** `Default`, which is `Board::new`. */
  function Default(): (b: Board)
    ensures Valid(b)
    ensures SharedValues(b) == [SquareValues.Empty, SquareValues.Empty, SquareValues.Empty,
                         SquareValues.Empty, SquareValues.Empty, SquareValues.Empty,
                         SquareValues.Empty, SquareValues.Empty, SquareValues.Empty]
  {
    New()
  }

  /** One printed row: three squares joined by `|`. */
  function Row(a: Square, b: Square, c: Square): (line: string)
    ensures |line| == 11 && line[3] == '|' && line[7] == '|'
  {
    Render(a.value) + "|" + Render(b.value) + "|" + Render(c.value)
  }

  /** `print`: the lines for squares 0-2, 3-5 and 6-8, with a dash line between
      consecutive rows. They are the five-line row-major layout, so this board prints
      exactly as the other drafts do. */
  function Print(b: Board): (lines: seq<string>)
    requires Valid(b)
    ensures lines == Layout.Lines(SharedValues(b))
  {
    var squares := b.board;
    RowAgrees(squares[0], squares[1], squares[2]);
    RowAgrees(squares[3], squares[4], squares[5]);
    RowAgrees(squares[6], squares[7], squares[8]);
    [ Row(squares[0], squares[1], squares[2]),
      "-----------",
      Row(squares[3], squares[4], squares[5]),
      "-----------",
      Row(squares[6], squares[7], squares[8]) ]
  }

  /** A printed row is the shared row line of the same values. */
  lemma RowAgrees(a: Square, b: Square, c: Square)
    ensures Row(a, b, c) == Layout.RowLine(ToShared(a.value), ToShared(b.value), ToShared(c.value))
  {
    RenderAgrees(a.value);
    RenderAgrees(b.value);
    RenderAgrees(c.value);
  }

  /** Row r of the print shows squares 3r, 3r + 1 and 3r + 2; there are two dash lines,
      between consecutive rows, and none after the last. */
  lemma PrintShape(b: Board)
    requires Valid(b)
    ensures |Print(b)| == 5
    ensures Print(b)[1] == Layout.Separator && Print(b)[3] == Layout.Separator
    ensures forall r :: 0 <= r < 3 ==> Print(b)[2 * r] == Row(b.board[3 * r], b.board[3 * r + 1], b.board[3 * r + 2])
  {
    var lines := Print(b);
    var sq := b.board;
    assert lines[0] == Row(sq[0], sq[1], sq[2]);
    assert lines[2] == Row(sq[3], sq[4], sq[5]);
    assert lines[4] == Row(sq[6], sq[7], sq[8]);
    forall r | 0 <= r < 3
      ensures lines[2 * r] == Row(sq[3 * r], sq[3 * r + 1], sq[3 * r + 2])
    {
      if r == 0 {
      } else if r == 1 {
        assert 2 * r == 2 && 3 * r == 3;
      } else {
        assert 2 * r == 4 && 3 * r == 6;
      }
    }
  }
}
