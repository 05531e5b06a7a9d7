/** The text layout every board draft prints: three row lines `a|b|c` of rendered
    squares in row-major order, with an eleven-dash line between consecutive rows
    and none after the last (src/lib_tictacrustle/board.rs:82-97,
    src/lib_ttt/src/board.rs:97-109, src/ttrustle/components/board.rs:58-70,
    src/ttt_menace/lib.rs:115-130). */
module Layout {
  import opened SquareValues

  /** The line printed between two rows. */
  const Separator: string := "-----------"

  /** One row of the board: three rendered squares joined by `|`. */
  function RowLine(a: SquareValue, b: SquareValue, c: SquareValue): (line: string)
    ensures |line| == 11
  {
    Render(a) + "|" + Render(b) + "|" + Render(c)
  }

  /** A row line holds the three rendered squares at 0..3, 4..7 and 8..11, with a bar
      at 3 and at 7. */
  lemma RowLineShape(a: SquareValue, b: SquareValue, c: SquareValue)
    ensures var line := RowLine(a, b, c);
      line[3] == '|' && line[7] == '|' &&
      line[0..3] == Render(a) && line[4..7] == Render(b) && line[8..11] == Render(c)
  {
  }

  /** The five lines shown for nine squares listed in row-major order. */
  function Lines(cells: seq<SquareValue>): (lines: seq<string>)
    requires |cells| == 9
  {
    [ RowLine(cells[0], cells[1], cells[2]),
      Separator,
      RowLine(cells[3], cells[4], cells[5]),
      Separator,
      RowLine(cells[6], cells[7], cells[8]) ]
  }

  /** Lines joined by newlines, with no newline after the last one. */
  function JoinLines(lines: seq<string>): (s: string)
  {
    if |lines| == 0 then ""
    else if |lines| == 1 then lines[0]
    else lines[0] + "\n" + JoinLines(lines[1..])
  }

  /** Where square `i` (row-major) starts in the text: each row line and the
      separator after it take 24 characters, each square and its bar 4. */
  function Offset(i: nat): (k: nat)
    requires i < 9
    ensures k + 3 <= 59
  {
    [0, 4, 8, 24, 28, 32, 48, 52, 56][i]
  }

  /** Reads the nine squares back from a rendered board. */
  function Cells(s: string): (cells: seq<SquareValue>)
    requires |s| == 59
    ensures |cells| == 9
  {
    seq(9, i requires 0 <= i < 9 => Mark(s[Offset(i) + 1]))
  }

  /** The five lines alternate row lines and separators, and line 2k is row k. */
  lemma LinesShape(cells: seq<SquareValue>)
    requires |cells| == 9
    ensures |Lines(cells)| == 5
    ensures Lines(cells)[1] == Separator && Lines(cells)[3] == Separator
    ensures forall r :: 0 <= r < 3 ==>
      Lines(cells)[2 * r] == RowLine(cells[3 * r], cells[3 * r + 1], cells[3 * r + 2])
    ensures forall k :: 0 <= k < 5 ==> |Lines(cells)[k]| == 11
  {
    forall r | 0 <= r < 3
      ensures Lines(cells)[2 * r] == RowLine(cells[3 * r], cells[3 * r + 1], cells[3 * r + 2])
    {
      var lines := Lines(cells);
      if r == 0 {
        assert lines[0] == RowLine(cells[0], cells[1], cells[2]);
      } else if r == 1 {
        assert 2 * r == 2 && 3 * r == 3 && 3 * r + 1 == 4 && 3 * r + 2 == 5;
        assert lines[2] == RowLine(cells[3], cells[4], cells[5]);
      } else {
        assert 2 * r == 4 && 3 * r == 6 && 3 * r + 1 == 7 && 3 * r + 2 == 8;
        assert lines[4] == RowLine(cells[6], cells[7], cells[8]);
      }
    }
  }

  /** Joining five lines puts exactly one newline between consecutive lines. */
  lemma {:induction false} JoinFive(a: string, b: string, c: string, d: string, e: string)
    ensures JoinLines([a, b, c, d, e]) == a + "\n" + b + "\n" + c + "\n" + d + "\n" + e
  {
    assert [a, b, c, d, e][1..] == [b, c, d, e];
    assert [b, c, d, e][1..] == [c, d, e];
    assert [c, d, e][1..] == [d, e];
    assert [d, e][1..] == [e];
    assert JoinLines([d, e]) == d + "\n" + e;
    assert JoinLines([c, d, e]) == c + "\n" + (d + "\n" + e);
    assert JoinLines([b, c, d, e]) == b + "\n" + (c + "\n" + (d + "\n" + e));
    assert JoinLines([a, b, c, d, e]) == a + "\n" + (b + "\n" + (c + "\n" + (d + "\n" + e)));
  }

  /** Nine squares as one text: the row lines and separators of `Lines`, each
      followed by a newline except the last. */
  function Text(cells: seq<SquareValue>): (s: string)
    requires |cells| == 9
    ensures |s| == 59
  {
    RowLine(cells[0], cells[1], cells[2]) + "\n" + Separator + "\n" +
    RowLine(cells[3], cells[4], cells[5]) + "\n" + Separator + "\n" +
    RowLine(cells[6], cells[7], cells[8])
  }

  /** `Text` is the five lines joined by newlines. */
  lemma {:induction false} JoinedText(cells: seq<SquareValue>)
    requires |cells| == 9
    ensures Text(cells) == JoinLines(Lines(cells))
  {
    JoinFive(RowLine(cells[0], cells[1], cells[2]), Separator,
             RowLine(cells[3], cells[4], cells[5]), Separator,
             RowLine(cells[6], cells[7], cells[8]));
  }

  /** Where the pieces of three 11-character lines joined around two separators end up. */
  lemma Pieces(l0: string, l2: string, l4: string)
    requires |l0| == 11 && |l2| == 11 && |l4| == 11
    ensures var s := l0 + "\n" + Separator + "\n" + l2 + "\n" + Separator + "\n" + l4;
      |s| == 59 && s[0..11] == l0 && s[24..35] == l2 && s[48..59] == l4 &&
      s[11] == '\n' && s[23] == '\n' && s[35] == '\n' && s[47] == '\n' &&
      s[12..23] == Separator && s[36..47] == Separator
  {
    var gap := "\n" + Separator + "\n";
    var s := l0 + "\n" + Separator + "\n" + l2 + "\n" + Separator + "\n" + l4;
    assert s == l0 + gap + l2 + gap + l4;
    assert s[11..24] == gap && s[35..48] == gap;
    assert s[12..23] == gap[1..12] && s[36..47] == gap[1..12];
  }

  /** In any text that holds a row line at `start`, the marks of its three squares
      are at `start + 1`, `start + 5` and `start + 9`. */
  lemma MarksInRow(s: string, start: nat, a: SquareValue, b: SquareValue, c: SquareValue)
    requires start + 11 <= |s| && s[start..start + 11] == RowLine(a, b, c)
    ensures s[start + 1] == Render(a)[1] && s[start + 5] == Render(b)[1] && s[start + 9] == Render(c)[1]
  {
    RowLineShape(a, b, c);
    var line := s[start..start + 11];
    assert s[start + 1] == line[1] == line[0..3][1];
    assert s[start + 5] == line[5] == line[4..7][1];
    assert s[start + 9] == line[9] == line[8..11][1];
  }

  /** The text of a board: 59 characters with a newline before and after each
      separator, no trailing newline, and the mark of square `i` at `Offset(i) + 1`. */
  lemma TextShape(cells: seq<SquareValue>)
    requires |cells| == 9
    ensures var s := Text(cells);
      |s| == 59 && s[58] != '\n' &&
      s[11] == '\n' && s[23] == '\n' && s[35] == '\n' && s[47] == '\n' &&
      s[12..23] == Separator && s[36..47] == Separator &&
      forall i :: 0 <= i < 9 ==> s[Offset(i) + 1] == Render(cells[i])[1]
  {
    var l4 := RowLine(cells[6], cells[7], cells[8]);
    Pieces(RowLine(cells[0], cells[1], cells[2]), RowLine(cells[3], cells[4], cells[5]), l4);
    var s := Text(cells);
    RowLineShape(cells[6], cells[7], cells[8]);
    assert s[58] == l4[10] == l4[8..11][2];
    MarksInRow(s, 0, cells[0], cells[1], cells[2]);
    MarksInRow(s, 24, cells[3], cells[4], cells[5]);
    MarksInRow(s, 48, cells[6], cells[7], cells[8]);
    forall i | 0 <= i < 9
      ensures s[Offset(i) + 1] == Render(cells[i])[1]
    {
      if i == 0 {} else if i == 1 {} else if i == 2 {}
      else if i == 3 {} else if i == 4 {} else if i == 5 {}
      else if i == 6 {} else if i == 7 {} else {}
    }
  }

  /** Round trip: the nine squares can be read back from the text, so the
      rendering of a board determines the board. */
  lemma ReadBack(cells: seq<SquareValue>)
    requires |cells| == 9
    ensures |Text(cells)| == 59
    ensures Cells(Text(cells)) == cells
  {
    TextShape(cells);
    var s := Text(cells);
    forall i | 0 <= i < 9
      ensures Cells(s)[i] == cells[i]
    {
      RenderInjective(cells[i], cells[i]);
    }
  }

  /** Two boards print the same text only when they hold the same squares. */
  lemma TextInjective(c: seq<SquareValue>, d: seq<SquareValue>)
    requires |c| == 9 && |d| == 9
    requires Text(c) == Text(d)
    ensures c == d
  {
    ReadBack(c);
    ReadBack(d);
  }
}
