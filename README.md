# Tic-tac-toe value layer, modelled in Dafny

The repository holds several drafts of the value layer of a tic-tac-toe program.
None has a game loop, turn order, or win or draw detection. What it does have:

- **A square value** (`Empty | X | O`). It renders as a three-character cell:
  `" X "`, `" O "` or three spaces.
- **Squares, under two mutation policies.**
  - The *guarded* square of the `tictacrustle` library (`lib_tictacrustle`) is
    write-once. `set_x` and `set_o` mark only an Empty square. On a marked square
    they return an error with a fixed message and leave the square alone.
  - The *unguarded* squares of the `components`, `tttm` and `ttrustle` drafts
    overwrite on every setter call, and `set_empty` clears them again.
- **Boards.**
  - `lib_tictacrustle` has a 1-indexed board. It stores nine squares flat and
    addresses them by `(row - 1) * 3 + (col - 1)`.
  - `lib_ttt` and `ttrustle` have an identical 0-indexed 3 by 3 grid.
  - `ttt_menace` has a flat board with its own private value type.
  - Every board prints the same layout: three `a|b|c` row lines in row-major order,
    with an eleven-dash line between consecutive rows and none after the last.
- **Players and the game record.**
  - `Player::new` parses `"X"` or `"O"` and panics on anything else.
  - `Game::new` builds two players, a fresh board and no winner.

The files and modules:

| file | module | source |
|---|---|---|
| `square_value.dfy` | `SquareValues` | `src/lib_tictacrustle/square_value.rs` |
| `layout.dfy` | `Layout` | the print layout shared by every board |
| `guarded_square.dfy` | `GuardedSquare` | `src/lib_tictacrustle/square.rs` |
| `tictac_board.dfy` | `TictacBoard` | `src/lib_tictacrustle/board.rs` |
| `player.dfy` | `Players` | `src/lib_tictacrustle/player.rs` |
| `game.dfy` | `Games` | `src/lib_tictacrustle/game.rs` |
| `open_square.dfy` | `OpenSquare` | `src/components/square.rs` |
| `symbol_square.dfy` | `SymbolSquare` | `src/tttm/src/components/square.rs`, with the same code in `src/ttrustle/components/square.rs` |
| `grid_board.dfy` | `GridBoard` | `src/lib_ttt/src/board.rs`, with the same code in `src/ttrustle/components/board.rs` |
| `menace.dfy` | `Menace` | `src/ttt_menace/lib.rs` |

How the model is written:

- **Classes, where the source mutates state.**
  - The squares are classes whose setters modify `value`.
  - The `lib_tictacrustle` board is a class holding an `array` of nine distinct
    square objects. `GetSquareMut` hands out one of them. `MarkSquare` is the
    caller's `get_square_mut(r, c).set_x()` (or `set_o()`), used at
    `src/ttrustle/main.rs:11-13`. It changes the addressed slot and no other.
- **Datatypes and functions, where the source never changes its fields.** This is
  the case for the grid boards, the menace board, the players and the game's
  fields.
- **Specifications for the setters.**
  - The guarded setters are specified by a pure `Step` function. Write-once is
    proved about `Run`, which applies a sequence of `Step`s.
  - The unguarded setters are specified by `Written`. Last-write-wins is proved
    about `Replay`.
- **Panics become preconditions.** These are:
  - arithmetic underflow for row or column 0;
  - an array index of 9 or more;
  - a grid index of 3 or more;
  - a diagonal name other than `"l"`/`"r"`, or a diagonal number other than 0/1;
  - a player symbol other than `"X"`/`"O"`.
- **`anyhow` errors** become `Err(Msg(text))`, carrying the exact message.

Two points about the code itself:

- **Coordinates are not range-checked.** `translate_coordinates` checks nothing.
  Only the row/column-0 underflow and the array bound panic, so `get_square(1, 4)`
  reaches the square at (2, 1) (`TictacBoard.ColumnOverflowAliases`). `Addressable`
  is exactly the set of coordinates that do not panic.
- **Write-once holds only for the guarded square.** The unguarded drafts overwrite.

## Model

| member | source | states |
|---|---|---|
| `SquareValues.Render` | src/lib_tictacrustle/square_value.rs:16-24 | Every rendering is 3 characters with a space on each side. The middle character is 'X' exactly for X, 'O' exactly for O and a space exactly for Empty. |
| `SquareValues.RenderInjective` | src/lib_tictacrustle/square_value.rs:18-22 | The middle character of a rendering names the value again, so distinct values render differently. |
| `Layout.RowLine` | src/lib_tictacrustle/board.rs:86 | A row line of three rendered squares joined by bars has 11 characters. |
| `Layout.RowLineShape` | src/lib_tictacrustle/board.rs:86 | A row line holds the three rendered cells at 0..3, 4..7 and 8..11, with a bar at 3 and at 7. |
| `Layout.Text` | src/lib_tictacrustle/board.rs:86 | The display text of nine cells is 59 characters long. `JoinedText`, `TextShape` and `ReadBack` say what it holds. |
| `Layout.LinesShape` | src/lib_tictacrustle/board.rs:86 | The layout has five lines of 11 characters. Lines 1 and 3 are dash lines. Line 2r is row r, made of cells 3r, 3r+1 and 3r+2. |
| `Layout.JoinedText` | src/lib_tictacrustle/board.rs:82-97 | The flat board text equals the five layout lines joined with one newline between consecutive lines. |
| `Layout.TextShape` | src/lib_tictacrustle/board.rs:82-97 | The text has 59 characters, has newlines around each dash line, does not end in a newline, and holds the mark of cell i at a fixed offset. |
| `Layout.ReadBack` | src/lib_tictacrustle/board.rs:82-97 | Round trip: the nine cells can be read back from the text. |
| `Layout.TextInjective` | src/lib_tictacrustle/board.rs:82-97 | Two cell lists with the same text are equal. |
| `GuardedSquare.Step` | src/lib_tictacrustle/square.rs:231-276 | A setter succeeds exactly on Empty and then stores its own mark. On a marked square it fails with "Square is not empty" for the other mark, or "Square is already X"/"already O" for its own mark, and keeps the value. |
| `GuardedSquare.WriteOnce` | src/lib_tictacrustle/square.rs:231-276 | A marked square keeps its mark through any sequence of setter calls. |
| `GuardedSquare.FirstMarkWins` | src/lib_tictacrustle/square.rs:231-276 | On an Empty square the first setter decides the final value. |
| `GuardedSquare.NeverEmptied` | src/lib_tictacrustle/square.rs:60-309 | A square is Empty after a setter sequence exactly when it started Empty and no setter was called. |
| `GuardedSquare.Square.constructor` | src/lib_tictacrustle/square.rs:82-86 | A new square is Empty. |
| `GuardedSquare.Square.Default` | src/lib_tictacrustle/square.rs:311-315 | The default square is a fresh Empty square. |
| `GuardedSquare.Square.Render` | src/lib_tictacrustle/square.rs:317-321 | A square renders " X " exactly when it is X, " O " exactly when it is O, and three spaces exactly when it is Empty. |
| `GuardedSquare.Square.IsEmpty` | src/lib_tictacrustle/square.rs:122-124 | `is_empty` holds exactly when the square's value renders as three spaces. |
| `GuardedSquare.Square.IsX` | src/lib_tictacrustle/square.rs:160-162 | `is_x` holds exactly when the square's value renders as " X ". |
| `GuardedSquare.Square.IsO` | src/lib_tictacrustle/square.rs:198-200 | `is_o` holds exactly when the square's value renders as " O ". |
| `GuardedSquare.Square.GetValue` | src/lib_tictacrustle/square.rs:306-308 | `get_value` is the value named by the middle character of the square's rendering. |
| `GuardedSquare.Square.Equals` | src/lib_tictacrustle/square.rs:47 | Two squares are equal exactly when they render the same, that is when their values agree. |
| `GuardedSquare.Square.SetX` | src/lib_tictacrustle/square.rs:231-240 | The new value and the returned result are `Step(old value, set_x)`. |
| `GuardedSquare.Square.SetO` | src/lib_tictacrustle/square.rs:267-276 | The new value and the returned result are `Step(old value, set_o)`. |
| `GuardedSquare.ExactlyOnePredicate` | src/lib_tictacrustle/square.rs:122-308 | Each of `is_empty`, `is_x` and `is_o` holds exactly when `get_value` is that value, and exactly one of them holds. |
| `TictacBoard.TranslateBijective` | src/lib_tictacrustle/board.rs:69-73 | On 1..3 × 1..3 the translation lands in 0..8. Every slot 0..8 comes from exactly one on-board pair, and `Coordinates` inverts the translation. |
| `TictacBoard.TranslateInjective` | src/lib_tictacrustle/board.rs:69-73 | Distinct on-board pairs address distinct slots. |
| `TictacBoard.ColumnOverflowAliases` | src/lib_tictacrustle/board.rs:24-27 | A column past 3 is accepted while the index stays below 9: (row, col + 3) reaches the slot of (row + 1, col), so (1, 4) reaches slot 3, the square at (2, 1). |
| `TictacBoard.Translate` | src/lib_tictacrustle/board.rs:69-73 | `translate_coordinates`. Row 0 or column 0 is excluded, since it underflows and panics. Row r starts at slot 3(r-1). For a column of at most 3, the slot lies in row r's band of three, at position col-1 within it. |
| `TictacBoard.Addressable` | src/lib_tictacrustle/board.rs:24-27 | The coordinates `get_square` accepts without panicking: row and column at least 1, and 3·row + col at most 12 (index below 9). Every on-board pair qualifies. |
| `TictacBoard.Board.NewSquares` | src/lib_tictacrustle/board.rs:19 | The array of `Board::new` has nine slots. Each holds a fresh Empty square, and no two slots share a square. |
| `TictacBoard.Board.constructor` | src/lib_tictacrustle/board.rs:17-21 | A new board has nine distinct fresh squares, all Empty. |
| `TictacBoard.Board.Default` | src/lib_tictacrustle/board.rs:76-80 | The default board is a new board: nine Empty squares. |
| `TictacBoard.Board.GetSquare` | src/lib_tictacrustle/board.rs:24-27 | The square returned sits in slot `(row - 1) * 3 + (col - 1)` of the array. No bound applies beyond the ones that panic. |
| `TictacBoard.Board.GetSquareIsRowMajor` | src/lib_tictacrustle/board.rs:24-27 | For on-board (row, col), the value of `get_square(row, col)` is row-major value number 3(row-1)+(col-1). |
| `TictacBoard.Board.GetSquareMut` | src/lib_tictacrustle/board.rs:29-32 | The mutable square is the one in the addressed slot, and no other slot holds that object. |
| `TictacBoard.Board.MarkSquare` | src/lib_tictacrustle/board.rs:29-32 | Marking through `get_square_mut` returns the guarded step's result and updates the addressed slot by that step. The other eight values stay as they were. |
| `TictacBoard.Board.GetRow` | src/lib_tictacrustle/board.rs:35-41 | Row r is slots 3(r-1), 3(r-1)+1 and 3(r-1)+2. |
| `TictacBoard.Board.GetColumn` | src/lib_tictacrustle/board.rs:44-50 | Column c is slots c-1, c+2 and c+5. |
| `TictacBoard.Board.GetDiagonal` | src/lib_tictacrustle/board.rs:53-67 | "l" is slots 0, 4 and 8. "r" is slots 2, 4 and 6. Any other name is excluded, since it panics. |
| `TictacBoard.Board.Render` | src/lib_tictacrustle/board.rs:82-97 | The display text is the five row-major layout lines of the board's values, joined by newlines. |
| `TictacBoard.RowColumnTranspose` | src/lib_tictacrustle/board.rs:35-50 | The j-th square of row i is the i-th square of column j, which is the square at (i, j). |
| `TictacBoard.DiagonalsMeetAtCentre` | src/lib_tictacrustle/board.rs:53-67 | Both diagonals have the centre (2, 2) as their middle square and share no other square. |
| `TictacBoard.RenderDeterminesBoard` | src/lib_tictacrustle/board.rs:82-97 | Two boards with the same display text hold the same nine values. |
| `TictacBoard.RenderNoTrailingNewline` | src/lib_tictacrustle/board.rs:82-97 | The display text has 59 characters and no trailing newline. |
| `Players.SymbolText` | src/lib_tictacrustle/player.rs:36-43 | A symbol prints as one letter: "X" exactly for X and "O" exactly for O. |
| `Players.New` | src/lib_tictacrustle/player.rs:15-21 | "X" gives the X player and "O" the O player. Any other text is excluded, since it panics. The symbol prints back as the input text. |
| `Players.PlayerText` | src/lib_tictacrustle/player.rs:24-28 | A player prints as "Player " followed by its symbol's letter, 8 characters in all. |
| `Players.NewRoundTrip` | src/lib_tictacrustle/player.rs:15-43 | Parsing a symbol's printed text gives the player with that symbol. |
| `Players.PlayerTextInjective` | src/lib_tictacrustle/player.rs:24-28 | Players that print the same are the same player. |
| `Games.Game.constructor` | src/lib_tictacrustle/game.rs:26-35 | A new game has `player_x` with symbol X, `player_o` with symbol O, no winner, and a fresh well-formed board of nine Empty squares. |
| `Games.Game.GetBoard` | src/lib_tictacrustle/game.rs:48-50 | The getter returns the game's own board, which is well-formed, and as a function changes nothing. |
| `OpenSquare.LastWriteWins` | src/components/square.rs:91-105 | After a non-empty sequence of setters the square holds what the last one stored. No setter leaves the square untouched. |
| `OpenSquare.Overwritable` | src/components/square.rs:91-105 | Any value, X and O included, is overwritten by the next setter, and `set_empty` returns any square to Empty. |
| `OpenSquare.Square.constructor` | src/components/square.rs:69-73 | A new square is Empty. |
| `OpenSquare.Square.Default` | src/components/square.rs:108-112 | The default square is a fresh Empty square. |
| `OpenSquare.Square.Render` | src/components/square.rs:61-65 | A square renders as its value: " X ", " O " or three spaces, each exactly for its value. |
| `OpenSquare.Square.IsEmpty` | src/components/square.rs:75-77 | `is_empty` holds exactly when the square's value renders as three spaces. |
| `OpenSquare.Square.IsX` | src/components/square.rs:79-81 | `is_x` holds exactly when the square's value renders as " X ". |
| `OpenSquare.Square.IsO` | src/components/square.rs:83-85 | `is_o` holds exactly when the square's value renders as " O ". |
| `OpenSquare.Square.GetValue` | src/components/square.rs:87-89 | `get_value` is the value named by the middle character of the square's rendering. |
| `OpenSquare.Square.SetValue` | src/components/square.rs:91-93 | After `set_value(v)`, `get_value` is v, Empty included. |
| `OpenSquare.Square.SetX` | src/components/square.rs:95-97 | The square is X afterwards, whatever it held, O included. |
| `OpenSquare.Square.SetO` | src/components/square.rs:99-101 | The square is O afterwards, whatever it held. |
| `OpenSquare.Square.SetEmpty` | src/components/square.rs:103-105 | The square is Empty afterwards, whatever it held. |
| `OpenSquare.ExactlyOnePredicate` | src/components/square.rs:75-89 | Each predicate holds exactly when `get_value` is its value, and exactly one holds. |
| `SymbolSquare.FromSymbol` | src/tttm/src/components/square.rs:85-90 | A symbol stands for X or O, never Empty: X exactly for `Symbol::X`, O exactly for `Symbol::O`. |
| `SymbolSquare.RenderSymbol` | src/tttm/src/components/square.rs:55-59 | A square marked by a symbol renders as that symbol's letter with a space on each side, e.g. " X " for X. |
| `SymbolSquare.SetValueNeverEmpties` | src/tttm/src/components/square.rs:85-90 | After any setters ending in `set_value(symbol)`, the square holds the symbol's mark, which is never Empty. |
| `SymbolSquare.Square.constructor` | src/tttm/src/components/square.rs:63-67 | A new square is Empty. |
| `SymbolSquare.Square.Default` | src/tttm/src/components/square.rs:105-109 | The default square is a fresh Empty square. |
| `SymbolSquare.Square.Render` | src/tttm/src/components/square.rs:55-59 | A square renders " X " exactly when it is X, " O " exactly when O, and three spaces exactly when Empty. |
| `SymbolSquare.Square.IsEmpty` | src/tttm/src/components/square.rs:69-71 | `is_empty` holds exactly when the square's value renders as three spaces. |
| `SymbolSquare.Square.IsX` | src/tttm/src/components/square.rs:73-75 | `is_x` holds exactly when the square's value renders as " X ". |
| `SymbolSquare.Square.IsO` | src/tttm/src/components/square.rs:77-79 | `is_o` holds exactly when the square's value renders as " O ". |
| `SymbolSquare.Square.GetValue` | src/tttm/src/components/square.rs:81-83 | `get_value` is the value named by the middle character of the square's rendering. |
| `SymbolSquare.Square.Equals` | src/tttm/src/components/square.rs:50 | Squares are equal exactly when they render alike, so two new (Empty) squares are equal. |
| `SymbolSquare.Square.SetValue` | src/tttm/src/components/square.rs:85-90 | `set_value(Symbol::X)` gives X and `Symbol::O` gives O. The result is never Empty. |
| `SymbolSquare.Square.SetX` | src/tttm/src/components/square.rs:92-94 | The square is X afterwards, whatever it held. |
| `SymbolSquare.Square.SetO` | src/tttm/src/components/square.rs:96-98 | The square is O afterwards, whatever it held. |
| `SymbolSquare.Square.SetEmpty` | src/tttm/src/components/square.rs:100-102 | The square is Empty afterwards, whatever it held. |
| `SymbolSquare.ExactlyOnePredicate` | src/tttm/src/components/square.rs:69-83 | Each predicate holds exactly when `get_value` is its value, and exactly one holds. |
| `GridBoard.Flatten` | src/lib_ttt/src/board.rs:50 | The row-major listing of the grid: square (r, c) is element 3r + c. |
| `GridBoard.New` | src/lib_ttt/src/board.rs:55-59 | A new board is a 3 by 3 grid of Empty squares. |
| `GridBoard.Default` | src/lib_ttt/src/board.rs:112-116 | The default board is 3 by 3 with all nine squares Empty. |
| `GridBoard.GetSquare` | src/lib_ttt/src/board.rs:93-95 | Square (row, column), 0-indexed, is row-major element 3·row + column. Indices of 3 or more are excluded, since they panic. |
| `GridBoard.GetRow` | src/lib_ttt/src/board.rs:61-67 | `get_row(r)` is grid row r, i.e. (r,0), (r,1), (r,2). |
| `GridBoard.GetColumn` | src/lib_ttt/src/board.rs:69-75 | `get_column(c)` is (0,c), (1,c), (2,c). |
| `GridBoard.GetDiagonal` | src/lib_ttt/src/board.rs:77-91 | Diagonal 0 is (k, k). Diagonal 1 is (k, 2-k). Any other number is excluded, since it panics. |
| `GridBoard.Print` | src/lib_ttt/src/board.rs:97-109 | The loop emits exactly the five row-major layout lines: a row line per row and a dash line after rows 0 and 1 only. |
| `GridBoard.RowColumnTranspose` | src/lib_ttt/src/board.rs:61-75 | `get_row(i)[j] == get_column(j)[i] == get_square(i, j)`. |
| `GridBoard.DiagonalsMeetAtCentre` | src/lib_ttt/src/board.rs:77-91 | Both diagonals have the centre (1, 1) as their middle element. |
| `Menace.Render` | src/ttt_menace/lib.rs:61-69 | X renders " X ", O renders " O " and Empty renders three spaces, each exactly for its value. |
| `Menace.RenderAgrees` | src/ttt_menace/lib.rs:61-69 | The private value type renders exactly as the shared one does, name for name. |
| `Menace.New` | src/ttt_menace/lib.rs:81-113 | A new board has nine squares, all Empty. |
| `Menace.Default` | src/ttt_menace/lib.rs:133-137 | The default board has nine Empty squares. |
| `Menace.Print` | src/ttt_menace/lib.rs:115-130 | The printed lines are the five row-major layout lines, the same layout every other draft prints. |
| `Menace.RowAgrees` | src/ttt_menace/lib.rs:116-119 | A printed row equals the shared row line of the same values. |
| `Menace.Row` | src/ttt_menace/lib.rs:116-119 | A printed row is 11 characters long, with a bar at 3 and at 7. |
| `Menace.PrintShape` | src/ttt_menace/lib.rs:115-130 | There are five lines. Row r shows squares 3r, 3r+1 and 3r+2. Only lines 1 and 3 are dash lines, so none follows the last row. |

The same code appears at other paths:

- `src/ttrustle/components/square.rs` repeats `src/tttm/src/components/square.rs`
  39 lines earlier. For example, `set_value` is at lines 46-51.
- `src/ttrustle/components/board.rs` repeats `src/lib_ttt/src/board.rs` 39 lines
  earlier, without `Default`.

`SymbolSquare` and `GridBoard` model both copies.

## Left out

- Output. `println!` and `Formatter` are not modelled. `print` and `fmt` are
  modelled by the lines or the string they produce.
- `anyhow::Error` objects are not modelled. An error is its message string.
- `src/lib_tictacrustle/errors.rs` and `src/ttrustle/gameplay/errors.rs` are not
  part of this model. They are message tables that none of the modelled code
  constructs.
- `src/ttrustle/main.rs` is a demo driver that prints and discards errors. Only
  its `get_square_mut(..).set_x()` idiom is modelled, as `MarkSquare`.
- `src/lib_tictacrustle/lib.rs`, `src/ttrustle/components.rs` and
  `src/ttrustle/gameplay.rs` are not part of this model. They only declare modules
  and re-export.
- The commented-out `play` and `winner` in `src/lib_tictacrustle/game.rs` are not
  modelled, and neither is any win, draw or turn logic, since none exists.
- Some modules are referenced but not shown, so they are not part of this model:
  - the `square_value` modules of `components`, `tttm` and `ttrustle`;
  - `ttrustle`'s `gameplay` symbol and players;
  - the `Square` used by `lib_ttt`.

  The shown `SquareValue` (`src/lib_tictacrustle/square_value.rs`) and `Symbol`
  (`src/lib_tictacrustle/player.rs`) stand in for them.
- `GridBoard.Board` and `Menace.Board` hold square values rather than square
  objects. Neither board changes a square after `new`, and their accessors return
  copies.
- `TictacBoard.Translate` uses unbounded integers. The `usize` underflow for row or
  column 0 is a precondition. Release-build wrap-around is not modelled, because
  the debug build panics.
- The `//#` lines in the doc comments of `src/lib_tictacrustle/square.rs` were not
  used. They are comments, not tests, and some disagree with the code.
