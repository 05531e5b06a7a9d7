/** The game record of the `tictacrustle` library (src/lib_tictacrustle/game.rs): two
    players, a board and an optional winner. The file declares its own `Symbol` and
    `Player`, distinct from those of src/lib_tictacrustle/player.rs. */
module Games {
  import TictacBoard

  datatype Symbol = X | O

  datatype Player = Player(symbol: Symbol)

  datatype Option<T> = None | Some(value: T)

  class Game {
    const playerX: Player
    const playerO: Player
    const board: TictacBoard.Board
    const winner: Option<Player>

    /** The game owns a well-formed board. */
    ghost predicate Valid()
      reads this, board, board.squares
    {
      board.Valid()
    }

    /** `Game::new`: the X player, the O player, a new board of nine Empty squares and
        no winner yet. */
    constructor ()
      ensures playerX.symbol == X && playerO.symbol == O
      ensures winner == None
      ensures Valid() && fresh(board) && fresh(board.squares)
      ensures board.Values() == TictacBoard.EmptyCells
    {
      playerX := Player(X);
      playerO := Player(O);
      board := new TictacBoard.Board();
      winner := None;
    }

    /** `board`: the game's own board, well-formed. */
    function GetBoard(): (b: TictacBoard.Board)
      reads this, board, board.squares
      requires Valid()
      ensures b == board && b.Valid()
    {
      board
    }
  }
}
