/** Players of the `tictacrustle` library (src/lib_tictacrustle/player.rs): a player is
    named by its symbol, parsed from the text "X" or "O". */
module Players {

  datatype Symbol = X | O

  datatype Player = Player(symbol: Symbol)

  /** The `Display` text of a symbol: its letter alone. */
  function SymbolText(s: Symbol): (t: string)
    ensures |t| == 1
    ensures t == "X" <==> s == X
    ensures t == "O" <==> s == O
  {
    match s
    case X => "X"
    case O => "O"
  }

  /** `Player::new`: "X" and "O" name the two symbols; any other text panics. */
  function New(symbol: string): (p: Player)
    requires symbol == "X" || symbol == "O"
    ensures symbol == "X" ==> p.symbol == X
    ensures symbol == "O" ==> p.symbol == O
    ensures SymbolText(p.symbol) == symbol
  {
    if symbol == "X" then Player(X) else Player(O)
  }

  /** The `Display` text of a player: "Player " and then the symbol's letter. */
  function PlayerText(p: Player): (t: string)
    ensures |t| == 8 && t[..7] == "Player " && t[7..] == SymbolText(p.symbol)
  {
    "Player " + SymbolText(p.symbol)
  }

  /** Parsing the text of a symbol gives the player with that symbol back. */
  lemma NewRoundTrip(s: Symbol)
    ensures New(SymbolText(s)) == Player(s)
  {
  }

  /** Two players with the same text are the same player. */
  lemma PlayerTextInjective(p: Player, q: Player)
    requires PlayerText(p) == PlayerText(q)
    ensures p == q
  {
    assert PlayerText(p)[7..] == PlayerText(q)[7..];
  }
}
