/** `ChessMoveGenerator`, the entry points the application calls: `first`
    reads a starting position and `move` plays one move in long algebraic
    notation; both hand back the position as FEN with the moves allowed in
    it and the player to move. */
module Generator {
  import opened Wrappers
  import opened Boards
  import opened Attack
  import opened MakeMoves
  import opened Play
  import opened Fen
  import opened Positions

  /** What both entry points return. */
  datatype Context = Context(board: string, allowedMoves: seq<Move>, sideToMove: string, message: Option<string>)

  const START_FEN := "rnbqkbnr/pppppppp/8/8/8/8/PPPPPPPP/RNBQKBNR w KQkq - 0 1"

  /** The context of a board: its FEN, its possible moves and the player
      to move; the TypeError of `toFEN` is passed on. */
  function Describe(b: Board): Result<Context, string>
    requires Shaped(b)
  {
    var text :- FenResult(b);
    Success(Context(text, PossibleMoves(b), NextPlayer(b), None))
  }

  /** `first(initialBoard)`: the described position of the FEN text, the
      standard starting position when none is given. */
  function First(initialBoard: Option<string>): Result<Context, string>
  {
    var fen := if initialBoard.None? then START_FEN else initialBoard.value;
    var b :- FenBoard(fen);
    Describe(b)
  }

  /** `move(context, move)`: the position after the move, read from the
      context's FEN.  A refused move gives `null` to `toFEN`, which throws
      reading its fields. */
  function MoveContext(context: Context, mv: Move): Result<Context, string>
  {
    var b :- FenBoard(context.board);
    match LanOutcome(b, mv.lan)
    case Illegal => Failure("TypeError")
    case FailedToCastle => Failure("failed to castle")
    case Legal(next) =>
      LanOutcomeShaped(b, mv.lan);
      Describe(next)
  }

  lemma LanOutcomeShaped(b: Board, lan: string)
    requires Shaped(b) && LanOutcome(b, lan).Legal?
    ensures Shaped(LanOutcome(b, lan).board)
    ensures LanOutcome(b, lan).board.side == 1 - b.side
  {
    var m := LanCandidate(b, lan).value;
    Bookkeeping(b, m);
  }

  /** No initial text means the standard starting position. */
  lemma FirstDefault()
    ensures First(None) == First(Some(START_FEN))
  {
  }

  /** Starting from the FEN of a well-formed board hands back that same
      text, the moves `getPossibleMoves` allows on the board and the
      board's player to move. */
  lemma FirstEchoes(b: Board)
    requires WellFormed(b)
    ensures FenResult(b).Success?
    ensures var c := First(Some(FenResult(b).value));
      c.Success? && c.value.board == FenResult(b).value
      && c.value.sideToMove == NextPlayer(b)
      && c.value.allowedMoves == PossibleMoves(b.(check := InCheck(b, b.side)))
  {
    FenRoundTrip(b);
    FenTextSquares(b.(check := InCheck(b, b.side)), b);
  }

  /** As written, a move `move` refuses, or one it does not find, throws
      instead of answering null. */
  lemma RefusedMoveThrows(context: Context, mv: Move)
    requires FenBoard(context.board).Success?
    requires LanOutcome(FenBoard(context.board).value, mv.lan) == Illegal
    ensures MoveContext(context, mv) == Failure("TypeError")
  {
  }

  /** A move that goes through hands the turn to the other player. */
  lemma MovePassesTurn(context: Context, mv: Move)
    requires FenBoard(context.board).Success? && MoveContext(context, mv).Success?
    ensures MoveContext(context, mv).value.sideToMove != NextPlayer(FenBoard(context.board).value)
  {
    var b := FenBoard(context.board).value;
    LanNeverThrows(b, mv.lan);
    LanOutcomeShaped(b, mv.lan);
  }
}
