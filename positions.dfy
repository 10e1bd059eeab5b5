/** Reading a position back out of the engine: `equalPosition`, the
    repetition test, `getPieces`, the square-by-square piece list, and
    `getNextPlayer`. */
module Positions {
  import opened Wrappers
  import opened Geometry
  import opened Boards
  import opened Text
  import opened MoveGen
  import opened MakeMoves
  import opened Fen

  // ---------------------------------------------------------------------
  // equalPosition

  /** `equalPosition(board1, board2)` as written: both boards present, the
      same castling rights, the same en-passant square and the same colour
      on every square.  The type test compares `board2.pieceType[i]` with
      itself, so piece types never decide; the side to move is not
      compared either. */
  predicate SamePosition(o1: Option<Board>, o2: Option<Board>)
  {
    o1.Some? && o2.Some? && o1.value.castle == o2.value.castle && o1.value.ep == o2.value.ep
    && o1.value.pieceColor == o2.value.pieceColor
  }

  predicate ShapedIfPresent(o: Option<Board>)
  {
    o.Some? ==> Shaped(o.value)
  }

  method EqualPosition(board1: Option<Board>, board2: Option<Board>) returns (r: bool)
    requires ShapedIfPresent(board1) && ShapedIfPresent(board2)
    ensures r == SamePosition(board1, board2)
  {
    if board1.None? || board2.None? {
      return false;
    }
    var b1, b2 := board1.value, board2.value;
    if b1.castle != b2.castle {
      return false;
    }
    if b1.ep != b2.ep {
      return false;
    }
    for i := 0 to 64
      invariant forall k :: 0 <= k < i ==> b1.pieceColor[k] == b2.pieceColor[k]
    {
      if b1.pieceColor[i] != b2.pieceColor[i] {
        return false;
      }
      // as written: board2's type against itself
      if b2.pieceType[i] != b2.pieceType[i] {
        return false;
      }
    }
    return true;
  }

  /** Every present board is in the same position as itself. */
  lemma SamePositionReflexive(b: Board)
    ensures SamePosition(Some(b), Some(b))
  {
  }

  /** The test does not depend on the order of the boards. */
  lemma SamePositionSymmetric(o1: Option<Board>, o2: Option<Board>)
    ensures SamePosition(o1, o2) <==> SamePosition(o2, o1)
  {
  }

  /** Being in the same position carries over from board to board. */
  lemma SamePositionTransitive(o1: Option<Board>, o2: Option<Board>, o3: Option<Board>)
    requires SamePosition(o1, o2) && SamePosition(o2, o3)
    ensures SamePosition(o1, o3)
  {
  }

  /** A missing board is in no position. */
  lemma NoBoardNoPosition(o: Option<Board>)
    ensures !SamePosition(None, o) && !SamePosition(o, None)
  {
  }

  /** As written, boards that differ only in their piece types, or only in
      the side to move, count as the same position. */
  lemma TypesAndSideIgnored(b: Board, types: seq<int>, side: int)
    ensures SamePosition(Some(b), Some(b.(pieceType := types, side := side)))
  {
  }

  /** An illustration of TypesAndSideIgnored: a white knight and a white
      bishop on the same square, all else equal, pass the test. */
  lemma KnightIsBishop()
    ensures var b := InitialBoard();
      SamePosition(Some(b), Some(b.(pieceType := b.pieceType[B1 := BISHOP])))
      && b.pieceType[B1] == KNIGHT
  {
    var b := InitialBoard();
    InitialBoardContents(B1);
  }

  /** Writing a well-formed board as FEN and reading it back keeps its
      position. */
  lemma FenKeepsPosition(b: Board)
    requires WellFormed(b)
    ensures FenResult(b).Success? && FenBoard(FenResult(b).value).Success?
    ensures SamePosition(Some(b), Some(FenBoard(FenResult(b).value).value))
  {
    FenRoundTrip(b);
  }

  // ---------------------------------------------------------------------
  // getPieces

  /** The entry of one square: nothing for EMPTY, otherwise "w" for a white
      piece or "b" for any other colour, then the lower-case piece name. */
  function PieceEntry(c: int, t: int): Option<string>
    requires PAWN <= t <= EMPTY
  {
    if t == EMPTY then None
    else Some([if c == WHITE then 'w' else 'b', LowerCase(PIECE_NAMES[t])])
  }

  /** The first n squares hold known piece numbers. */
  predicate KnownBelow(b: Board, n: int)
    requires Shaped(b) && 0 <= n <= 64
  {
    forall k :: 0 <= k < n ==> PAWN <= b.pieceType[k] <= EMPTY
  }

  /** The entries of the first n squares. */
  function Entries(b: Board, n: int): (r: seq<Option<string>>)
    requires Shaped(b) && 0 <= n <= 64 && KnownBelow(b, n)
    ensures |r| == n
  {
    if n == 0 then [] else Entries(b, n - 1) + [PieceEntry(b.pieceColor[n - 1], b.pieceType[n - 1])]
  }

  /** `getPieces(board)`: the 64 entries, or the TypeError of looking up the
      name of an unknown piece number. */
  function PieceList(b: Board): Result<seq<Option<string>>, string>
    requires Shaped(b)
  {
    if KnownBelow(b, 64) then Success(Entries(b, 64)) else Failure("TypeError")
  }

  method GetPieces(b: Board) returns (r: Result<seq<Option<string>>, string>)
    requires Shaped(b)
    ensures r == PieceList(b)
  {
    var result: seq<Option<string>> := [];
    for i := 0 to 64
      invariant KnownBelow(b, i) && result == Entries(b, i)
    {
      var t := b.pieceType[i];
      if t == EMPTY {
        result := result + [None];
      } else if 0 <= t < |PIECE_NAMES| {
        var piece := LowerCase(PIECE_NAMES[t]);
        result := result + [Some([if b.pieceColor[i] == WHITE then 'w' else 'b', piece])];
      } else {
        // PIECE_NAMES[t] is undefined
        return Failure("TypeError");
      }
    }
    return Success(result);
  }

  /** The entry of square k among the first n is that square's. */
  lemma {:induction false} EntriesAt(b: Board, n: int, k: int)
    requires Shaped(b) && 0 <= k < n <= 64 && KnownBelow(b, n)
    ensures Entries(b, n)[k] == PieceEntry(b.pieceColor[k], b.pieceType[k])
    decreases n
  {
    if k < n - 1 {
      EntriesAt(b, n - 1, k);
    }
  }

  /** The square an entry describes: EMPTY for nothing, otherwise the
      colour of its first letter and the piece its second letter names. */
  function EntrySquare(e: Option<string>): (int, int)
  {
    match e
    case None => (EMPTY, EMPTY)
    case Some(s) =>
      if |s| == 2 then (if s[0] == 'w' then WHITE else BLACK, NameIndex(s[1])) else (EMPTY, EMPTY)
  }

  function NameIndex(c: char): int
  {
    if c == 'p' then PAWN else if c == 'n' then KNIGHT else if c == 'b' then BISHOP
    else if c == 'r' then ROOK else if c == 'q' then QUEEN else if c == 'k' then KING
    else EMPTY
  }

  /** The list of a well-formed board names every square's colour and
      piece: reading each entry back gives the square. */
  lemma PieceListRead(b: Board)
    requires WellFormed(b)
    ensures PieceList(b).Success? && |PieceList(b).value| == 64
    ensures forall k :: 0 <= k < 64 ==>
      EntrySquare(PieceList(b).value[k]) == (b.pieceColor[k], b.pieceType[k])
  {
    assert KnownBelow(b, 64);
    forall k | 0 <= k < 64
      ensures EntrySquare(Entries(b, 64)[k]) == (b.pieceColor[k], b.pieceType[k])
    {
      EntriesAt(b, 64, k);
      assert SquareWellFormed(b.pieceColor[k], b.pieceType[k]);
    }
  }

  /** A square holding a number that is not a piece makes the list throw. */
  lemma UnknownPieceThrows(b: Board, k: int)
    requires Shaped(b) && 0 <= k < 64 && !(PAWN <= b.pieceType[k] <= EMPTY)
    ensures PieceList(b) == Failure("TypeError")
  {
  }

  // ---------------------------------------------------------------------
  // getNextPlayer

  /** `getNextPlayer(board)`. */
  function NextPlayer(b: Board): string
  {
    if b.side == WHITE then "white" else "black"
  }

  /** An accepted move passes the turn to the other player. */
  lemma TurnPasses(b: Board, m: PotentialMove)
    requires Shaped(b) && InRange(b, m) && MoveOutcome(b, m).Legal?
    ensures NextPlayer(MoveOutcome(b, m).board) != NextPlayer(b)
  {
    Bookkeeping(b, m);
  }
}
