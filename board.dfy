/** The engine's board record, its candidate-move record, and the mutable
    working copy that `createBoard`, `copyBoardUnfrozen`, `parseFEN` and
    `makeMove` fill in step by step before handing a board back.

    A board handed back to a caller is never written again: every operation
    that produces a new position writes a fresh copy.  So the board callers
    see is the value type `Board`, and the copy under construction is the
    class `MutableBoard`, whose `Value()` is the board it will become. */
module Boards {
  import opened Geometry

  /** Two 64-entry square arrays (colour WHITE/BLACK/EMPTY, type
      PAWN..KING/EMPTY) and the scalar state of the position. */
  datatype Board = Board(
    pieceColor: seq<int>,
    pieceType: seq<int>,
    side: int,
    xside: int,
    castle: int,
    ep: int,
    fifty: int,
    fullmove: int,
    check: bool)

  /** A candidate move: squares, flag word and promotion piece (EMPTY when
      the move does not promote). */
  datatype PotentialMove = PotentialMove(from: int, to: int, bits: int, promote: int)

  /** What every board the engine builds satisfies: 64 squares, a side to
      move and its opponent, a 4-bit castling word and an en-passant square
      or -1.  Square contents are left unconstrained, since a promotion
      read from long algebraic notation can store any piece number. */
  predicate Shaped(b: Board)
  {
    |b.pieceColor| == 64 && |b.pieceType| == 64
    && (b.side == WHITE || b.side == BLACK) && b.xside == 1 - b.side
    && 0 <= b.castle < 16 && -1 <= b.ep < 64
  }

  /** `board.pieceColor[i] === c`: an index off the array reads as
      undefined, which equals no colour. */
  predicate ColorIs(b: Board, i: int, c: int)
  {
    0 <= i < |b.pieceColor| && b.pieceColor[i] == c
  }

  /** `board.pieceType[i] === t`, off the array never. */
  predicate TypeIs(b: Board, i: int, t: int)
  {
    0 <= i < |b.pieceType| && b.pieceType[i] == t
  }

  /** A square is empty in both arrays, or holds a white or black piece. */
  predicate SquareWellFormed(c: int, t: int)
  {
    (c == EMPTY && t == EMPTY) || ((c == WHITE || c == BLACK) && PAWN <= t <= KING)
  }

  /** A board whose every square is well formed: what FEN can describe. */
  predicate WellFormed(b: Board)
  {
    Shaped(b) && forall i :: 0 <= i < 64 ==> SquareWellFormed(b.pieceColor[i], b.pieceType[i])
  }

  /** Every square holds a known piece number (PAWN..KING or EMPTY), so
      that its name can be looked up. */
  predicate TypesKnown(b: Board)
  {
    |b.pieceType| == 64 && forall i :: 0 <= i < 64 ==> PAWN <= b.pieceType[i] <= EMPTY
  }

  lemma WellFormedTypesKnown(b: Board)
    requires WellFormed(b)
    ensures TypesKnown(b)
  {
  }

  /** The colour and type of square i of the initial position. */
  function InitColor(i: int): int
    requires 0 <= i < 64
  {
    INIT_COLOR[i / 8][i % 8]
  }

  function InitPiece(i: int): int
    requires 0 <= i < 64
  {
    INIT_PIECE[i / 8][i % 8]
  }

  /** The board `createBoard` returns. */
  function InitialBoard(): Board
  {
    Board(seq(64, i requires 0 <= i < 64 => InitColor(i)),
          seq(64, i requires 0 <= i < 64 => InitPiece(i)),
          WHITE, BLACK, 15, -1, 0, 1, false)
  }

  /** The initial position: White on rows 6 and 7, Black on rows 0 and 1,
      pawns on rows 1 and 6, the back ranks R N B Q K B N R, the rest empty;
      White to move with all castling rights. */
  lemma InitialBoardContents(i: int)
    requires 0 <= i < 64
    ensures WellFormed(InitialBoard())
    ensures InitialBoard().pieceColor[i] ==
      (if i < 16 then BLACK else if i >= 48 then WHITE else EMPTY)
    ensures InitialBoard().pieceType[i] ==
      (if 16 <= i < 48 then EMPTY
       else if 8 <= i < 56 then PAWN
       else [ROOK, KNIGHT, BISHOP, QUEEN, KING, BISHOP, KNIGHT, ROOK][i % 8])
  {
    forall k | 0 <= k < 64
      ensures SquareWellFormed(InitialBoard().pieceColor[k], InitialBoard().pieceType[k])
    {
      InitRow(k);
    }
    InitRow(i);
  }

  lemma InitRow(i: int)
    requires 0 <= i < 64
    ensures InitColor(i) == (if i < 16 then BLACK else if i >= 48 then WHITE else EMPTY)
    ensures InitPiece(i) ==
      (if 16 <= i < 48 then EMPTY
       else if 8 <= i < 56 then PAWN
       else [ROOK, KNIGHT, BISHOP, QUEEN, KING, BISHOP, KNIGHT, ROOK][i % 8])
  {
    var row := i / 8;
    if row == 0 {} else if row == 1 {} else if row == 2 {} else if row == 3 {}
    else if row == 4 {} else if row == 5 {} else if row == 6 {} else {}
  }

  /** `createMove`: the fields as given, with PROMOTE_FLAG added whenever
      the promotion piece is not EMPTY (CreateMoveFlags). */
  function CreateMove(from: int, to: int, bits: int, promote: int): (m: PotentialMove)
    requires 0 <= bits < 64
    ensures m.from == from && m.to == to && m.promote == promote && 0 <= m.bits < 64
  {
    OrBelow(bits, PROMOTE_FLAG, 64);
    var b := if promote != EMPTY then BitOr(bits, PROMOTE_FLAG) else bits;
    PotentialMove(from, to, b, promote)
  }

  /** The flags of a created move: PROMOTE_FLAG exactly when the promotion
      piece is not EMPTY or the flag was passed in, every other flag as
      passed in. */
  lemma CreateMoveFlags(from: int, to: int, bits: int, promote: int)
    requires 0 <= bits < 64
    ensures var m := CreateMove(from, to, bits, promote);
      (HasBit(m.bits, PROMOTE_FLAG) <==> promote != EMPTY || HasBit(bits, PROMOTE_FLAG))
      && forall f :: IsFlag(f) && f != PROMOTE_FLAG ==> (HasBit(m.bits, f) <==> HasBit(bits, f))
  {
    PromoteBits(bits);
  }

  /** Adding PROMOTE_FLAG sets that flag and no other. */
  lemma PromoteBits(bits: int)
    requires 0 <= bits < 64
    ensures 0 <= BitOr(bits, PROMOTE_FLAG) < 64
    ensures forall f :: IsFlag(f) ==>
      (HasBit(BitOr(bits, PROMOTE_FLAG), f) <==> HasBit(bits, f) || f == PROMOTE_FLAG)
  {
    OrBelow(bits, PROMOTE_FLAG, 64);
    forall f | IsFlag(f)
      ensures HasBit(BitOr(bits, PROMOTE_FLAG), f) <==> HasBit(bits, f) || f == PROMOTE_FLAG
    {
      FlagOr(bits, PROMOTE_FLAG, f);
      assert HasBit(PROMOTE_FLAG, f) <==> f == PROMOTE_FLAG;
    }
  }

  /** The square-by-square copy loop of `createBoard` and
      `copyBoardUnfrozen`: both arrays take the given contents. */
  method CopySquares(colors: array<int>, types: array<int>, cs: seq<int>, ts: seq<int>)
    requires colors.Length == |cs| && types.Length == |ts| == |cs| && colors != types
    modifies colors, types
    ensures colors[..] == cs && types[..] == ts
  {
    var i := 0;
    while i < |cs|
      invariant 0 <= i <= |cs|
      invariant forall k :: 0 <= k < i ==> colors[k] == cs[k]
      invariant forall k :: 0 <= k < i ==> types[k] == ts[k]
    {
      colors[i] := cs[i];
      types[i] := ts[i];
      i := i + 1;
    }
    assert colors[..] == cs;
  }

  /** The working copy of a board that the engine writes square by square. */
  class MutableBoard {
    var pieceColor: array<int>
    var pieceType: array<int>
    var side: int
    var xside: int
    var castle: int
    var ep: int
    var fifty: int
    var fullmove: int
    var check: bool

    ghost predicate Valid()
      reads this
    {
      pieceColor.Length == 64 && pieceType.Length == 64 && pieceColor != pieceType
    }

    /** The board this copy stands for. */
    function Value(): Board
      reads this, pieceColor, pieceType
    {
      Board(pieceColor[..], pieceType[..], side, xside, castle, ep, fifty, fullmove, check)
    }

    /** `copyBoardUnfrozen`: a fresh copy of the squares and scalars of the
        original, with the check flag cleared. */
    constructor Copy(original: Board)
      requires |original.pieceColor| == 64 && |original.pieceType| == 64
      ensures Valid() && fresh(pieceColor) && fresh(pieceType)
      ensures Value() == original.(check := false)
    {
      var colors := new int[64];
      var types := new int[64];
      CopySquares(colors, types, original.pieceColor, original.pieceType);
      pieceColor, pieceType := colors, types;
      side, xside, castle, ep := original.side, original.xside, original.castle, original.ep;
      fifty, fullmove, check := original.fifty, original.fullmove, false;
      new;
    }

    /** `createBoard`: the initial position. */
    constructor Initial()
      ensures Valid() && fresh(pieceColor) && fresh(pieceType)
      ensures Value() == InitialBoard()
    {
      var colors := new int[64];
      var types := new int[64];
      CopySquares(colors, types, InitialBoard().pieceColor, InitialBoard().pieceType);
      pieceColor, pieceType := colors, types;
      side, xside, castle, ep := WHITE, BLACK, 15, -1;
      fifty, fullmove, check := 0, 1, false;
      new;
    }
  }
}
