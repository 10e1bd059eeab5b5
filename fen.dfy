/** Forsyth-Edwards Notation: `toFEN` writes a board as six space-separated
    fields (placement, active colour, castling rights, en-passant square,
    half-move clock, full-move number) and `parseFEN` with
    `parseFENMoves` reads them back onto a fresh board. */
module Fen {
  import opened Wrappers
  import opened Geometry
  import opened Text
  import opened Boards
  import opened Attack

  // ---------------------------------------------------------------------
  // Writing

  /** The count of empty squares written before a piece or at the end of
      a row, when there are any.  At most the eight squares of a row are
      ever pending, so the count is one digit (see FlushPrinted). */
  function Flush(e: nat): string
    requires e <= 8
  {
    if e > 0 then [DigitChar(e)] else ""
  }

  /** The one digit is how a count of one to eight prints. */
  lemma FlushPrinted(e: nat)
    requires 0 < e <= 8
    ensures Flush(e) == IntToString(e)
  {
    assert NatDigits(e) == [DigitChar(e)];
  }

  /** The name of a piece: upper case for White, lower case for any other
      colour.  A piece number outside the name table reads the name as
      undefined, which prints as "undefined" for White; for Black,
      lower-casing it throws (see Printable). */
  function PieceText(c: int, t: int): string
  {
    if PAWN <= t <= KING then
      if c == WHITE then [PIECE_NAMES[t]] else [LowerCase(PIECE_NAMES[t])]
    else "undefined"
  }

  /** A square `toFEN` can write without throwing. */
  predicate Printable(c: int, t: int)
  {
    t == EMPTY || PAWN <= t <= KING || c == WHITE
  }

  /** Square k can be written. */
  predicate SquarePrintable(b: Board, k: int)
    requires Shaped(b) && 0 <= k < 64
  {
    Printable(b.pieceColor[k], b.pieceType[k])
  }

  predicate BoardPrintable(b: Board)
    requires Shaped(b)
  {
    PrintableBelow(b, 64)
  }

  /** Squares 0..n-1 can be written. */
  predicate PrintableBelow(b: Board, n: int)
    requires Shaped(b) && n <= 64
  {
    forall k :: 0 <= k < n ==> SquarePrintable(b, k)
  }

  /** The text for squares j..end-1 of one row, with e empty squares
      pending before j. */
  function Run(b: Board, j: int, end: int, e: nat): string
    requires Shaped(b) && 0 <= j <= end <= 64 && e + (end - j) <= 8
    decreases end - j
  {
    if j == end then Flush(e)
    else if b.pieceType[j] == EMPTY then Run(b, j + 1, end, e + 1)
    else Flush(e) + PieceText(b.pieceColor[j], b.pieceType[j]) + Run(b, j + 1, end, 0)
  }

  /** The text for row `row` (0 is rank 8). */
  function RankText(b: Board, row: int): string
    requires Shaped(b) && 0 <= row < 8
  {
    Run(b, 8 * row, 8 * row + 8, 0)
  }

  function RankTexts(b: Board): (rs: seq<string>)
    requires Shaped(b)
    ensures |rs| == 8 && forall r :: 0 <= r < 8 ==> rs[r] == RankText(b, r)
  {
    [RankText(b, 0), RankText(b, 1), RankText(b, 2), RankText(b, 3),
     RankText(b, 4), RankText(b, 5), RankText(b, 6), RankText(b, 7)]
  }

  /** The placement field: the rows from rank 8 down, separated by '/'. */
  function PlacementText(b: Board): string
    requires Shaped(b)
  {
    Join(RankTexts(b), '/')
  }

  function SideText(side: int): string
  {
    if side == WHITE then "w" else "b"
  }

  /** "-" for no rights, otherwise the letters K, Q, k, q of the rights
      held, in that order. */
  function CastleText(castle: int): string
    requires 0 <= castle < 16
  {
    if castle == 0 then "-"
    else
      (if HasBit(castle, CASTLE_WHITE_KING_FLAG) then "K" else "")
      + (if HasBit(castle, CASTLE_WHITE_QUEEN_FLAG) then "Q" else "")
      + (if HasBit(castle, CASTLE_BLACK_KING_FLAG) then "k" else "")
      + (if HasBit(castle, CASTLE_BLACK_QUEEN_FLAG) then "q" else "")
  }

  function EpText(ep: int): string
    requires -1 <= ep < 64
  {
    if ep == -1 then "-" else ToNotation(ep)
  }

  function FenFields(b: Board): seq<string>
    requires Shaped(b)
  {
    [PlacementText(b), SideText(b.side), CastleText(b.castle), EpText(b.ep),
     IntToString(b.fifty), IntToString(b.fullmove)]
  }

  function FenText(b: Board): string
    requires Shaped(b)
  {
    Join(FenFields(b), ' ')
  }

  /** `toFEN(board)`: the text, or the TypeError thrown when a piece that
      is not White has no name. */
  function FenResult(b: Board): Result<string, string>
    requires Shaped(b)
  {
    if BoardPrintable(b) then Success(FenText(b)) else Failure("TypeError")
  }

  /** What square i makes `toFEN` write, with e empty squares pending:
      nothing for an empty square, else the count and the piece's name. */
  function Emit(b: Board, i: int, e: nat): string
    requires Shaped(b) && 0 <= i < 64 && e <= 8
  {
    if b.pieceType[i] == EMPTY then "" else Flush(e) + PieceText(b.pieceColor[i], b.pieceType[i])
  }

  /** The count of empty squares pending after square i. */
  function Pending(b: Board, i: int, e: nat): (p: nat)
    requires Shaped(b) && 0 <= i < 64
    ensures p <= e + 1
  {
    if b.pieceType[i] == EMPTY then e + 1 else 0
  }

  /** What `toFEN`'s square loop writes from square i on, with e empty
      squares pending: the last file of a row flushes the count and, before
      the last row, writes '/'. */
  function Scan(b: Board, i: int, e: nat): string
    requires Shaped(b) && 0 <= i <= 64 && (i < 64 ==> e <= i % 8)
    decreases 64 - i
  {
    if i == 64 then ""
    else if i % 8 == 7 then
      Emit(b, i, e) + Flush(Pending(b, i, e)) + (if i < 63 then "/" else "") + Scan(b, i + 1, 0)
    else Emit(b, i, e) + Scan(b, i + 1, Pending(b, i, e))
  }

  /** The loop writes the placement field. */
  lemma ScanPlacement(b: Board)
    requires Shaped(b)
    ensures Scan(b, 0, 0) == PlacementText(b)
  {
    ScanRanks(b, 0);
  }

  /** From the start of row r the loop writes rows r.. joined by '/'. */
  lemma {:induction false} ScanRanks(b: Board, r: int)
    requires Shaped(b) && 0 <= r < 8
    ensures Scan(b, 8 * r, 0) == Join(RankTexts(b)[r..], '/')
    decreases 8 - r
  {
    var rs := RankTexts(b);
    ScanRun(b, r, 8 * r, 0);
    assert rs[r] == Run(b, 8 * r, 8 * r + 8, 0);
    if r < 7 {
      ScanRanks(b, r + 1);
      assert rs[r..][1..] == rs[r + 1..];
      assert Join(rs[r..], '/') == rs[r] + "/" + Join(rs[r + 1..], '/');
    } else {
      assert rs[r..] == [rs[r]];
    }
  }

  /** Within row r, square i makes the loop write the rest of the row,
      then '/' and the rows after it. */
  lemma {:induction false} ScanRun(b: Board, r: int, i: int, e: nat)
    requires Shaped(b) && 0 <= r < 8 && 8 * r <= i < 8 * r + 8 && e <= i - 8 * r
    ensures Scan(b, i, e) == Run(b, i, 8 * r + 8, e) + (if r < 7 then "/" + Scan(b, 8 * r + 8, 0) else "")
    decreases 8 * r + 8 - i
  {
    var end := 8 * r + 8;
    assert i % 8 == i - 8 * r;
    if i == end - 1 {
      ScanRowLast(b, r, i, e);
    } else {
      var em, p := Emit(b, i, e), Pending(b, i, e);
      var tail := if r < 7 then "/" + Scan(b, end, 0) else "";
      RunStep(b, i, end, e);
      ScanInRowUnfold(b, i, e, "");
      assert "" + Scan(b, i, e) == Scan(b, i, e);
      ScanRun(b, r, i + 1, p);
      Regroup(em, Run(b, i + 1, end, p), tail);
    }
  }

  /** The last square of row r ends the row text. */
  lemma ScanRowLast(b: Board, r: int, i: int, e: nat)
    requires Shaped(b) && 0 <= r < 8 && i == 8 * r + 7 && e <= 7
    ensures Scan(b, i, e) == Run(b, i, 8 * r + 8, e) + (if r < 7 then "/" + Scan(b, 8 * r + 8, 0) else "")
  {
    var end := 8 * r + 8;
    var em, p := Emit(b, i, e), Pending(b, i, e);
    var tail := if r < 7 then "/" + Scan(b, end, 0) else "";
    RunStep(b, i, end, e);
    assert Run(b, i + 1, end, p) == Flush(p);
    var sl := if i < 63 then "/" else "";
    assert Scan(b, i, e) == em + Flush(p) + sl + Scan(b, i + 1, 0);
    assert sl + Scan(b, i + 1, 0) == tail;
    Regroup(em + Flush(p), sl, Scan(b, i + 1, 0));
  }

  lemma Regroup(x: string, y: string, z: string)
    ensures x + y + z == x + (y + z)
  {
  }

  /** One square of a row, as the row text writes it. */
  lemma RunStep(b: Board, i: int, end: int, e: nat)
    requires Shaped(b) && 0 <= i < end <= 64 && e + (end - i) <= 8
    ensures Run(b, i, end, e) == Emit(b, i, e) + Run(b, i + 1, end, Pending(b, i, e))
  {
  }

  /** The fields joined by spaces. */
  lemma FenTextFields(b: Board)
    requires Shaped(b)
    ensures FenText(b) == PlacementText(b) + " " + SideText(b.side) + " " + CastleText(b.castle)
      + " " + EpText(b.ep) + " " + IntToString(b.fifty) + " " + IntToString(b.fullmove)
  {
    var p, sd, c, ep := PlacementText(b), SideText(b.side), CastleText(b.castle), EpText(b.ep);
    var h, f := IntToString(b.fifty), IntToString(b.fullmove);
    assert [p] + [sd] == [p, sd];
    JoinSnoc([p], sd, ' ');
    assert [p, sd] + [c] == [p, sd, c];
    JoinSnoc([p, sd], c, ' ');
    assert [p, sd, c] + [ep] == [p, sd, c, ep];
    JoinSnoc([p, sd, c], ep, ' ');
    assert [p, sd, c, ep] + [h] == [p, sd, c, ep, h];
    JoinSnoc([p, sd, c, ep], h, ' ');
    assert [p, sd, c, ep, h] + [f] == FenFields(b);
    JoinSnoc([p, sd, c, ep, h], f, ' ');
  }

  /** `toFEN(board)`. */
  method ToFEN(b: Board) returns (r: Result<string, string>)
    requires Shaped(b)
    ensures r == FenResult(b)
  {
    var placement := WritePlacement(b);
    if placement.Failure? {
      return placement;
    }
    var result := placement.value + " " + (if b.side == WHITE then "w" else "b") + " ";
    var castle := CastleLetters(b.castle);
    result := result + castle + " ";
    if b.ep == -1 {
      result := result + "-";
    } else {
      result := result + ToNotation(b.ep);
    }
    result := result + " " + IntToString(b.fifty) + " " + IntToString(b.fullmove);
    FenTextFields(b);
    return Success(result);
  }

  /** The square loop of `toFEN`: the placement field, or the TypeError
      thrown at the first square that cannot be named. */
  method WritePlacement(b: Board) returns (r: Result<string, string>)
    requires Shaped(b)
    ensures r == if BoardPrintable(b) then Success(PlacementText(b)) else Failure("TypeError")
  {
    var result := "";
    var emptyBefore: nat := 0;
    for i := 0 to 64
      invariant Written(b, i, emptyBefore, result)
      invariant PrintableBelow(b, i)
    {
      var ok;
      ok, result, emptyBefore := WriteStep(b, i, result, emptyBefore);
      if !ok {
        return Failure("TypeError");
      }
      PrintableNext(b, i);
    }
    assert result + Scan(b, 64, emptyBefore) == result;
    ScanPlacement(b);
    return Success(result);
  }

  lemma PrintableNext(b: Board, i: int)
    requires Shaped(b) && 0 <= i < 64 && PrintableBelow(b, i) && SquarePrintable(b, i)
    ensures PrintableBelow(b, i + 1)
  {
  }

  /** The loop has written `result` before square i, e empty squares
      pending: with what it writes from there on, all it writes. */
  predicate Written(b: Board, i: int, e: nat, result: string)
    requires Shaped(b)
  {
    0 <= i <= 64 && (i < 64 ==> e <= i % 8) && result + Scan(b, i, e) == Scan(b, 0, 0)
  }

  /** One pass of the square loop of `toFEN`, at square i: false when
      naming the piece throws. */
  method WriteStep(b: Board, i: int, result: string, emptyBefore: nat) returns (ok: bool, after: string, pending: nat)
    requires Shaped(b) && 0 <= i < 64 && Written(b, i, emptyBefore, result)
    ensures ok == SquarePrintable(b, i)
    ensures ok ==> Written(b, i + 1, pending, after)
  {
    var text;
    ok, text, pending := WriteSquare(b, i, emptyBefore);
    after := result;
    if !ok {
      return;
    }
    after := result + text;
    if GetFile(i) == 7 {
      ghost var mid := after;
      after, pending := EndRow(i, after, pending);
      ScanRowEndUnfold(b, i, emptyBefore, result, mid, after);
    } else {
      ScanInRowUnfold(b, i, emptyBefore, result);
    }
    WrittenNext(b, i, emptyBefore, result, after, pending);
  }

  lemma WrittenNext(b: Board, i: int, e: nat, result: string, after: string, p: nat)
    requires Shaped(b) && 0 <= i < 64 && Written(b, i, e, result)
    requires i + 1 < 64 ==> p <= (i + 1) % 8
    requires result + Scan(b, i, e) == after + Scan(b, i + 1, p)
    ensures Written(b, i + 1, p, after)
  {
  }

  /** The end of a row in `toFEN`: the pending count, then '/' unless it
      is the last row.  `result += emptyBefore` prints the count, which is
      Flush (see FlushPrinted). */
  method EndRow(i: int, result: string, emptyBefore: nat) returns (after: string, pending: nat)
    requires emptyBefore <= 8
    ensures after == result + Flush(emptyBefore) + (if i < 63 then "/" else "") && pending == 0
  {
    after, pending := result, emptyBefore;
    if pending > 0 {
      after := after + Flush(pending);
      pending := 0;
    }
    if i < 63 {
      after := after + "/";
    }
  }

  /** The loop at the last square of a row: what was written before it,
      and what it writes, are followed by the later rows. */
  lemma ScanRowEndUnfold(b: Board, i: int, e: nat, before: string, mid: string, after: string)
    requires Shaped(b) && 0 <= i < 64 && e <= i % 8 && i % 8 == 7
    requires mid == before + Emit(b, i, e)
    requires after == mid + Flush(Pending(b, i, e)) + (if i < 63 then "/" else "")
    ensures before + Scan(b, i, e) == after + Scan(b, i + 1, 0)
  {
    var em, fl, sl, rest := Emit(b, i, e), Flush(Pending(b, i, e)), (if i < 63 then "/" else ""), Scan(b, i + 1, 0);
    assert Scan(b, i, e) == em + fl + sl + rest;
    Regroup(before, em, fl);
    Regroup(before + em + fl, sl, rest);
    Regroup(before, em + fl, sl + rest);
    Regroup(em, fl, sl + rest);
    Regroup(em + fl, sl, rest);
  }

  /** The loop at a square inside a row. */
  lemma ScanInRowUnfold(b: Board, i: int, e: nat, before: string)
    requires Shaped(b) && 0 <= i < 64 && e <= i % 8 && i % 8 != 7
    ensures (i + 1) % 8 == i % 8 + 1
    ensures before + Scan(b, i, e) == before + Emit(b, i, e) + Scan(b, i + 1, Pending(b, i, e))
  {
    NextInRow(i);
    assert Scan(b, i, e) == Emit(b, i, e) + Scan(b, i + 1, Pending(b, i, e));
    Regroup(before, Emit(b, i, e), Scan(b, i + 1, Pending(b, i, e)));
  }

  /** The square after one inside a row is on the next file. */
  lemma NextInRow(i: int)
    requires 0 <= i && i % 8 != 7
    ensures (i + 1) % 8 == i % 8 + 1
  {
  }

  /** What `toFEN` writes for square i: false when naming the piece
      throws. */
  method WriteSquare(b: Board, i: int, emptyBefore: nat) returns (ok: bool, text: string, pending: nat)
    requires Shaped(b) && 0 <= i < 64 && emptyBefore <= 8
    ensures ok == Printable(b.pieceColor[i], b.pieceType[i])
    ensures ok ==> text == Emit(b, i, emptyBefore) && pending == Pending(b, i, emptyBefore)
  {
    var color, kind := b.pieceColor[i], b.pieceType[i];
    text, pending, ok := "", emptyBefore, true;
    if kind == EMPTY {
      pending := emptyBefore + 1;
    } else {
      if emptyBefore > 0 {
        text := Flush(emptyBefore);
        pending := 0;
      }
      if color == WHITE {
        text := text + (if PAWN <= kind <= KING then [PIECE_NAMES[kind]] else "undefined");
      } else if PAWN <= kind <= KING {
        text := text + [LowerCase(PIECE_NAMES[kind])];
      } else {
        ok := false;
      }
    }
  }

  /** The castling field as `toFEN` builds it, letter by letter. */
  method CastleLetters(castle: int) returns (s: string)
    requires 0 <= castle < 16
    ensures s == CastleText(castle)
  {
    if castle == 0 {
      return "-";
    }
    s := "";
    if HasBit(castle, CASTLE_WHITE_KING_FLAG) {
      s := s + "K";
    }
    if HasBit(castle, CASTLE_WHITE_QUEEN_FLAG) {
      s := s + "Q";
    }
    if HasBit(castle, CASTLE_BLACK_KING_FLAG) {
      s := s + "k";
    }
    if HasBit(castle, CASTLE_BLACK_QUEEN_FLAG) {
      s := s + "q";
    }
  }

  // ---------------------------------------------------------------------
  // Reading

  /** The colour and type a placement letter stands for. */
  function PieceOfChar(ch: char): (r: Option<(int, int)>)
    ensures r.Some? ==> (r.value.0 == WHITE || r.value.0 == BLACK) && PAWN <= r.value.1 <= KING
  {
    if ch == 'p' then Some((BLACK, PAWN))
    else if ch == 'n' then Some((BLACK, KNIGHT))
    else if ch == 'b' then Some((BLACK, BISHOP))
    else if ch == 'r' then Some((BLACK, ROOK))
    else if ch == 'q' then Some((BLACK, QUEEN))
    else if ch == 'k' then Some((BLACK, KING))
    else if ch == 'P' then Some((WHITE, PAWN))
    else if ch == 'N' then Some((WHITE, KNIGHT))
    else if ch == 'B' then Some((WHITE, BISHOP))
    else if ch == 'R' then Some((WHITE, ROOK))
    else if ch == 'Q' then Some((WHITE, QUEEN))
    else if ch == 'K' then Some((WHITE, KING))
    else None
  }

  /** The squares after reading the rest `s` of the text of row i (rank
      7 - i) with `file` files already read: a letter places its piece on
      the current file and moves one file on, a digit 1..8 skips that many
      files, anything else throws.  As written, the row is not required
      to add up to eight files: a short row leaves the rest empty, and
      digits may carry the file count past the h-file. */
  function RankWrite(cs: seq<int>, ts: seq<int>, i: int, s: string, file: int): (r: Result<(seq<int>, seq<int>), string>)
    requires |cs| == 64 && |ts| == 64 && 0 <= i < 8 && file >= 0
    ensures r.Success? ==> |r.value.0| == 64 && |r.value.1| == 64
    ensures r.Failure? ==> r == Failure("Unexpected character") || r == Failure("piece beyond the h-file")
    decreases |s|
  {
    if |s| == 0 then Success((cs, ts))
    else
      var ch := s[0];
      match PieceOfChar(ch)
      case Some((c, t)) =>
        if file >= 8 then Failure("piece beyond the h-file")
        else
          var pos := GetSquare(file, 7 - i);
          RankWrite(cs[pos := c], ts[pos := t], i, s[1..], file + 1)
      case None =>
        if '1' <= ch <= '8' then RankWrite(cs, ts, i, s[1..], file + Cdiff(ch, '0'))
        else Failure("Unexpected character")
  }

  /** The squares after reading rows i..7. */
  function RanksWrite(cs: seq<int>, ts: seq<int>, ranks: seq<string>, i: int): (r: Result<(seq<int>, seq<int>), string>)
    requires |cs| == 64 && |ts| == 64 && |ranks| == 8 && 0 <= i <= 8
    ensures r.Success? ==> |r.value.0| == 64 && |r.value.1| == 64
    decreases 8 - i
  {
    if i == 8 then Success((cs, ts))
    else
      match RankWrite(cs, ts, i, ranks[i], 0)
      case Failure(e) => Failure(e)
      case Success((c2, t2)) => RanksWrite(c2, t2, ranks, i + 1)
  }

  /** 64 empty squares. */
  function NoPieces(): (r: seq<int>)
    ensures |r| == 64 && forall k :: 0 <= k < 64 ==> r[k] == EMPTY
  {
    seq(64, k => EMPTY)
  }

  /** `parseFENMoves`: eight rows separated by '/', read onto an empty
      board. */
  function Placement(str: string): (r: Result<(seq<int>, seq<int>), string>)
    ensures r.Success? ==> |r.value.0| == 64 && |r.value.1| == 64
  {
    var ranks := Split(str, '/');
    if |ranks| != 8 then Failure("Expected 8 rows in position")
    else RanksWrite(NoPieces(), NoPieces(), ranks, 0)
  }

  function SideField(s: string): Result<int, string>
  {
    if s == "w" then Success(WHITE)
    else if s == "b" then Success(BLACK)
    else Failure("Unexpected active color")
  }

  function CastleFlagOf(ch: char): int
  {
    if ch == 'K' then CASTLE_WHITE_KING_FLAG
    else if ch == 'Q' then CASTLE_WHITE_QUEEN_FLAG
    else if ch == 'k' then CASTLE_BLACK_KING_FLAG
    else if ch == 'q' then CASTLE_BLACK_QUEEN_FLAG
    else 0
  }

  /** The rights word after or-ing in the flag of each letter of s. */
  function CastleChars(s: string, acc: int): (r: Result<int, string>)
    requires 0 <= acc < 16
    ensures r.Success? ==> 0 <= r.value < 16
    decreases |s|
  {
    if |s| == 0 then Success(acc)
    else
      var f := CastleFlagOf(s[0]);
      if f == 0 then Failure("Unexpected character in castling availability")
      else
        OrBelow(acc, f, 16);
        CastleChars(s[1..], BitOr(acc, f))
  }

  function CastleField(s: string): (r: Result<int, string>)
    ensures r.Success? ==> 0 <= r.value < 16
  {
    if s == "-" then Success(0) else CastleChars(s, 0)
  }

  /** "-" or a square name; the characters after the name are ignored. */
  function EpField(s: string): (r: Result<int, string>)
    ensures r.Success? ==> -1 <= r.value < 64
  {
    if s == "-" then Success(-1)
    else if |s| >= 2 && IsSquareName(s[0], s[1]) then
      FileRankSquare(Cdiff(s[0], 'a'), Cdiff(s[1], '1'));
      Success(NamedSquare(s[0], s[1]))
    else Failure("Unexpected en-passant square")
  }

  function NumberField(s: string): Result<int, string>
  {
    match ParseInt(s)
    case None => Failure("Not a number")
    case Some(n) => Success(n)
  }

  /** `parseFEN(fen)`: six fields, read in order; the first field that
      cannot be read decides the error.  The check flag is computed on the
      board read. */
  function FenBoard(fen: string): (r: Result<Board, string>)
    ensures r.Success? ==> Shaped(r.value)
  {
    var cols := Split(fen, ' ');
    if |cols| != 6 then Failure("expected 6 columns in FEN")
    else
      var squares :- Placement(cols[0]);
      FieldsBoard(squares, cols)
  }

  /** The board the last five fields give on the squares read from the
      first. */
  function FieldsBoard(squares: (seq<int>, seq<int>), cols: seq<string>): (r: Result<Board, string>)
    requires |squares.0| == 64 && |squares.1| == 64 && |cols| == 6
    ensures r.Success? ==> Shaped(r.value)
  {
    var side :- SideField(cols[1]);
    var castle :- CastleField(cols[2]);
    var ep :- EpField(cols[3]);
    CountersBoard(squares, side, castle, ep, cols[4], cols[5])
  }

  /** The board the two move counters complete. */
  function CountersBoard(squares: (seq<int>, seq<int>), side: int, castle: int, ep: int,
                         fiftyText: string, fullmoveText: string): (r: Result<Board, string>)
    requires |squares.0| == 64 && |squares.1| == 64 && (side == WHITE || side == BLACK)
    requires 0 <= castle < 16 && -1 <= ep < 64
    ensures r.Success? ==> Shaped(r.value)
  {
    var fifty :- NumberField(fiftyText);
    var fullmove :- NumberField(fullmoveText);
    Success(Described(squares, side, castle, ep, fifty, fullmove))
  }

  /** The board six fields describe, its check flag computed on it. */
  function Described(squares: (seq<int>, seq<int>), side: int, castle: int, ep: int, fifty: int, fullmove: int): (r: Board)
    requires |squares.0| == 64 && |squares.1| == 64 && (side == WHITE || side == BLACK)
    requires 0 <= castle < 16 && -1 <= ep < 64
    ensures Shaped(r) && r.side == side && r.castle == castle && r.ep == ep
    ensures r.fifty == fifty && r.fullmove == fullmove
    ensures r.pieceColor == squares.0 && r.pieceType == squares.1
  {
    var b := Board(squares.0, squares.1, side, 1 - side, castle, ep, fifty, fullmove, false);
    b.(check := InCheck(b, side))
  }

  /** `parseFEN(fen)`: reads the six fields onto a fresh board in the
      initial position, field by field; the thrown errors are Failures. */
  method ParseFEN(fen: string) returns (r: Result<Board, string>)
    ensures r == FenBoard(fen)
  {
    var columns := Split(fen, ' ');
    if |columns| != 6 {
      return Failure("expected 6 columns in FEN");
    }
    var board := new MutableBoard.Initial();
    var failure := ParseFENMoves(board, columns[0]);
    if failure.Some? {
      return Failure(failure.value);
    }
    r := ReadFields(board, columns, Placement(columns[0]).value);
  }

  /** The remaining five fields of `parseFEN`, read onto a board whose
      squares are read already, and the check flag computed last. */
  method ReadFields(board: MutableBoard, columns: seq<string>, ghost squares: (seq<int>, seq<int>)) returns (r: Result<Board, string>)
    requires board.Valid() && |columns| == 6
    requires board.pieceColor[..] == squares.0 && board.pieceType[..] == squares.1
    modifies board
    ensures r == FieldsBoard(squares, columns)
  {
    var side := ParseSide(columns[1]);
    if side.Failure? {
      return Failure(side.error);
    }
    board.side, board.xside := side.value, 1 - side.value;
    var castle := ParseCastling(columns[2]);
    if castle.Failure? {
      return Failure(castle.error);
    }
    board.castle := castle.value;
    var ep := ParseEnPassant(columns[3]);
    if ep.Failure? {
      return Failure(ep.error);
    }
    board.ep := ep.value;
    r := ReadCounters(board, columns[4], columns[5], squares);
  }

  /** The two move counters of `parseFEN`, then the check flag computed on
      the board read. */
  method ReadCounters(board: MutableBoard, fiftyText: string, fullmoveText: string,
                      ghost squares: (seq<int>, seq<int>)) returns (r: Result<Board, string>)
    requires board.Valid() && board.pieceColor[..] == squares.0 && board.pieceType[..] == squares.1
    requires (board.side == WHITE || board.side == BLACK) && board.xside == 1 - board.side
    requires 0 <= board.castle < 16 && -1 <= board.ep < 64
    modifies board
    ensures r == CountersBoard(squares, old(board.side), old(board.castle), old(board.ep), fiftyText, fullmoveText)
  {
    var fifty := ParseNumber(fiftyText);
    if fifty.Failure? {
      return Failure(fifty.error);
    }
    var fullmove := ParseNumber(fullmoveText);
    if fullmove.Failure? {
      return Failure(fullmove.error);
    }
    board.fifty, board.fullmove := fifty.value, fullmove.value;
    var read := board.Value();
    ReadBoard(read, squares, read.side, read.castle, read.ep, fifty.value, fullmove.value);
    var checked := IsInCheck(read, read.side);
    board.check := checked;
    assert board.Value() == read.(check := checked);
    return Success(board.Value());
  }

  /** The active-colour field: "w" or "b". */
  method ParseSide(s: string) returns (r: Result<int, string>)
    ensures r == SideField(s)
  {
    if s == "w" {
      return Success(WHITE);
    } else if s == "b" {
      return Success(BLACK);
    }
    return Failure("Unexpected active color");
  }

  /** The en-passant field: "-" is -1, otherwise the square named by the
      first two characters. */
  method ParseEnPassant(s: string) returns (r: Result<int, string>)
    ensures r == EpField(s)
  {
    if s == "-" {
      return Success(-1);
    }
    if |s| >= 2 && IsSquareName(s[0], s[1]) {
      FileRankSquare(Cdiff(s[0], 'a'), Cdiff(s[1], '1'));
      return Success(GetSquare(Cdiff(s[0], 'a'), Cdiff(s[1], '1')));
    }
    return Failure("Unexpected en-passant square");
  }

  /** A move-counter field, read with `parseInt`. */
  method ParseNumber(s: string) returns (r: Result<int, string>)
    ensures r == NumberField(s)
  {
    var n := ParseInt(s);
    if n.None? {
      return Failure("Not a number");
    }
    return Success(n.value);
  }

  /** The board read, field by field, is the one the fields describe. */
  lemma ReadBoard(b: Board, squares: (seq<int>, seq<int>), side: int, castle: int, ep: int, fifty: int, fullmove: int)
    requires |squares.0| == 64 && |squares.1| == 64 && (side == WHITE || side == BLACK)
    requires 0 <= castle < 16 && -1 <= ep < 64
    requires b.pieceColor == squares.0 && b.pieceType == squares.1 && b.side == side && b.xside == 1 - side
    requires b.castle == castle && b.ep == ep && b.fifty == fifty && b.fullmove == fullmove
    ensures b.(check := InCheck(b, side)) == Described(squares, side, castle, ep, fifty, fullmove)
  {
    var d := Board(squares.0, squares.1, side, 1 - side, castle, ep, fifty, fullmove, false);
    InCheckSquares(b, d, side);
  }

  /** The castling field of `parseFEN`: "-", or letters whose flags are
      or-ed together one by one. */
  method ParseCastling(s: string) returns (r: Result<int, string>)
    ensures r == CastleField(s)
  {
    var castle := 0;
    if s == "-" {
      return Success(castle);
    }
    for n := 0 to |s|
      invariant 0 <= castle < 16
      invariant CastleChars(s[n..], castle) == CastleChars(s, 0)
    {
      assert s[n..][0] == s[n] && s[n..][1..] == s[n + 1..];
      var flag := CastleFlagOf(s[n]);
      if flag == 0 {
        return Failure("Unexpected character in castling availability");
      }
      OrBelow(castle, flag, 16);
      castle := BitOr(castle, flag);
    }
    return Success(castle);
  }

  /** `parseFENMoves(board, str)`: eight rows separated by '/', read onto
      fresh empty square arrays of the board, which keeps its other
      fields. */
  method ParseFENMoves(nb: MutableBoard, str: string) returns (failure: Option<string>)
    modifies nb
    ensures nb.side == old(nb.side) && nb.xside == old(nb.xside) && nb.castle == old(nb.castle)
    ensures nb.ep == old(nb.ep) && nb.fifty == old(nb.fifty) && nb.fullmove == old(nb.fullmove)
    ensures nb.check == old(nb.check)
    ensures Placement(str).Failure? ==> failure == Some(Placement(str).error)
    ensures Placement(str).Success? ==>
      failure.None? && nb.Valid() && fresh(nb.pieceColor) && fresh(nb.pieceType)
      && nb.pieceColor[..] == Placement(str).value.0 && nb.pieceType[..] == Placement(str).value.1
  {
    var ranks := Split(str, '/');
    if |ranks| != 8 {
      return Some("Expected 8 rows in position");
    }
    var colors := EmptySquares();
    var types := EmptySquares();
    nb.pieceColor, nb.pieceType := colors, types;
    assert nb.pieceColor[..] == NoPieces() && nb.pieceType[..] == NoPieces();
    for i := 0 to 8
      invariant nb.Valid() && fresh(nb.pieceColor) && fresh(nb.pieceType)
      invariant nb.side == old(nb.side) && nb.xside == old(nb.xside) && nb.castle == old(nb.castle)
      invariant nb.ep == old(nb.ep) && nb.fifty == old(nb.fifty) && nb.fullmove == old(nb.fullmove)
      invariant nb.check == old(nb.check)
      invariant RanksWrite(nb.pieceColor[..], nb.pieceType[..], ranks, i) == Placement(str)
    {
      var rankFailure := ReadRank(nb.pieceColor, nb.pieceType, i, ranks[i]);
      if rankFailure.Some? {
        return rankFailure;
      }
    }
    return None;
  }

  /** A fresh array of 64 EMPTY squares. */
  method EmptySquares() returns (a: array<int>)
    ensures fresh(a) && a[..] == NoPieces()
  {
    a := new int[64];
    for i := 0 to 64
      invariant forall k :: 0 <= k < i ==> a[k] == EMPTY
    {
      a[i] := EMPTY;
    }
  }

  /** The inner loop of `parseFENMoves`: reads the text of row i (rank
      7 - i) onto the square arrays. */
  method ReadRank(colors: array<int>, types: array<int>, i: int, rank: string) returns (failure: Option<string>)
    requires colors.Length == 64 && types.Length == 64 && colors != types && 0 <= i < 8
    modifies colors, types
    ensures var r := RankWrite(old(colors[..]), old(types[..]), i, rank, 0);
      (r.Failure? ==> failure == Some(r.error))
      && (r.Success? ==> failure.None? && colors[..] == r.value.0 && types[..] == r.value.1)
  {
    var file := 0;
    for n := 0 to |rank|
      invariant file >= 0
      invariant RankWrite(colors[..], types[..], i, rank[n..], file) == RankWrite(old(colors[..]), old(types[..]), i, rank, 0)
    {
      assert rank[n..] == [rank[n]] + rank[n + 1..];
      file, failure := ReadChar(colors, types, i, rank[n], rank[n + 1..], file);
      if failure.Some? {
        return;
      }
    }
    assert rank[|rank|..] == "";
    return None;
  }

  /** One character of a row: a piece is placed on the next file, a digit
      skips that many files, anything else is refused. */
  method ReadChar(colors: array<int>, types: array<int>, i: int, c: char, rest: string, file: int)
    returns (next: int, failure: Option<string>)
    requires colors.Length == 64 && types.Length == 64 && colors != types && 0 <= i < 8 && file >= 0
    modifies colors, types
    ensures next >= 0
    ensures var r := RankWrite(old(colors[..]), old(types[..]), i, [c] + rest, file);
      if failure.Some? then r == Failure(failure.value)
      else RankWrite(colors[..], types[..], i, rest, next) == r
  {
    ghost var s := [c] + rest;
    assert s[0] == c && s[1..] == rest;
    next, failure := file, None;
    var piece := PieceOfChar(c);
    if piece.Some? {
      if file >= 8 {
        return file, Some("piece beyond the h-file");
      }
      var pos := GetSquare(file, 7 - i);
      colors[pos] := piece.value.0;
      types[pos] := piece.value.1;
      next := file + 1;
    } else if '1' <= c <= '8' {
      next := file + Cdiff(c, '0');
    } else {
      failure := Some("Unexpected character");
    }
  }

  // ---------------------------------------------------------------------
  // What the text depends on

  /** The text depends on the squares and the scalars it writes, and not
      on the check flag or xside. */
  lemma FenTextSquares(b1: Board, b2: Board)
    requires Shaped(b1) && Shaped(b2)
    requires b1.pieceColor == b2.pieceColor && b1.pieceType == b2.pieceType
    requires b1.side == b2.side && b1.castle == b2.castle && b1.ep == b2.ep
    requires b1.fifty == b2.fifty && b1.fullmove == b2.fullmove
    ensures FenResult(b1) == FenResult(b2)
  {
    assert PrintableBelow(b1, 64) == PrintableBelow(b2, 64) by {
      assert forall k :: 0 <= k < 64 ==> SquarePrintable(b1, k) == SquarePrintable(b2, k);
    }
    forall r | 0 <= r < 8
      ensures RankText(b1, r) == RankText(b2, r)
    {
      RunSame(b1, b2, 8 * r, 8 * r + 8, 0);
    }
    assert RankTexts(b1) == RankTexts(b2);
  }

  lemma {:induction false} RunSame(b1: Board, b2: Board, j: int, end: int, e: nat)
    requires Shaped(b1) && Shaped(b2)
    requires b1.pieceColor == b2.pieceColor && b1.pieceType == b2.pieceType
    requires 0 <= j <= end <= 64 && e + (end - j) <= 8
    ensures Run(b1, j, end, e) == Run(b2, j, end, e)
    decreases end - j
  {
    if j < end {
      if b1.pieceType[j] == EMPTY {
        RunSame(b1, b2, j + 1, end, e + 1);
      } else {
        RunSame(b1, b2, j + 1, end, 0);
      }
    }
  }

  // ---------------------------------------------------------------------
  // Reading back what was written

  /** Reading the text of a well-formed board gives the board back, with
      the check flag recomputed from the position. */
  lemma FenRoundTrip(b: Board)
    requires WellFormed(b)
    ensures FenResult(b).Success?
    ensures FenBoard(FenResult(b).value) == Success(b.(check := InCheck(b, b.side)))
  {
    FieldsRead(b);
    FenBoardReads(FenText(b), FenFields(b), (b.pieceColor, b.pieceType), b.side, b.castle, b.ep, b.fifty, b.fullmove);
    var back := Board(b.pieceColor, b.pieceType, b.side, 1 - b.side, b.castle, b.ep, b.fifty, b.fullmove, false);
    InCheckSquares(back, b, b.side);
    var x := InCheck(b, b.side);
    assert InCheck(back, b.side) == x;
    assert back.(check := x) == b.(check := x);
    assert Described((b.pieceColor, b.pieceType), b.side, b.castle, b.ep, b.fifty, b.fullmove) == b.(check := x);
    PrintableWellFormed(b);
  }

  /** The text of a well-formed board splits into its six fields, and each
      reads back as the part of the board it was written from. */
  lemma FieldsRead(b: Board)
    requires WellFormed(b)
    ensures var fs := FenFields(b);
      Split(FenText(b), ' ') == fs && |fs| == 6
      && Placement(fs[0]) == Success((b.pieceColor, b.pieceType)) && SideField(fs[1]) == Success(b.side)
      && CastleField(fs[2]) == Success(b.castle) && EpField(fs[3]) == Success(b.ep)
      && NumberField(fs[4]) == Success(b.fifty) && NumberField(fs[5]) == Success(b.fullmove)
  {
    FieldsSplit(b);
    FieldValues(b);
  }

  lemma FieldsSplit(b: Board)
    requires WellFormed(b)
    ensures Split(FenText(b), ' ') == FenFields(b)
  {
    var fs := FenFields(b);
    PlacementClean(b);
    assert ' ' !in SideText(b.side) && ' ' !in CastleText(b.castle) && ' ' !in EpText(b.ep);
    forall k | 0 <= k < 6
      ensures ' ' !in fs[k]
    {
    }
    SplitJoin(fs, ' ');
  }

  lemma FieldValues(b: Board)
    requires WellFormed(b)
    ensures Placement(PlacementText(b)) == Success((b.pieceColor, b.pieceType))
    ensures SideField(SideText(b.side)) == Success(b.side)
    ensures CastleField(CastleText(b.castle)) == Success(b.castle)
    ensures EpField(EpText(b.ep)) == Success(b.ep)
    ensures NumberField(IntToString(b.fifty)) == Success(b.fifty)
    ensures NumberField(IntToString(b.fullmove)) == Success(b.fullmove)
  {
    PlacementRoundTrip(b);
    CastleRoundTrip(b.castle);
    if b.ep != -1 {
      NotationRoundTrip(b.ep);
    }
    ParseIntToString(b.fifty);
    ParseIntToString(b.fullmove);
  }

  /** A well-formed board can be written. */
  lemma PrintableWellFormed(b: Board)
    requires WellFormed(b)
    ensures FenResult(b) == Success(FenText(b))
  {
    assert BoardPrintable(b) by {
      forall k | 0 <= k < 64
        ensures SquarePrintable(b, k)
      {
        assert SquareWellFormed(b.pieceColor[k], b.pieceType[k]);
      }
    }
  }

  /** `parseFEN` on six fields that each read: the board they describe. */
  lemma FenBoardReads(fen: string, cols: seq<string>, squares: (seq<int>, seq<int>),
                      side: int, castle: int, ep: int, fifty: int, fullmove: int)
    requires Split(fen, ' ') == cols && |cols| == 6
    requires Placement(cols[0]) == Success(squares) && SideField(cols[1]) == Success(side)
    requires CastleField(cols[2]) == Success(castle) && EpField(cols[3]) == Success(ep)
    requires NumberField(cols[4]) == Success(fifty) && NumberField(cols[5]) == Success(fullmove)
    ensures FenBoard(fen) == Success(Described(squares, side, castle, ep, fifty, fullmove))
  {
  }

  /** The placement field has no space, and its rows no '/'. */
  lemma PlacementClean(b: Board)
    requires Shaped(b)
    ensures ' ' !in PlacementText(b)
    ensures forall r :: 0 <= r < 8 ==> '/' !in RankTexts(b)[r]
  {
    var rs := RankTexts(b);
    forall r | 0 <= r < 8
      ensures ' ' !in rs[r] && '/' !in rs[r]
    {
      RunClean(b, 8 * r, 8 * r + 8, 0);
    }
    JoinAvoids(rs, '/', ' ');
  }

  lemma {:induction false} RunClean(b: Board, j: int, end: int, e: nat)
    requires Shaped(b) && 0 <= j <= end <= 64 && e + (end - j) <= 8
    ensures ' ' !in Run(b, j, end, e) && '/' !in Run(b, j, end, e)
    decreases end - j
  {
    if j < end {
      RunClean(b, j + 1, end, e + 1);
      RunClean(b, j + 1, end, 0);
    }
  }

  /** The squares of `s` below n, EMPTY from n on. */
  function Filled(s: seq<int>, n: int): (r: seq<int>)
    requires |s| == 64
    ensures |r| == 64
  {
    seq(64, k requires 0 <= k < 64 => if k < n then s[k] else EMPTY)
  }

  /** Reading the placement field of a well-formed board gives its squares. */
  lemma PlacementRoundTrip(b: Board)
    requires WellFormed(b)
    ensures Placement(PlacementText(b)) == Success((b.pieceColor, b.pieceType))
  {
    PlacementClean(b);
    SplitJoin(RankTexts(b), '/');
    assert Filled(b.pieceColor, 0) == NoPieces();
    assert Filled(b.pieceType, 0) == NoPieces();
    RanksRoundTrip(b, 0);
    assert Filled(b.pieceColor, 64) == b.pieceColor;
    assert Filled(b.pieceType, 64) == b.pieceType;
  }

  lemma {:induction false} RanksRoundTrip(b: Board, i: int)
    requires WellFormed(b) && 0 <= i <= 8
    ensures RanksWrite(Filled(b.pieceColor, 8 * i), Filled(b.pieceType, 8 * i), RankTexts(b), i)
         == Success((Filled(b.pieceColor, 64), Filled(b.pieceType, 64)))
    decreases 8 - i
  {
    if i < 8 {
      var cs, ts := Filled(b.pieceColor, 8 * (i + 1)), Filled(b.pieceType, 8 * (i + 1));
      RowRead(b, i);
      RanksStep(Filled(b.pieceColor, 8 * i), Filled(b.pieceType, 8 * i), RankTexts(b), i, cs, ts);
      RanksRoundTrip(b, i + 1);
    }
  }

  /** A row read without error passes its squares on to the next row. */
  lemma RanksStep(cs: seq<int>, ts: seq<int>, ranks: seq<string>, i: int, cs1: seq<int>, ts1: seq<int>)
    requires |cs| == 64 && |ts| == 64 && |ranks| == 8 && 0 <= i < 8
    requires RankWrite(cs, ts, i, ranks[i], 0) == Success((cs1, ts1))
    ensures RanksWrite(cs, ts, ranks, i) == RanksWrite(cs1, ts1, ranks, i + 1)
  {
  }

  /** Reading the text of row i fills in its eight squares. */
  lemma RowRead(b: Board, i: int)
    requires WellFormed(b) && 0 <= i < 8
    ensures RankWrite(Filled(b.pieceColor, 8 * i), Filled(b.pieceType, 8 * i), i, RankTexts(b)[i], 0)
         == Success((Filled(b.pieceColor, 8 * (i + 1)), Filled(b.pieceType, 8 * (i + 1))))
  {
    var j := 8 * i;
    assert RankTexts(b)[i] == Run(b, j, j + 8, 0);
    RunRoundTrip(b, i, j, 0);
    assert j - 0 - 8 * i == 0 && j + 8 == 8 * (i + 1);
  }

  /** Reading the text of squares j.. of row i, with e empty squares
      pending, onto the squares before j. */
  function RowRest(b: Board, i: int, j: int, e: nat): Result<(seq<int>, seq<int>), string>
    requires Shaped(b) && 0 <= i < 8 && 8 * i <= j <= 8 * i + 8 && e <= j - 8 * i
  {
    RankWrite(Filled(b.pieceColor, j), Filled(b.pieceType, j), i, Run(b, j, 8 * i + 8, e), j - e - 8 * i)
  }

  /** The squares up to the end of row i. */
  function RowDone(b: Board, i: int): Result<(seq<int>, seq<int>), string>
    requires Shaped(b) && 0 <= i < 8
  {
    Success((Filled(b.pieceColor, 8 * i + 8), Filled(b.pieceType, 8 * i + 8)))
  }

  /** Reading the text of squares j.. of row i, with e empty squares
      pending, fills in those squares. */
  lemma {:induction false} RunRoundTrip(b: Board, i: int, j: int, e: nat)
    requires WellFormed(b) && 0 <= i < 8 && 8 * i <= j <= 8 * i + 8 && e <= j - 8 * i
    ensures RowRest(b, i, j, e) == RowDone(b, i)
    decreases 8 * i + 8 - j, 1
  {
    if j == 8 * i + 8 {
      RunEnd(b, i, e);
    } else if b.pieceType[j] == EMPTY {
      EmptyRunRoundTrip(b, i, j, e);
    } else {
      PieceRunRoundTrip(b, i, j, e);
    }
  }

  /** RunRoundTrip when square j is empty. */
  lemma {:induction false} EmptyRunRoundTrip(b: Board, i: int, j: int, e: nat)
    requires WellFormed(b) && 0 <= i < 8 && 8 * i <= j < 8 * i + 8 && e <= j - 8 * i
    requires b.pieceType[j] == EMPTY
    ensures RowRest(b, i, j, e) == RowDone(b, i)
    decreases 8 * i + 8 - j, 0
  {
    EmptyRunRead(b, i, j, e);
    RunRoundTrip(b, i, j + 1, e + 1);
  }

  /** RunRoundTrip when square j holds a piece. */
  lemma {:induction false} PieceRunRoundTrip(b: Board, i: int, j: int, e: nat)
    requires WellFormed(b) && 0 <= i < 8 && 8 * i <= j < 8 * i + 8 && e <= j - 8 * i
    requires b.pieceType[j] != EMPTY
    ensures RowRest(b, i, j, e) == RowDone(b, i)
    decreases 8 * i + 8 - j, 0
  {
    assert SquareWellFormed(b.pieceColor[j], b.pieceType[j]);
    PieceRunRead(b, i, j, e);
    RunRoundTrip(b, i, j + 1, 0);
  }

  /** At the end of the row only the pending count is left to read. */
  lemma RunEnd(b: Board, i: int, e: nat)
    requires WellFormed(b) && 0 <= i < 8 && e <= 8
    ensures RowRest(b, i, 8 * i + 8, e) == RowDone(b, i)
  {
    var j := 8 * i + 8;
    var cs, ts := Filled(b.pieceColor, j), Filled(b.pieceType, j);
    FlushRead(cs, ts, i, "", j - e - 8 * i, e);
    assert Flush(e) + "" == Flush(e);
  }

  /** An empty square only adds to the pending count. */
  lemma EmptyRunRead(b: Board, i: int, j: int, e: nat)
    requires WellFormed(b) && 0 <= i < 8 && 8 * i <= j < 8 * i + 8 && e <= j - 8 * i
    requires b.pieceType[j] == EMPTY
    ensures RowRest(b, i, j, e) == RowRest(b, i, j + 1, e + 1)
  {
    assert SquareWellFormed(b.pieceColor[j], b.pieceType[j]);
    FilledEmpty(b.pieceColor, j);
    FilledEmpty(b.pieceType, j);
  }

  /** Reading a piece of the row text fills in its square. */
  lemma PieceRunRead(b: Board, i: int, j: int, e: nat)
    requires Shaped(b) && 0 <= i < 8 && 8 * i <= j < 8 * i + 8 && e <= j - 8 * i
    requires b.pieceType[j] != EMPTY && SquareWellFormed(b.pieceColor[j], b.pieceType[j])
    ensures RowRest(b, i, j, e) == RowRest(b, i, j + 1, 0)
  {
    var cs, ts := Filled(b.pieceColor, j), Filled(b.pieceType, j);
    var end := 8 * i + 8;
    var file := j - e - 8 * i;
    var c, t := b.pieceColor[j], b.pieceType[j];
    var rest := Run(b, j + 1, end, 0);
    var cs1, ts1 := Filled(b.pieceColor, j + 1), Filled(b.pieceType, j + 1);
    FilledPiece(b.pieceColor, j);
    FilledPiece(b.pieceType, j);
    RunPiece(b, j, end, e);
    FlushPieceRead(cs, ts, i, c, t, rest, file, e, j);
    RowRestAt(b, i, j, e);
    RowRestAt(b, i, j + 1, 0);
  }

  lemma RowRestAt(b: Board, i: int, j: int, e: nat)
    requires Shaped(b) && 0 <= i < 8 && 8 * i <= j <= 8 * i + 8 && e <= j - 8 * i
    ensures RowRest(b, i, j, e)
      == RankWrite(Filled(b.pieceColor, j), Filled(b.pieceType, j), i, Run(b, j, 8 * i + 8, e), j - e - 8 * i)
  {
  }

  /** A pending count and then a piece: the piece lands that many files
      further on. */
  lemma FlushPieceRead(cs: seq<int>, ts: seq<int>, i: int, c: int, t: int, rest: string, file: int, e: nat,
                       pos: int)
    requires |cs| == 64 && |ts| == 64 && 0 <= i < 8 && file >= 0 && e <= 8 && file + e < 8
    requires SquareWellFormed(c, t) && t != EMPTY && pos == 8 * i + file + e
    ensures RankWrite(cs, ts, i, Flush(e) + (PieceText(c, t) + rest), file)
         == RankWrite(cs[pos := c], ts[pos := t], i, rest, file + e + 1)
  {
    FlushRead(cs, ts, i, PieceText(c, t) + rest, file, e);
    PieceStep(cs, ts, i, c, t, rest, file + e);
  }

  /** The text of a run that starts on a piece: the pending count, the
      piece, then the rest with nothing pending. */
  lemma RunPiece(b: Board, j: int, end: int, e: nat)
    requires Shaped(b) && 0 <= j < end <= 64 && e + (end - j) <= 8 && b.pieceType[j] != EMPTY
    ensures Run(b, j, end, e) == Flush(e) + (PieceText(b.pieceColor[j], b.pieceType[j]) + Run(b, j + 1, end, 0))
  {
    Regroup(Flush(e), PieceText(b.pieceColor[j], b.pieceType[j]), Run(b, j + 1, end, 0));
  }

  /** An empty square adds nothing to the squares filled in. */
  lemma FilledEmpty(s: seq<int>, j: int)
    requires |s| == 64 && 0 <= j < 64 && s[j] == EMPTY
    ensures Filled(s, j + 1) == Filled(s, j)
  {
  }

  /** Filling in square j takes one more square of s. */
  lemma FilledPiece(s: seq<int>, j: int)
    requires |s| == 64 && 0 <= j < 64
    ensures Filled(s, j)[j := s[j]] == Filled(s, j + 1)
  {
  }

  /** The letter of a piece places it on the current file of row i. */
  lemma PieceStep(cs: seq<int>, ts: seq<int>, i: int, c: int, t: int, rest: string, file: int)
    requires |cs| == 64 && |ts| == 64 && 0 <= i < 8 && 0 <= file < 8
    requires SquareWellFormed(c, t) && t != EMPTY
    ensures RankWrite(cs, ts, i, PieceText(c, t) + rest, file)
         == RankWrite(cs[8 * i + file := c], ts[8 * i + file := t], i, rest, file + 1)
  {
    PieceRead(c, t);
    var s := PieceText(c, t) + rest;
    assert s[0] == PieceText(c, t)[0] && s[1..] == rest;
    assert GetSquare(file, 7 - i) == 8 * i + file;
  }

  /** A flushed count of empty squares is read as that many files. */
  lemma FlushRead(cs: seq<int>, ts: seq<int>, i: int, rest: string, file: int, e: nat)
    requires |cs| == 64 && |ts| == 64 && 0 <= i < 8 && file >= 0 && e <= 8
    ensures RankWrite(cs, ts, i, Flush(e) + rest, file) == RankWrite(cs, ts, i, rest, file + e)
  {
    if e > 0 {
      var d := DigitChar(e);
      assert Flush(e) == [d];
      var s := Flush(e) + rest;
      assert s[0] == d && s[1..] == rest;
      assert PieceOfChar(d) == None;
      assert '1' <= d <= '8' && Cdiff(d, '0') == e;
    } else {
      assert Flush(e) + rest == rest;
    }
  }

  /** The letter written for a piece reads back as that piece. */
  lemma PieceRead(c: int, t: int)
    requires (c == WHITE || c == BLACK) && PAWN <= t <= KING
    ensures |PieceText(c, t)| == 1 && PieceOfChar(PieceText(c, t)[0]) == Some((c, t))
  {
    if t == PAWN {} else if t == KNIGHT {} else if t == BISHOP {}
    else if t == ROOK {} else if t == QUEEN {} else {}
  }

  /** Reading the castling field back gives the rights word. */
  lemma CastleRoundTrip(castle: int)
    requires 0 <= castle < 16
    ensures CastleField(CastleText(castle)) == Success(castle)
  {
    if castle != 0 {
      var wk, wq := HasBit(castle, CASTLE_WHITE_KING_FLAG), HasBit(castle, CASTLE_WHITE_QUEEN_FLAG);
      var bk, bq := HasBit(castle, CASTLE_BLACK_KING_FLAG), HasBit(castle, CASTLE_BLACK_QUEEN_FLAG);
      var s1, s2 := (if wk then "K" else ""), (if wq then "Q" else "");
      var s3, s4 := (if bk then "k" else ""), (if bq then "q" else "");
      assert CastleText(castle) == s1 + (s2 + (s3 + s4));
      assert CastleText(castle) != "-" by {
        if |CastleText(castle)| == 1 {
          assert CastleText(castle)[0] in "KQkq";
        }
      }
      var a1 := CastleStep(s1, s2 + (s3 + s4), 0, CASTLE_WHITE_KING_FLAG, wk);
      var a2 := CastleStep(s2, s3 + s4, a1, CASTLE_WHITE_QUEEN_FLAG, wq);
      var a3 := CastleStep(s3, s4, a2, CASTLE_BLACK_KING_FLAG, bk);
      assert s4 == s4 + "";
      var a4 := CastleStep(s4, "", a3, CASTLE_BLACK_QUEEN_FLAG, bq);
      RightsFromFlags(castle);
    }
  }

  /** The name of each castling flag. */
  function FlagLetter(f: int): char
  {
    if f == CASTLE_WHITE_KING_FLAG then 'K'
    else if f == CASTLE_WHITE_QUEEN_FLAG then 'Q'
    else if f == CASTLE_BLACK_KING_FLAG then 'k'
    else 'q'
  }

  /** Reading one optional letter: the flag is or-ed in when it is there. */
  lemma CastleStep(x: string, rest: string, acc: int, f: int, has: bool) returns (next: int)
    requires f == 1 || f == 2 || f == 4 || f == 8
    requires 0 <= acc < 16
    requires x == if has then [FlagLetter(f)] else ""
    ensures 0 <= next < 16 && next == (if has then BitOr(acc, f) else acc)
    ensures CastleChars(x + rest, acc) == CastleChars(rest, next)
  {
    OrBelow(acc, f, 16);
    next := if has then BitOr(acc, f) else acc;
    if has {
      var s := x + rest;
      assert s[0] == FlagLetter(f) && s[1..] == rest;
    } else {
      assert x + rest == rest;
    }
  }

  /** Or-ing in the flags of a rights word, one by one, rebuilds it. */
  lemma RightsFromFlags(castle: int)
    requires 0 <= castle < 16
    ensures RightsOr(castle) == castle
  {
    OrAdd(0, 1);
    var a1 := if HasBit(castle, 1) then BitOr(0, 1) else 0;
    OrFlagIn(castle, a1, 2);
    var a2 := if HasBit(castle, 2) then BitOr(a1, 2) else a1;
    OrFlagIn(castle, a2, 4);
    var a3 := if HasBit(castle, 4) then BitOr(a2, 4) else a2;
    OrFlagIn(castle, a3, 8);
    FlagSum(castle);
  }

  /** Or-ing flag f, when `castle` has it, into a word below f adds it. */
  lemma OrFlagIn(castle: int, a: int, f: int)
    requires 0 <= castle && IsFlag(f) && 0 <= a < f
    ensures (if HasBit(castle, f) then BitOr(a, f) else a) == a + (if HasBit(castle, f) then f else 0)
  {
    OrAdd(a, f);
  }

  /** A rights word is the sum of its four flags. */
  lemma FlagSum(castle: int)
    requires 0 <= castle < 16
    ensures castle == (if HasBit(castle, 1) then 1 else 0) + (if HasBit(castle, 2) then 2 else 0)
      + (if HasBit(castle, 4) then 4 else 0) + (if HasBit(castle, 8) then 8 else 0)
  {
    LowFlags(castle);
    var d0, d1, d2, d3 := castle % 2, (castle / 2) % 2, (castle / 4) % 2, castle / 8;
    assert castle == d0 + 2 * d1 + 4 * d2 + 8 * d3;
  }

  /** The rights word that or-ing in the flags of `castle` one by one
      gives. */
  function RightsOr(castle: int): int
    requires 0 <= castle < 16
  {
    var a1 := if HasBit(castle, 1) then BitOr(0, 1) else 0;
    OrBelow(a1, 2, 16);
    var a2 := if HasBit(castle, 2) then BitOr(a1, 2) else a1;
    OrBelow(a2, 4, 16);
    var a3 := if HasBit(castle, 4) then BitOr(a2, 4) else a2;
    OrBelow(a3, 8, 16);
    if HasBit(castle, 8) then BitOr(a3, 8) else a3
  }

  // ---------------------------------------------------------------------
  // Reading errors

  /** The characters a row of the placement field may hold. */
  const PlacementLetters := "pnbrqkPNBRQK12345678"

  /** `parseFEN` throws when the text does not have six space-separated
      fields, when the placement does not have eight '/'-separated rows,
      when the placement holds a character that is neither '/', a piece
      letter nor a digit 1..8, when the active colour is neither "w" nor
      "b", and when the castling field is not "-" and holds a character
      other than K, Q, k and q. */
  lemma FenErrors(fen: string)
    ensures var cols := Split(fen, ' ');
      |cols| != 6 ==> FenBoard(fen) == Failure("expected 6 columns in FEN")
    ensures var cols := Split(fen, ' ');
      |cols| == 6 && |Split(cols[0], '/')| != 8 ==> FenBoard(fen).Failure?
    ensures var cols := Split(fen, ' ');
      |cols| == 6 && (exists n :: 0 <= n < |cols[0]| && cols[0][n] != '/' && cols[0][n] !in PlacementLetters)
      ==> FenBoard(fen).Failure?
    ensures var cols := Split(fen, ' ');
      |cols| == 6 && cols[1] != "w" && cols[1] != "b" ==> FenBoard(fen).Failure?
    ensures var cols := Split(fen, ' ');
      |cols| == 6 && cols[2] != "-" && (exists n :: 0 <= n < |cols[2]| && cols[2][n] !in "KQkq")
      ==> FenBoard(fen).Failure?
    // The fields are read in order, so each error text is the one given
    // once the fields before it have been read.
    ensures var cols := Split(fen, ' ');
      |cols| == 6 && |Split(cols[0], '/')| != 8 ==> FenBoard(fen) == Failure("Expected 8 rows in position")
    ensures var cols := Split(fen, ' ');
      |cols| == 6 && |Split(cols[0], '/')| == 8
      && (exists n :: 0 <= n < |cols[0]| && cols[0][n] != '/' && cols[0][n] !in PlacementLetters)
      ==> FenBoard(fen) == Failure("Unexpected character") || FenBoard(fen) == Failure("piece beyond the h-file")
    ensures var cols := Split(fen, ' ');
      |cols| == 6 && Placement(cols[0]).Success? && cols[1] != "w" && cols[1] != "b"
      ==> FenBoard(fen) == Failure("Unexpected active color")
    ensures var cols := Split(fen, ' ');
      |cols| == 6 && Placement(cols[0]).Success? && (cols[1] == "w" || cols[1] == "b")
      && cols[2] != "-" && (exists n :: 0 <= n < |cols[2]| && cols[2][n] !in "KQkq")
      ==> FenBoard(fen) == Failure("Unexpected character in castling availability")
  {
    var cols := Split(fen, ' ');
    if |cols| == 6 {
      var ranks := Split(cols[0], '/');
      if |ranks| == 8 && exists n :: 0 <= n < |cols[0]| && cols[0][n] != '/' && cols[0][n] !in PlacementLetters {
        var n :| 0 <= n < |cols[0]| && cols[0][n] != '/' && cols[0][n] !in PlacementLetters;
        var k, m := FieldHolding(cols[0], '/', n);
        RanksWriteFails(NoPieces(), NoPieces(), ranks, 0, k, m);
        assert FenBoard(fen) == Failure(Placement(cols[0]).error);
      }
      if cols[2] != "-" && exists n :: 0 <= n < |cols[2]| && cols[2][n] !in "KQkq" {
        var n :| 0 <= n < |cols[2]| && cols[2][n] !in "KQkq";
        CastleCharsFails(cols[2], 0, n);
      }
    }
  }

  /** A character of s other than the separator is character m of field k
      of the split. */
  lemma FieldHolding(s: string, sep: char, n: int) returns (k: int, m: int)
    requires 0 <= n < |s| && s[n] != sep
    ensures 0 <= k < |Split(s, sep)| && 0 <= m < |Split(s, sep)[k]|
    ensures Split(s, sep)[k][m] == s[n]
  {
    var fs := Split(s, sep);
    JoinSplit(s, sep);
    if !exists j :: 0 <= j < |fs| && s[n] in fs[j] {
      JoinAvoids(fs, sep, s[n]);
      assert false;
    }
    k :| 0 <= k < |fs| && s[n] in fs[k];
    m :| 0 <= m < |fs[k]| && fs[k][m] == s[n];
  }

  /** A character that is not a piece letter or a digit 1..8 anywhere in
      the rest of a row makes the row fail, whatever the squares and the
      file reached. */
  lemma {:induction false} RankWriteFails(cs: seq<int>, ts: seq<int>, i: int, s: string, file: int, n: int)
    requires |cs| == 64 && |ts| == 64 && 0 <= i < 8 && file >= 0
    requires 0 <= n < |s| && s[n] !in PlacementLetters
    ensures RankWrite(cs, ts, i, s, file) == Failure("Unexpected character")
      || RankWrite(cs, ts, i, s, file) == Failure("piece beyond the h-file")
    decreases |s|
  {
    if n > 0 {
      var ch := s[0];
      assert s[1..][n - 1] == s[n];
      match PieceOfChar(ch)
      case Some((c, t)) =>
        if file < 8 {
          var pos := GetSquare(file, 7 - i);
          RankWriteFails(cs[pos := c], ts[pos := t], i, s[1..], file + 1, n - 1);
        }
      case None =>
        if '1' <= ch <= '8' {
          RankWriteFails(cs, ts, i, s[1..], file + Cdiff(ch, '0'), n - 1);
        }
    }
  }

  /** A bad character in row k makes the reading of rows i..7 fail when
      row k is among them. */
  lemma {:induction false} RanksWriteFails(cs: seq<int>, ts: seq<int>, ranks: seq<string>, i: int, k: int, m: int)
    requires |cs| == 64 && |ts| == 64 && |ranks| == 8 && 0 <= i <= k < 8
    requires 0 <= m < |ranks[k]| && ranks[k][m] !in PlacementLetters
    ensures RanksWrite(cs, ts, ranks, i) == Failure("Unexpected character")
      || RanksWrite(cs, ts, ranks, i) == Failure("piece beyond the h-file")
    decreases 8 - i
  {
    if i == k {
      RankWriteFails(cs, ts, i, ranks[i], 0, m);
    } else {
      match RankWrite(cs, ts, i, ranks[i], 0)
      case Failure(_) =>
      case Success((c2, t2)) => RanksWriteFails(c2, t2, ranks, i + 1, k, m);
    }
  }

  /** A character other than K, Q, k and q anywhere in the castling field
      makes it fail. */
  lemma {:induction false} CastleCharsFails(s: string, acc: int, n: int)
    requires 0 <= acc < 16 && 0 <= n < |s| && s[n] !in "KQkq"
    ensures CastleChars(s, acc) == Failure("Unexpected character in castling availability")
    decreases |s|
  {
    var f := CastleFlagOf(s[0]);
    if n > 0 && f != 0 {
      assert s[1..][n - 1] == s[n];
      OrBelow(acc, f, 16);
      CastleCharsFails(s[1..], BitOr(acc, f), n - 1);
    }
  }
}
