/** Standard algebraic notation as the engine reads it: `parseSAN`, which
    matches a move text against fixed-length patterns of character classes,
    and `moveSAN`, which resolves the parsed move against the board by
    trying candidate squares in increasing order. */
module San {
  import opened Wrappers
  import opened Geometry
  import opened Boards
  import opened MoveGen
  import opened MoveLookup
  import opened MakeMoves

  // ---------------------------------------------------------------------
  // Parsing

  /** What `parseSAN` hands back: a castle ("K" or "Q"), or a move to a
      square with the optional piece letter, origin file, origin rank,
      capture mark and promotion letter (absent fields are undefined in
      the engine). */
  datatype ParsedSAN =
    | CastleSAN(castle: char)
    | PieceSAN(piece: Option<char>, fromFile: Option<char>, fromRank: Option<char>,
               capture: bool, toFile: char, toRank: char, promPiece: Option<char>)

  /** The character classes of the patterns: `[abcdefgh]`, `[12345678]`,
      `[KQRNB]`, and the literal characters "x" and "=". */
  datatype CharClass = Files | Ranks | Pieces | Literal(c: char)

  predicate IsFile(c: char) { 'a' <= c <= 'h' }
  predicate IsRank(c: char) { '1' <= c <= '8' }
  predicate IsPiece(c: char) { c == 'K' || c == 'Q' || c == 'R' || c == 'N' || c == 'B' }

  predicate InClass(c: char, k: CharClass)
  {
    match k
    case Files => IsFile(c)
    case Ranks => IsRank(c)
    case Pieces => IsPiece(c)
    case Literal(l) => c == l
  }

  /** The `check` helper: the text is as long as the pattern and each
      character is in its class.  The engine joins the classes into an
      unanchored regular expression; since every class matches exactly one
      character, a match on a text of the same length covers all of it. */
  predicate Matches(san: string, pattern: seq<CharClass>)
  {
    |san| == |pattern| && forall i :: 0 <= i < |san| ==> InClass(san[i], pattern[i])
  }

  // The twelve patterns, in the order they are tried, each named after the
  // engine's sample text.
  const RC5XD5: seq<CharClass> := [Pieces, Files, Ranks, Literal('x'), Files, Ranks]
  const RC5D5: seq<CharClass> := [Pieces, Files, Ranks, Files, Ranks]
  const Q5XD4: seq<CharClass> := [Pieces, Ranks, Literal('x'), Files, Ranks]
  const Q5D4: seq<CharClass> := [Pieces, Ranks, Files, Ranks]
  const RCXD5: seq<CharClass> := [Pieces, Files, Literal('x'), Files, Ranks]
  const RCD5: seq<CharClass> := [Pieces, Files, Files, Ranks]
  const BXE2: seq<CharClass> := [Pieces, Literal('x'), Files, Ranks]
  const BE2: seq<CharClass> := [Pieces, Files, Ranks]
  const EXF8Q: seq<CharClass> := [Files, Literal('x'), Files, Ranks, Literal('='), Pieces]
  const FXE4: seq<CharClass> := [Files, Literal('x'), Files, Ranks]
  const E8Q: seq<CharClass> := [Files, Ranks, Literal('='), Pieces]
  const E4: seq<CharClass> := [Files, Ranks]

  /** A parsed move whose letters are in their classes and whose fields
      form one of the shapes the patterns describe: with a piece letter,
      any choice of origin file, origin rank and capture mark but no
      promotion; without one, no origin rank, and an origin file exactly
      when there is a capture mark. */
  predicate Writable(p: ParsedSAN)
  {
    match p
    case CastleSAN(c) => c == 'K' || c == 'Q'
    case PieceSAN(piece, ff, fr, capture, tf, tr, prom) =>
      (piece.Some? ==> IsPiece(piece.value)) && (ff.Some? ==> IsFile(ff.value))
      && (fr.Some? ==> IsRank(fr.value)) && IsFile(tf) && IsRank(tr)
      && (prom.Some? ==> IsPiece(prom.value))
      && (if piece.Some? then prom.None? else fr.None? && (ff.Some? <==> capture))
  }

  /** `parseSAN(san)`: the fields of the first pattern the text matches,
      the castles for "O-O" and "O-O-O", or nothing. */
  function ParseSAN(san: string): (r: Option<ParsedSAN>)
    ensures r.Some? ==> Writable(r.value)
  {
    if Matches(san, RC5XD5) then Some(PieceSAN(Some(san[0]), Some(san[1]), Some(san[2]), true, san[4], san[5], None))
    else if Matches(san, RC5D5) then Some(PieceSAN(Some(san[0]), Some(san[1]), Some(san[2]), false, san[3], san[4], None))
    else if Matches(san, Q5XD4) then Some(PieceSAN(Some(san[0]), None, Some(san[1]), true, san[3], san[4], None))
    else if Matches(san, Q5D4) then Some(PieceSAN(Some(san[0]), None, Some(san[1]), false, san[2], san[3], None))
    else if Matches(san, RCXD5) then Some(PieceSAN(Some(san[0]), Some(san[1]), None, true, san[3], san[4], None))
    else if Matches(san, RCD5) then Some(PieceSAN(Some(san[0]), Some(san[1]), None, false, san[2], san[3], None))
    else if Matches(san, BXE2) then Some(PieceSAN(Some(san[0]), None, None, true, san[2], san[3], None))
    else if Matches(san, BE2) then Some(PieceSAN(Some(san[0]), None, None, false, san[1], san[2], None))
    else if Matches(san, EXF8Q) then Some(PieceSAN(None, Some(san[0]), None, true, san[2], san[3], Some(san[5])))
    else if Matches(san, FXE4) then Some(PieceSAN(None, Some(san[0]), None, true, san[2], san[3], None))
    else if Matches(san, E8Q) then Some(PieceSAN(None, None, None, false, san[0], san[1], Some(san[3])))
    else if Matches(san, E4) then Some(PieceSAN(None, None, None, false, san[0], san[1], None))
    else if san == "O-O" then Some(CastleSAN('K'))
    else if san == "O-O-O" then Some(CastleSAN('Q'))
    else None
  }

  /** The text of a parsed move: its fields in order, "x" for a capture
      and "=" before a promotion letter. */
  function SanText(p: ParsedSAN): string
  {
    match p
    case CastleSAN(c) => if c == 'K' then "O-O" else "O-O-O"
    case PieceSAN(piece, ff, fr, capture, tf, tr, prom) =>
      Letter(piece) + Letter(ff) + Letter(fr) + (if capture then "x" else "") + [tf, tr]
      + (if prom.Some? then ['=', prom.value] else "")
  }

  function Letter(o: Option<char>): string
  {
    if o.Some? then [o.value] else ""
  }

  /** Every text `parseSAN` accepts is the text of what it parsed. */
  lemma ParseSANReads(san: string)
    requires ParseSAN(san).Some?
    ensures SanText(ParseSAN(san).value) == san
  {
    var p := ParseSAN(san).value;
    if p.CastleSAN? {
    } else if Matches(san, RC5XD5) || Matches(san, EXF8Q) {
      assert SanText(p) == [san[0], san[1], san[2], san[3], san[4], san[5]];
    } else if Matches(san, RC5D5) || Matches(san, Q5XD4) || Matches(san, RCXD5) {
      assert SanText(p) == [san[0], san[1], san[2], san[3], san[4]];
    } else if Matches(san, Q5D4) || Matches(san, RCD5) || Matches(san, BXE2) || Matches(san, FXE4) || Matches(san, E8Q) {
      assert SanText(p) == [san[0], san[1], san[2], san[3]];
    } else if Matches(san, BE2) {
      assert SanText(p) == [san[0], san[1], san[2]];
    } else {
      assert SanText(p) == [san[0], san[1]];
    }
  }

  /** The text of every writable parsed move is read back as that move:
      the patterns never overlap, whatever order they are tried in. */
  lemma ParseSANWritten(p: ParsedSAN)
    requires Writable(p)
    ensures ParseSAN(SanText(p)) == Some(p)
  {
    var s := SanText(p);
    match p
    case CastleSAN(c) =>
      if c == 'K' {
        assert !Matches(s, BE2) by { assert !InClass(s[0], Pieces); }
      }
    case PieceSAN(piece, ff, fr, capture, tf, tr, prom) =>
      if piece.Some? {
        PieceTextRead(p);
      } else {
        PawnTextRead(p);
      }
  }

  lemma PieceTextRead(p: ParsedSAN)
    requires Writable(p) && p.PieceSAN? && p.piece.Some?
    ensures ParseSAN(SanText(p)) == Some(p)
  {
    var s := SanText(p);
    var c := p.piece.value;
    assert s[0] == c && !InClass(c, Files);
    if p.fromFile.Some? && p.fromRank.Some? {
      var f, r := p.fromFile.value, p.fromRank.value;
      assert s[1] == f && s[2] == r;
      if p.capture {
        assert s == [c, f, r, 'x', p.toFile, p.toRank];
      } else {
        assert s == [c, f, r, p.toFile, p.toRank];
      }
    } else if p.fromRank.Some? {
      var r := p.fromRank.value;
      assert s[1] == r && !InClass(r, Files);
      if p.capture {
        assert s == [c, r, 'x', p.toFile, p.toRank];
        assert !Matches(s, RC5D5);
      } else {
        assert s == [c, r, p.toFile, p.toRank];
      }
    } else if p.fromFile.Some? {
      var f := p.fromFile.value;
      assert s[1] == f && !InClass(f, Ranks);
      if p.capture {
        assert s == [c, f, 'x', p.toFile, p.toRank];
      } else {
        assert s == [c, f, p.toFile, p.toRank];
      }
    } else {
      if p.capture {
        assert s == [c, 'x', p.toFile, p.toRank];
      } else {
        assert s == [c, p.toFile, p.toRank];
      }
    }
  }

  lemma PawnTextRead(p: ParsedSAN)
    requires Writable(p) && p.PieceSAN? && p.piece.None?
    ensures ParseSAN(SanText(p)) == Some(p)
  {
    var s := SanText(p);
    if p.fromFile.Some? {
      var f := p.fromFile.value;
      assert !InClass(f, Pieces);
      if p.promPiece.Some? {
        assert s == [f, 'x', p.toFile, p.toRank, '=', p.promPiece.value];
      } else {
        assert s == [f, 'x', p.toFile, p.toRank];
      }
    } else {
      assert !InClass(p.toFile, Pieces);
      if p.promPiece.Some? {
        assert s == [p.toFile, p.toRank, '=', p.promPiece.value];
      } else {
        assert s == [p.toFile, p.toRank];
      }
    }
  }

  /** `parseSAN` accepts exactly the texts of writable parsed moves. */
  lemma ParseSANExactly(san: string)
    ensures ParseSAN(san).Some? <==> exists p :: Writable(p) && SanText(p) == san
  {
    if ParseSAN(san).Some? {
      ParseSANReads(san);
      assert Writable(ParseSAN(san).value);
    }
    if exists p :: Writable(p) && SanText(p) == san {
      var p :| Writable(p) && SanText(p) == san;
      ParseSANWritten(p);
    }
  }

  // ---------------------------------------------------------------------
  // Resolution

  /** The piece the two letter switches of `moveSAN` give, or the default
      when the letter is absent or not one of K, Q, R, N, B. */
  function LetterPiece(o: Option<char>, default: int): int
  {
    if o == Some('K') then KING
    else if o == Some('Q') then QUEEN
    else if o == Some('R') then ROOK
    else if o == Some('N') then KNIGHT
    else if o == Some('B') then BISHOP
    else default
  }

  /** One candidate origin: the lookup's move, if any, and what `makeMove`
      does with it; no move counts as refused. */
  function TrySquare(b: Board, fromSq: int, toSq: int, prom: int): Outcome
    requires Shaped(b) && 0 <= toSq < 64
  {
    PseudoMoveForSound(b, fromSq, toSq, prom);
    match PseudoMoveFor(b, fromSq, toSq, prom)
    case None => Illegal
    case Some(m) => MoveOutcome(b, m)
  }

  /** The first candidate, in the order given, that is not refused: a
      board, or the throw of `makeMove`, which ends the search. */
  function FirstLegal(b: Board, squares: seq<int>, toSq: int, prom: int): Outcome
    requires Shaped(b) && 0 <= toSq < 64
    decreases |squares|
  {
    if |squares| == 0 then Illegal
    else
      var o := TrySquare(b, squares[0], toSq, prom);
      if o.Illegal? then FirstLegal(b, squares[1..], toSq, prom) else o
  }

  /** The squares `i = fromFile; i < 64; i += 8` visits. */
  function FileSquares(file: int): seq<int>
  {
    seq(8, k => file + 8 * k)
  }

  /** The squares `firstSqInRank..firstSqInRank + 7`. */
  function RankSquares(first: int): seq<int>
  {
    seq(8, k => first + k)
  }

  /** The squares from i on holding the named piece of the side to move,
      in increasing order. */
  function PieceSquares(b: Board, piece: int, i: int): (r: seq<int>)
    requires Shaped(b) && 0 <= i <= 64
    ensures forall x :: x in r <==> i <= x < 64 && b.pieceType[x] == piece && b.pieceColor[x] == b.side
    ensures forall j :: 0 <= j < |r| ==> i <= r[j]
    ensures forall j, k :: 0 <= j < k < |r| ==> r[j] < r[k]
    decreases 64 - i
  {
    if i == 64 then []
    else (if b.pieceType[i] == piece && b.pieceColor[i] == b.side then [i] else []) + PieceSquares(b, piece, i + 1)
  }

  /** The king's move for a castle of the side to move. */
  function CastleOutcome(b: Board, castle: char): Outcome
    requires Shaped(b)
  {
    if castle == 'K' then
      if b.side == WHITE then TrySquare(b, E1, G1, EMPTY) else TrySquare(b, E8, G8, EMPTY)
    else
      if b.side == WHITE then TrySquare(b, E1, C1, EMPTY) else TrySquare(b, E8, C8, EMPTY)
  }

  /** `moveSAN(board, san)`.  The origin rank is read as a character minus
      '0', one more than the zero-based rank `getSquare` takes, so rank
      disambiguation looks one rank too far up the board, and rank "8"
      addresses the off-board squares 120..127, where no piece stands. */
  function SanOutcome(b: Board, san: string): Outcome
    requires Shaped(b)
  {
    match ParseSAN(san)
    case None => Illegal
    case Some(p) => Resolve(b, p)
  }

  /** The resolution of a parsed move: the castle, the one origin named by
      file and rank, or the first origin on the named file, on the named
      rank, or holding the named piece, that `makeMove` accepts. */
  function Resolve(b: Board, p: ParsedSAN): Outcome
    requires Shaped(b) && Writable(p)
  {
    match p
    case CastleSAN(c) => CastleOutcome(b, c)
    case PieceSAN(piece, ff, fr, _, tf, tr, prom) =>
      var toSq := Target(p);
      var promote := LetterPiece(prom, EMPTY);
      if fr.Some? && ff.Some? then
        TrySquare(b, GetSquare(Cdiff(ff.value, 'a'), Cdiff(fr.value, '0')), toSq, promote)
      else FirstLegal(b, Origins(b, p), toSq, promote)
  }

  /** The target square of a parsed move. */
  function Target(p: ParsedSAN): (sq: int)
    requires Writable(p) && p.PieceSAN?
    ensures 0 <= sq < 64
  {
    FileRankSquare(Cdiff(p.toFile, 'a'), Cdiff(p.toRank, '1'));
    NamedSquare(p.toFile, p.toRank)
  }

  /** The origins a move without both origin file and rank searches. */
  function Origins(b: Board, p: ParsedSAN): seq<int>
    requires Shaped(b) && Writable(p) && p.PieceSAN?
  {
    if p.fromFile.Some? then FileSquares(Cdiff(p.fromFile.value, 'a'))
    else if p.fromRank.Some? then RankSquares(GetSquare(0, Cdiff(p.fromRank.value, '0')))
    else PieceSquares(b, LetterPiece(p.piece, PAWN), 0)
  }

  /** `return move ? makeMove(board, move) : null` for one origin. */
  method TryMove(b: Board, fromSq: int, toSq: int, prom: int) returns (r: Outcome)
    requires Shaped(b) && 0 <= toSq < 64
    ensures r == TrySquare(b, fromSq, toSq, prom)
  {
    PseudoMoveForSound(b, fromSq, toSq, prom);
    var move := GetPseudoMoveForPiece(b, fromSq, toSq, prom);
    if move.None? {
      return Illegal;
    }
    r := MakeMove(b, move.value);
  }

  method MoveSAN(b: Board, san: string) returns (r: Outcome)
    requires Shaped(b)
    ensures r == SanOutcome(b, san)
  {
    var buffer := ParseSAN(san);
    if buffer.None? {
      return Illegal;
    }
    r := ResolveSAN(b, buffer.value);
  }

  /** The body of `moveSAN` after parsing. */
  method ResolveSAN(b: Board, p: ParsedSAN) returns (r: Outcome)
    requires Shaped(b) && Writable(p)
    ensures r == Resolve(b, p)
  {
    if p.CastleSAN? {
      if p.castle == 'K' {
        if b.side == WHITE {
          r := TryMove(b, E1, G1, EMPTY);
        } else {
          r := TryMove(b, E8, G8, EMPTY);
        }
      } else {
        if b.side == WHITE {
          r := TryMove(b, E1, C1, EMPTY);
        } else {
          r := TryMove(b, E8, C8, EMPTY);
        }
      }
      return;
    }
    FileRankSquare(Cdiff(p.toFile, 'a'), Cdiff(p.toRank, '1'));
    var toSq := GetSquare(Cdiff(p.toFile, 'a'), Cdiff(p.toRank, '1'));
    var piece := LetterPiece(p.piece, PAWN);
    var promote := LetterPiece(p.promPiece, EMPTY);
    var fromRank := if p.fromRank.None? then -1 else Cdiff(p.fromRank.value, '0');
    var fromFile := if p.fromFile.None? then -1 else Cdiff(p.fromFile.value, 'a');

    // we have both rank and file
    if fromRank != -1 && fromFile != -1 {
      r := TryMove(b, GetSquare(fromFile, fromRank), toSq, promote);
    } else if fromFile != -1 {
      // we have only file
      r := SearchFile(b, fromFile, toSq, promote);
    } else if fromRank != -1 {
      // we have only rank
      r := SearchRank(b, GetSquare(0, fromRank), toSq, promote);
    } else {
      // we only have target square
      r := SearchPiece(b, piece, toSq, promote);
    }
  }

  /** The loop over `i = fromFile; i < 64; i += 8`. */
  method SearchFile(b: Board, fromFile: int, toSq: int, promote: int) returns (r: Outcome)
    requires Shaped(b) && 0 <= fromFile < 8 && 0 <= toSq < 64
    ensures r == FirstLegal(b, FileSquares(fromFile), toSq, promote)
  {
    ghost var squares := FileSquares(fromFile);
    var i := fromFile;
    ghost var k := 0;
    while i < 64
      invariant 0 <= k <= 8 && i == fromFile + 8 * k
      invariant FirstLegal(b, squares[k..], toSq, promote) == FirstLegal(b, squares, toSq, promote)
    {
      assert squares[k..][0] == i && squares[k..][1..] == squares[k + 1..];
      r := TryMove(b, i, toSq, promote);
      if !r.Illegal? {
        return;
      }
      i, k := i + 8, k + 1;
    }
    return Illegal;
  }

  /** The loop over `firstSqInRank..lastSqInRank`. */
  method SearchRank(b: Board, firstSqInRank: int, toSq: int, promote: int) returns (r: Outcome)
    requires Shaped(b) && 0 <= toSq < 64
    ensures r == FirstLegal(b, RankSquares(firstSqInRank), toSq, promote)
  {
    var lastSqInRank := firstSqInRank + 7;
    ghost var squares := RankSquares(firstSqInRank);
    for i := firstSqInRank to lastSqInRank + 1
      invariant FirstLegal(b, squares[i - firstSqInRank..], toSq, promote) == FirstLegal(b, squares, toSq, promote)
    {
      assert squares[i - firstSqInRank..][0] == i;
      assert squares[i - firstSqInRank..][1..] == squares[i + 1 - firstSqInRank..];
      r := TryMove(b, i, toSq, promote);
      if !r.Illegal? {
        return;
      }
    }
    return Illegal;
  }

  /** The loop over the squares holding the named piece of the side to
      move. */
  method SearchPiece(b: Board, piece: int, toSq: int, promote: int) returns (r: Outcome)
    requires Shaped(b) && 0 <= toSq < 64
    ensures r == FirstLegal(b, PieceSquares(b, piece, 0), toSq, promote)
  {
    for i := 0 to 64
      invariant FirstLegal(b, PieceSquares(b, piece, i), toSq, promote) == FirstLegal(b, PieceSquares(b, piece, 0), toSq, promote)
    {
      PieceSearchStep(b, piece, i, toSq, promote);
      if b.pieceType[i] == piece && b.pieceColor[i] == b.side {
        r := TryMove(b, i, toSq, promote);
        if !r.Illegal? {
          return;
        }
      }
    }
    return Illegal;
  }

  /** One step of the piece search. */
  lemma PieceSearchStep(b: Board, piece: int, i: int, toSq: int, promote: int)
    requires Shaped(b) && 0 <= i < 64 && 0 <= toSq < 64
    ensures FirstLegal(b, PieceSquares(b, piece, i), toSq, promote) ==
      if b.pieceType[i] == piece && b.pieceColor[i] == b.side && !TrySquare(b, i, toSq, promote).Illegal?
      then TrySquare(b, i, toSq, promote)
      else FirstLegal(b, PieceSquares(b, piece, i + 1), toSq, promote)
  {
    var rest := PieceSquares(b, piece, i + 1);
    if b.pieceType[i] == piece && b.pieceColor[i] == b.side {
      assert PieceSquares(b, piece, i) == [i] + rest;
      assert ([i] + rest)[1..] == rest;
    } else {
      assert PieceSquares(b, piece, i) == rest;
    }
  }

  // ---------------------------------------------------------------------
  // What resolution finds

  /** The search stops at the first candidate that is not refused, and
      refuses only when every candidate is refused. */
  lemma {:induction false} FirstLegalFirst(b: Board, squares: seq<int>, toSq: int, prom: int) returns (k: int)
    requires Shaped(b) && 0 <= toSq < 64
    ensures FirstLegal(b, squares, toSq, prom).Illegal? ==>
      forall j :: 0 <= j < |squares| ==> TrySquare(b, squares[j], toSq, prom).Illegal?
    ensures !FirstLegal(b, squares, toSq, prom).Illegal? ==>
      0 <= k < |squares| && FirstLegal(b, squares, toSq, prom) == TrySquare(b, squares[k], toSq, prom)
      && forall j :: 0 <= j < k ==> TrySquare(b, squares[j], toSq, prom).Illegal?
    decreases |squares|
  {
    if |squares| == 0 {
      k := 0;
    } else if TrySquare(b, squares[0], toSq, prom).Illegal? {
      var k' := FirstLegalFirst(b, squares[1..], toSq, prom);
      k := k' + 1;
      forall j | 0 <= j < |squares| && FirstLegal(b, squares, toSq, prom).Illegal?
        ensures TrySquare(b, squares[j], toSq, prom).Illegal?
      {
        if j > 0 {
          assert squares[j] == squares[1..][j - 1];
        }
      }
      forall j | 0 <= j < k && !FirstLegal(b, squares, toSq, prom).Illegal?
        ensures TrySquare(b, squares[j], toSq, prom).Illegal?
      {
        if j > 0 {
          assert squares[j] == squares[1..][j - 1];
        }
      }
    } else {
      k := 0;
    }
  }

  /** The board one candidate gives comes from a move of the movement
      rules that lands on the target square and starts on the candidate
      square, unless it is an en-passant capture or a castle. */
  lemma TryFound(b: Board, fromSq: int, toSq: int, prom: int) returns (m: PotentialMove)
    requires Shaped(b) && 0 <= toSq < 64 && !TrySquare(b, fromSq, toSq, prom).Illegal?
    ensures MoveSound(b, m) && m.to == toSq && MoveOutcome(b, m) == TrySquare(b, fromSq, toSq, prom)
    ensures m.from == fromSq || HasBit(m.bits, EN_PASSANT_FLAG) || HasBit(m.bits, CASTLE_FLAG)
  {
    PseudoMoveForSound(b, fromSq, toSq, prom);
    m := PseudoMoveFor(b, fromSq, toSq, prom).value;
  }

  /** A candidate is never the throw of `makeMove`: the lookup only finds
      castles onto a castling square. */
  lemma TryNeverThrows(b: Board, fromSq: int, toSq: int, prom: int)
    requires Shaped(b) && 0 <= toSq < 64
    ensures TrySquare(b, fromSq, toSq, prom) != FailedToCastle
  {
    PseudoMoveForSound(b, fromSq, toSq, prom);
  }

  lemma {:induction false} FirstNeverThrows(b: Board, squares: seq<int>, toSq: int, prom: int)
    requires Shaped(b) && 0 <= toSq < 64
    ensures FirstLegal(b, squares, toSq, prom) != FailedToCastle
  {
    var k := FirstLegalFirst(b, squares, toSq, prom);
    if !FirstLegal(b, squares, toSq, prom).Illegal? {
      TryNeverThrows(b, squares[k], toSq, prom);
    }
  }

  /** `moveSAN` never throws. */
  lemma SanNeverThrows(b: Board, san: string)
    requires Shaped(b)
    ensures SanOutcome(b, san) != FailedToCastle
  {
    if ParseSAN(san).Some? {
      ResolveNeverThrows(b, ParseSAN(san).value);
    }
  }

  lemma ResolveNeverThrows(b: Board, p: ParsedSAN)
    requires Shaped(b) && Writable(p)
    ensures Resolve(b, p) != FailedToCastle
  {
    match p
    case CastleSAN(c) =>
      TryNeverThrows(b, E1, G1, EMPTY);
      TryNeverThrows(b, E8, G8, EMPTY);
      TryNeverThrows(b, E1, C1, EMPTY);
      TryNeverThrows(b, E8, C8, EMPTY);
    case PieceSAN(piece, ff, fr, _, tf, tr, prom) =>
      var promote := LetterPiece(prom, EMPTY);
      if fr.Some? && ff.Some? {
        TryNeverThrows(b, GetSquare(Cdiff(ff.value, 'a'), Cdiff(fr.value, '0')), Target(p), promote);
      } else {
        FirstNeverThrows(b, Origins(b, p), Target(p), promote);
      }
  }

  /** The board `moveSAN` returns for a move text is the one `makeMove`
      makes from a move of the movement rules onto the named square. */
  lemma SanMoveMade(b: Board, san: string)
    requires Shaped(b) && ParseSAN(san).Some? && ParseSAN(san).value.PieceSAN?
    requires SanOutcome(b, san).Legal?
    ensures var p := ParseSAN(san).value;
      exists m :: MoveSound(b, m) && m.to == NamedSquare(p.toFile, p.toRank)
        && MoveOutcome(b, m) == SanOutcome(b, san)
  {
    var p := ParseSAN(san).value;
    var m := ResolveMoveMade(b, p);
  }

  lemma ResolveMoveMade(b: Board, p: ParsedSAN) returns (m: PotentialMove)
    requires Shaped(b) && Writable(p) && p.PieceSAN? && Resolve(b, p).Legal?
    ensures MoveSound(b, m) && m.to == Target(p) && MoveOutcome(b, m) == Resolve(b, p)
  {
    var promote := LetterPiece(p.promPiece, EMPTY);
    var from: int;
    if p.fromRank.Some? && p.fromFile.Some? {
      from := GetSquare(Cdiff(p.fromFile.value, 'a'), Cdiff(p.fromRank.value, '0'));
    } else {
      var k := FirstLegalFirst(b, Origins(b, p), Target(p), promote);
      from := Origins(b, p)[k];
    }
    m := TryFound(b, from, Target(p), promote);
  }

  /** The file search visits its file from the 8th rank down to the 1st. */
  lemma FileSquaresOnFile(file: int)
    requires 0 <= file < 8
    ensures forall k :: 0 <= k < 8 ==>
      0 <= FileSquares(file)[k] < 64 && GetFile(FileSquares(file)[k]) == file
      && GetRank(FileSquares(file)[k]) == 7 - k
  {
  }

  /** As written, the rank search for origin rank c (1..7) visits the
      squares of the next rank up, a-file first. */
  lemma RankSquaresOneUp(c: char)
    requires '1' <= c <= '7'
    ensures var squares := RankSquares(GetSquare(0, Cdiff(c, '0')));
      forall k :: 0 <= k < 8 ==>
        0 <= squares[k] < 64 && GetFile(squares[k]) == k && GetRank(squares[k]) == Cdiff(c, '1') + 1
  {
  }

  /** As written, a move whose origin rank is "8" never resolves: the
      rank search and the file-and-rank lookup start off the board. */
  lemma RankEightNeverMoves(b: Board, p: ParsedSAN)
    requires Shaped(b) && Writable(p) && p.PieceSAN? && p.fromRank == Some('8')
    ensures Resolve(b, p) == Illegal
  {
    var promote := LetterPiece(p.promPiece, EMPTY);
    if p.fromFile.None? {
      var k := FirstLegalFirst(b, Origins(b, p), Target(p), promote);
    }
  }
}
