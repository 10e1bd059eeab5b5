/** `makeMove`: apply a candidate move to a fresh copy of the board and
    keep it when the legality test passes. */
module MakeMoves {
  import opened Wrappers
  import opened Geometry
  import opened Boards
  import opened Attack
  import opened MoveGen
  import opened MoveLookup
  import opened Notation

  /** What `makeMove` does with a move: hands back the new board, refuses
      it (returns null), or throws "failed to castle" for a castle onto a
      square it has no rook move for. */
  datatype Outcome = Legal(board: Board) | Illegal | FailedToCastle

  /** The castle target squares `makeMove` knows, by square alone. */
  predicate CastleTarget(to: int)
  {
    to == G1 || to == C1 || to == G8 || to == C8
  }

  /** Where the rook of a castle onto `to` starts and ends. */
  function RookFrom(to: int): int
    requires CastleTarget(to)
  {
    if to == G1 then H1 else if to == C1 then A1 else if to == G8 then H8 else A8
  }

  function RookTo(to: int): int
    requires CastleTarget(to)
  {
    if to == G1 then F1 else if to == C1 then D1 else if to == G8 then F8 else D8
  }

  /** A castle onto `to` is refused when a square between king and rook is
      occupied, or when the square the king crosses or lands on is attacked
      by the other side. */
  predicate CastleBlocked(b: Board, to: int)
    requires Shaped(b) && CastleTarget(to)
  {
    if to == G1 then
      b.pieceColor[F1] != EMPTY || b.pieceColor[G1] != EMPTY
      || Attacked(b, F1, b.xside) || Attacked(b, G1, b.xside)
    else if to == C1 then
      b.pieceColor[B1] != EMPTY || b.pieceColor[C1] != EMPTY || b.pieceColor[D1] != EMPTY
      || Attacked(b, C1, b.xside) || Attacked(b, D1, b.xside)
    else if to == G8 then
      b.pieceColor[F8] != EMPTY || b.pieceColor[G8] != EMPTY
      || Attacked(b, F8, b.xside) || Attacked(b, G8, b.xside)
    else
      b.pieceColor[B8] != EMPTY || b.pieceColor[C8] != EMPTY || b.pieceColor[D8] != EMPTY
      || Attacked(b, C8, b.xside) || Attacked(b, D8, b.xside)
  }

  /** The rights word after a move from `from` to `to`. */
  function CastleAfter(castle: int, from: int, to: int): (c: int)
    requires 0 <= castle < 16 && 0 <= from < 64 && 0 <= to < 64
    ensures 0 <= c < 16
  {
    CastleMaskAt(from);
    CastleMaskAt(to);
    BitAnd(castle, BitAnd(CastleMask(from), CastleMask(to)))
  }

  function CastleRook(s: seq<int>, to: int): (r: seq<int>)
    requires |s| == 64 && CastleTarget(to)
    ensures |r| == 64
  {
    s[RookTo(to) := s[RookFrom(to)]][RookFrom(to) := EMPTY]
  }

  /** The colours after the piece of side `b.side` moves, with the pawn
      taken en passant (one square behind `to`) erased. */
  function MovedColors(c: seq<int>, b: Board, m: PotentialMove): (r: seq<int>)
    requires |c| == 64 && Shaped(b) && InRange(b, m)
    ensures |r| == 64
  {
    var c1 := c[m.to := b.side][m.from := EMPTY];
    if HasBit(m.bits, EN_PASSANT_FLAG) then c1[Behind(b.side, m.to) := EMPTY] else c1
  }

  /** The types after the move: the promotion piece or the moving piece of
      `b` on `to`, `from` emptied, the pawn taken en passant erased. */
  function MovedTypes(t: seq<int>, b: Board, m: PotentialMove): (r: seq<int>)
    requires |t| == 64 && Shaped(b) && InRange(b, m)
    ensures |r| == 64
  {
    var placed := if HasBit(m.bits, PROMOTE_FLAG) then m.promote else b.pieceType[m.from];
    var t1 := t[m.to := placed][m.from := EMPTY];
    if HasBit(m.bits, EN_PASSANT_FLAG) then t1[Behind(b.side, m.to) := EMPTY] else t1
  }

  /** The copy as `makeMove` writes it, before the legality test: the rook
      of a castle moved, the piece (or its promotion) placed on `to` and
      `from` emptied, the pawn taken en passant erased, the counters
      updated and the sides swapped (`side ^ 1`, which is 1 - side for the
      two colours). */
  function Successor(b: Board, m: PotentialMove): Board
    requires Shaped(b) && InRange(b, m)
    requires HasBit(m.bits, CASTLE_FLAG) ==> CastleTarget(m.to)
  {
    var castling := HasBit(m.bits, CASTLE_FLAG);
    var c0 := if castling then CastleRook(b.pieceColor, m.to) else b.pieceColor;
    var t0 := if castling then CastleRook(b.pieceType, m.to) else b.pieceType;
    Board(MovedColors(c0, b, m), MovedTypes(t0, b, m), 1 - b.side, 1 - b.xside,
          CastleAfter(b.castle, m.from, m.to),
          if HasBit(m.bits, DOUBLE_PAWN_FLAG) then Behind(b.side, m.to) else -1,
          if HasBit(m.bits, 17) then 0 else b.fifty + 1,
          if b.side == BLACK then b.fullmove + 1 else b.fullmove,
          false)
  }

  /** The legality test, as written: it asks whether the side that is not
      to move is in check on the ORIGINAL board, not on the new one, and
      sets the new board's check flag from the original board too. */
  function Settle(b: Board, next: Board): Outcome
    requires Shaped(b)
  {
    if InCheck(b, b.xside) then Illegal else Legal(next.(check := InCheck(b, b.side)))
  }

  /** `makeMove(board, m)`. */
  function MoveOutcome(b: Board, m: PotentialMove): Outcome
    requires Shaped(b) && InRange(b, m)
  {
    if HasBit(m.bits, CASTLE_FLAG) then
      if InCheck(b, b.side) then Illegal
      else if !CastleTarget(m.to) then FailedToCastle
      else if CastleBlocked(b, m.to) then Illegal
      else Settle(b, Successor(b, m))
    else Settle(b, Successor(b, m))
  }

  // ---------------------------------------------------------------------
  // makeMove as the engine runs it

  method MakeMove(b: Board, m: PotentialMove) returns (r: Outcome)
    requires Shaped(b) && InRange(b, m)
    ensures r == MoveOutcome(b, m)
  {
    var nb := new MutableBoard.Copy(b);
    if HasBit(m.bits, 2) {
      var refusal := TestCastle(b, m);
      if refusal.Some? {
        return refusal.value;
      }
    }
    Apply(nb, b, m);

    /* the legality test, on the original board */
    var illegal := IsInCheck(b, b.xside);
    if illegal {
      return Illegal;
    }
    nb.check := IsInCheck(b, b.side);
    return Legal(nb.Value());
  }

  /** Every write `makeMove` makes to its copy of `b`: the rook of a
      castle, then the move itself, then the swap of sides. */
  method Apply(nb: MutableBoard, b: Board, m: PotentialMove)
    requires nb.Valid() && nb.Value() == b.(check := false)
    requires Shaped(b) && InRange(b, m)
    requires HasBit(m.bits, CASTLE_FLAG) ==> CastleTarget(m.to)
    modifies nb, nb.pieceColor, nb.pieceType
    ensures nb.Valid() && nb.pieceColor == old(nb.pieceColor) && nb.pieceType == old(nb.pieceType)
    ensures nb.Value() == Successor(b, m)
  {
    ghost var castling := HasBit(m.bits, CASTLE_FLAG);
    if HasBit(m.bits, 2) {
      MoveRook(nb, m.to);
    }
    ghost var c0 := if castling then CastleRook(b.pieceColor, m.to) else b.pieceColor;
    ghost var t0 := if castling then CastleRook(b.pieceType, m.to) else b.pieceType;
    assert nb.pieceColor[..] == c0 && nb.pieceType[..] == t0;
    WriteMove(nb, b, m);
    nb.side := 1 - b.side;
    nb.xside := 1 - b.xside;
  }

  /** The castle branch of `makeMove` up to the rook move: a refusal, or
      None when the castle goes ahead.  The attack tests run only while no
      earlier condition has refused, as the short-circuit `||` runs them. */
  method TestCastle(b: Board, m: PotentialMove) returns (r: Option<Outcome>)
    requires Shaped(b) && InRange(b, m)
    ensures r == if InCheck(b, b.side) then Some(Illegal)
                 else if !CastleTarget(m.to) then Some(FailedToCastle)
                 else if CastleBlocked(b, m.to) then Some(Illegal)
                 else None
  {
    var inCheck := IsInCheck(b, b.side);
    if inCheck {
      return Some(Illegal);
    }
    var blocked;
    if m.to == 62 {
      blocked := b.pieceColor[F1] != EMPTY || b.pieceColor[G1] != EMPTY;
      if !blocked { blocked := IsAttacked(b, F1, b.xside); }
      if !blocked { blocked := IsAttacked(b, G1, b.xside); }
    } else if m.to == 58 {
      blocked := b.pieceColor[B1] != EMPTY || b.pieceColor[C1] != EMPTY || b.pieceColor[D1] != EMPTY;
      if !blocked { blocked := IsAttacked(b, C1, b.xside); }
      if !blocked { blocked := IsAttacked(b, D1, b.xside); }
    } else if m.to == 6 {
      blocked := b.pieceColor[F8] != EMPTY || b.pieceColor[G8] != EMPTY;
      if !blocked { blocked := IsAttacked(b, F8, b.xside); }
      if !blocked { blocked := IsAttacked(b, G8, b.xside); }
    } else if m.to == 2 {
      blocked := b.pieceColor[B8] != EMPTY || b.pieceColor[C8] != EMPTY || b.pieceColor[D8] != EMPTY;
      if !blocked { blocked := IsAttacked(b, C8, b.xside); }
      if !blocked { blocked := IsAttacked(b, D8, b.xside); }
    } else {
      return Some(FailedToCastle);
    }
    r := if blocked then Some(Illegal) else None;
  }

  /** The rook move of a castle onto `to`, written into the copy. */
  method MoveRook(nb: MutableBoard, to: int)
    requires nb.Valid() && CastleTarget(to)
    modifies nb.pieceColor, nb.pieceType
    ensures nb.pieceColor[..] == CastleRook(old(nb.pieceColor[..]), to)
    ensures nb.pieceType[..] == CastleRook(old(nb.pieceType[..]), to)
  {
    var from, dest := RookFrom(to), RookTo(to);
    nb.pieceColor[dest] := nb.pieceColor[from];
    nb.pieceType[dest] := nb.pieceType[from];
    nb.pieceColor[from] := EMPTY;
    nb.pieceType[from] := EMPTY;
  }

  /** The rest of the writes of `makeMove` before the sides are swapped:
      counters, rights and en-passant square, then the piece itself and the
      pawn taken en passant. */
  method WriteMove(nb: MutableBoard, b: Board, m: PotentialMove)
    requires nb.Valid() && Shaped(b) && InRange(b, m)
    modifies nb, nb.pieceColor, nb.pieceType
    ensures nb.Valid() && nb.pieceColor == old(nb.pieceColor) && nb.pieceType == old(nb.pieceType)
    ensures nb.pieceColor[..] == MovedColors(old(nb.pieceColor[..]), b, m)
    ensures nb.pieceType[..] == MovedTypes(old(nb.pieceType[..]), b, m)
    ensures nb.side == old(nb.side) && nb.xside == old(nb.xside) && nb.check == old(nb.check)
    ensures nb.fullmove == if b.side == BLACK then b.fullmove + 1 else old(nb.fullmove)
    ensures nb.castle == CastleAfter(b.castle, m.from, m.to)
    ensures nb.ep == if HasBit(m.bits, DOUBLE_PAWN_FLAG) then Behind(b.side, m.to) else -1
    ensures nb.fifty == if HasBit(m.bits, 17) then 0 else b.fifty + 1
  {
    if b.side == BLACK {
      nb.fullmove := b.fullmove + 1;
    }
    nb.castle := CastleAfter(b.castle, m.from, m.to);
    if HasBit(m.bits, 8) {
      if b.side == WHITE {
        nb.ep := m.to + 8;
      } else {
        nb.ep := m.to - 8;
      }
    } else {
      nb.ep := -1;
    }
    if HasBit(m.bits, 17) {
      nb.fifty := 0;
    } else {
      nb.fifty := b.fifty + 1;
    }
    PlacePiece(nb.pieceColor, nb.pieceType, b, m);
  }

  /** The square writes of a move. */
  method PlacePiece(colors: array<int>, types: array<int>, b: Board, m: PotentialMove)
    requires colors.Length == 64 && types.Length == 64 && colors != types
    requires Shaped(b) && InRange(b, m)
    modifies colors, types
    ensures colors[..] == MovedColors(old(colors[..]), b, m)
    ensures types[..] == MovedTypes(old(types[..]), b, m)
  {
    ghost var c, t := colors[..], types[..];
    colors[m.to] := b.side;
    if HasBit(m.bits, 32) {
      types[m.to] := m.promote;
    } else {
      types[m.to] := b.pieceType[m.from];
    }
    colors[m.from] := EMPTY;
    types[m.from] := EMPTY;
    ghost var placed := if HasBit(m.bits, PROMOTE_FLAG) then m.promote else b.pieceType[m.from];
    assert colors[..] == c[m.to := b.side][m.from := EMPTY];
    assert types[..] == t[m.to := placed][m.from := EMPTY];
    if HasBit(m.bits, 4) {
      var victim := if b.side == WHITE then m.to + 8 else m.to - 8;
      assert victim == Behind(b.side, m.to);
      colors[victim] := EMPTY;
      types[victim] := EMPTY;
    }
  }

  // ---------------------------------------------------------------------
  // What makeMove promises

  /** The three outcomes of `makeMove`, each characterised.  A castle is
      refused while the king is in check or its path is blocked, and throws
      for a target it has no rook for; every move, castle or not, is then
      refused exactly when the side that is not to move stands in check on
      the board before the move. */
  lemma OutcomeKinds(b: Board, m: PotentialMove)
    requires Shaped(b) && InRange(b, m)
    ensures MoveOutcome(b, m) == FailedToCastle <==>
      HasBit(m.bits, CASTLE_FLAG) && !InCheck(b, b.side) && !CastleTarget(m.to)
    ensures MoveOutcome(b, m).Legal? <==>
      !InCheck(b, b.xside)
      && (HasBit(m.bits, CASTLE_FLAG) ==> !InCheck(b, b.side) && CastleTarget(m.to) && !CastleBlocked(b, m.to))
    ensures MoveOutcome(b, m) == Illegal <==>
      (HasBit(m.bits, CASTLE_FLAG) && (InCheck(b, b.side) || (CastleTarget(m.to) && CastleBlocked(b, m.to))))
      || ((!HasBit(m.bits, CASTLE_FLAG) || CastleTarget(m.to)) && InCheck(b, b.xside))
  {
  }

  /** As written, the legality test does not depend on the move: two moves
      that are not castles are both accepted or both refused. */
  lemma LegalityIgnoresMove(b: Board, m1: PotentialMove, m2: PotentialMove)
    requires Shaped(b) && InRange(b, m1) && InRange(b, m2)
    requires !HasBit(m1.bits, CASTLE_FLAG) && !HasBit(m2.bits, CASTLE_FLAG)
    ensures MoveOutcome(b, m1).Legal? <==> MoveOutcome(b, m2).Legal?
    ensures MoveOutcome(b, m1).Legal? <==> !InCheck(b, b.xside)
  {
  }

  /** The scalar state of an accepted move: the sides swap, the board is
      shaped again, the full-move number grows after Black's move, the
      fifty-move counter restarts on a pawn move or a capture and grows
      otherwise, the en-passant square is the one a double push passes
      over and is cleared otherwise, and the check flag is the original
      board's. */
  lemma Bookkeeping(b: Board, m: PotentialMove)
    requires Shaped(b) && InRange(b, m) && MoveOutcome(b, m).Legal?
    ensures var n := MoveOutcome(b, m).board;
      Shaped(n)
      && n.side == b.xside && n.xside == b.side
      && n.fullmove == (if b.side == BLACK then b.fullmove + 1 else b.fullmove)
      && (HasBit(m.bits, PAWN_MOVE_FLAG) || HasBit(m.bits, CAPTURE_FLAG) ==> n.fifty == 0)
      && (!HasBit(m.bits, PAWN_MOVE_FLAG) && !HasBit(m.bits, CAPTURE_FLAG) ==> n.fifty == b.fifty + 1)
      && (HasBit(m.bits, DOUBLE_PAWN_FLAG) ==> n.ep == Behind(b.side, m.to))
      && (!HasBit(m.bits, DOUBLE_PAWN_FLAG) ==> n.ep == -1)
      && n.check == InCheck(b, b.side)
  {
    LegalBoard(b, m);
    PawnOrCapture(m.bits);
  }

  /** An accepted move hands back the written copy. */
  lemma LegalBoard(b: Board, m: PotentialMove)
    requires Shaped(b) && InRange(b, m) && MoveOutcome(b, m).Legal?
    ensures HasBit(m.bits, CASTLE_FLAG) ==> CastleTarget(m.to)
    ensures MoveOutcome(b, m).board == Successor(b, m).(check := InCheck(b, b.side))
  {
  }

  /** A move from `from` to `to` leaves from sq or lands on it. */
  predicate Touches(from: int, to: int, sq: int)
  {
    from == sq || to == sq
  }

  /** Castling rights after a move: each right survives exactly when it was
      held and neither square of the move is the king's or that rook's home
      square; a move that touches none of the six home squares keeps the
      rights word as it was. */
  lemma CastleRights(castle: int, from: int, to: int)
    requires 0 <= castle < 16 && 0 <= from < 64 && 0 <= to < 64
    ensures var c := CastleAfter(castle, from, to);
      (HasBit(c, CASTLE_WHITE_KING_FLAG) <==>
        HasBit(castle, CASTLE_WHITE_KING_FLAG) && !Touches(from, to, E1) && !Touches(from, to, H1))
      && (HasBit(c, CASTLE_WHITE_QUEEN_FLAG) <==>
        HasBit(castle, CASTLE_WHITE_QUEEN_FLAG) && !Touches(from, to, E1) && !Touches(from, to, A1))
      && (HasBit(c, CASTLE_BLACK_KING_FLAG) <==>
        HasBit(castle, CASTLE_BLACK_KING_FLAG) && !Touches(from, to, E8) && !Touches(from, to, H8))
      && (HasBit(c, CASTLE_BLACK_QUEEN_FLAG) <==>
        HasBit(castle, CASTLE_BLACK_QUEEN_FLAG) && !Touches(from, to, E8) && !Touches(from, to, A8))
    ensures !Touches(from, to, E1) && !Touches(from, to, H1) && !Touches(from, to, A1)
      && !Touches(from, to, E8) && !Touches(from, to, H8) && !Touches(from, to, A8)
      ==> CastleAfter(castle, from, to) == castle
  {
    RightKept(castle, from, to, CASTLE_WHITE_KING_FLAG, E1, H1);
    RightKept(castle, from, to, CASTLE_WHITE_QUEEN_FLAG, E1, A1);
    RightKept(castle, from, to, CASTLE_BLACK_KING_FLAG, E8, H8);
    RightKept(castle, from, to, CASTLE_BLACK_QUEEN_FLAG, E8, A8);
    var mf, mt := CastleMask(from), CastleMask(to);
    CastleMaskAt(from);
    CastleMaskAt(to);
    if mf == 15 && mt == 15 {
      assert BitAnd(mf, mt) == 15;
      AndLow(castle, 16);
    }
  }

  /** The right f, whose king starts on `king` and rook on `rook`. */
  predicate RightHome(f: int, king: int, rook: int)
  {
    (f == CASTLE_WHITE_KING_FLAG && king == E1 && rook == H1)
    || (f == CASTLE_WHITE_QUEEN_FLAG && king == E1 && rook == A1)
    || (f == CASTLE_BLACK_KING_FLAG && king == E8 && rook == H8)
    || (f == CASTLE_BLACK_QUEEN_FLAG && king == E8 && rook == A8)
  }

  /** A right survives a move exactly when it was held and the move
      touches neither its king's nor its rook's home square. */
  lemma RightKept(castle: int, from: int, to: int, f: int, king: int, rook: int)
    requires 0 <= castle < 16 && 0 <= from < 64 && 0 <= to < 64 && RightHome(f, king, rook)
    ensures HasBit(CastleAfter(castle, from, to), f) <==>
      HasBit(castle, f) && !Touches(from, to, king) && !Touches(from, to, rook)
  {
    CastleMaskAt(from);
    CastleMaskAt(to);
    var mf, mt := CastleMask(from), CastleMask(to);
    FlagAnd(castle, BitAnd(mf, mt), f);
    FlagAnd(mf, mt, f);
    MaskRight(from, f, king, rook);
    MaskRight(to, f, king, rook);
  }

  /** A square's mask keeps a right unless its king or rook starts there. */
  lemma MaskRight(sq: int, f: int, king: int, rook: int)
    requires 0 <= sq < 64 && RightHome(f, king, rook)
    ensures HasBit(CastleMask(sq), f) <==> sq != king && sq != rook
  {
    CastleMaskAt(sq);
    MaskFlags();
  }

  /** The castling flags of each value of CASTLE_MASK. */
  lemma MaskFlags()
    ensures HasBit(15, 1) && HasBit(15, 2) && HasBit(15, 4) && HasBit(15, 8)
    ensures !HasBit(12, 1) && !HasBit(12, 2) && HasBit(12, 4) && HasBit(12, 8)
    ensures !HasBit(14, 1) && HasBit(14, 2) && HasBit(14, 4) && HasBit(14, 8)
    ensures HasBit(13, 1) && !HasBit(13, 2) && HasBit(13, 4) && HasBit(13, 8)
    ensures HasBit(3, 1) && HasBit(3, 2) && !HasBit(3, 4) && !HasBit(3, 8)
    ensures HasBit(11, 1) && HasBit(11, 2) && !HasBit(11, 4) && HasBit(11, 8)
    ensures HasBit(7, 1) && HasBit(7, 2) && HasBit(7, 4) && !HasBit(7, 8)
  {
  }

  /** The squares the move writes: `from`, `to`, the pawn taken en passant
      and, for a castle, the rook's two squares. */
  predicate Written(b: Board, m: PotentialMove, k: int)
    requires InRange(b, m)
  {
    k == m.from || k == m.to
    || (HasBit(m.bits, EN_PASSANT_FLAG) && k == Behind(b.side, m.to))
    || (HasBit(m.bits, CASTLE_FLAG) && CastleTarget(m.to) && (k == RookFrom(m.to) || k == RookTo(m.to)))
  }

  /** The squares of an accepted move, one by one: `from` is emptied; `to`
      holds a piece of the mover, the promotion piece when PROMOTE_FLAG is
      set and the moving piece otherwise; the pawn taken en passant is
      gone; a castling rook has left its corner for the square beside the
      king; every other square is as it was. */
  lemma Squares(b: Board, m: PotentialMove, k: int)
    requires Shaped(b) && InRange(b, m) && MoveOutcome(b, m).Legal? && 0 <= k < 64
    ensures HasBit(m.bits, CASTLE_FLAG) ==> CastleTarget(m.to)
    ensures |MoveOutcome(b, m).board.pieceColor| == 64 && |MoveOutcome(b, m).board.pieceType| == 64
    ensures var n := MoveOutcome(b, m).board;
      (k == m.from ==> n.pieceColor[k] == EMPTY && n.pieceType[k] == EMPTY)
      && (k == m.to && k != m.from ==>
            n.pieceColor[k] == b.side
            && n.pieceType[k] == (if HasBit(m.bits, PROMOTE_FLAG) then m.promote else b.pieceType[m.from]))
      && (HasBit(m.bits, EN_PASSANT_FLAG) && k == Behind(b.side, m.to) ==>
            n.pieceColor[k] == EMPTY && n.pieceType[k] == EMPTY)
      && (HasBit(m.bits, CASTLE_FLAG) && k == RookFrom(m.to) && k != m.to ==>
            n.pieceColor[k] == EMPTY && n.pieceType[k] == EMPTY)
      && (HasBit(m.bits, CASTLE_FLAG) && k == RookTo(m.to) && !Touches(m.from, m.to, k) ==>
            n.pieceColor[k] == b.pieceColor[RookFrom(m.to)] && n.pieceType[k] == b.pieceType[RookFrom(m.to)])
      && (!Written(b, m, k) ==> n.pieceColor[k] == b.pieceColor[k] && n.pieceType[k] == b.pieceType[k])
  {
    LegalBoard(b, m);
    SuccessorSquares(b, m, k);
  }

  /** The squares of the written copy. */
  lemma SuccessorSquares(b: Board, m: PotentialMove, k: int)
    requires Shaped(b) && InRange(b, m) && 0 <= k < 64
    requires HasBit(m.bits, CASTLE_FLAG) ==> CastleTarget(m.to)
    ensures |Successor(b, m).pieceColor| == 64 && |Successor(b, m).pieceType| == 64
    ensures var n := Successor(b, m);
      (k == m.from ==> n.pieceColor[k] == EMPTY && n.pieceType[k] == EMPTY)
      && (k == m.to && k != m.from ==>
            n.pieceColor[k] == b.side
            && n.pieceType[k] == (if HasBit(m.bits, PROMOTE_FLAG) then m.promote else b.pieceType[m.from]))
      && (HasBit(m.bits, EN_PASSANT_FLAG) && k == Behind(b.side, m.to) ==>
            n.pieceColor[k] == EMPTY && n.pieceType[k] == EMPTY)
      && (HasBit(m.bits, CASTLE_FLAG) && k == RookFrom(m.to) && k != m.to ==>
            n.pieceColor[k] == EMPTY && n.pieceType[k] == EMPTY)
      && (HasBit(m.bits, CASTLE_FLAG) && k == RookTo(m.to) && !Touches(m.from, m.to, k) ==>
            n.pieceColor[k] == b.pieceColor[RookFrom(m.to)] && n.pieceType[k] == b.pieceType[RookFrom(m.to)])
      && (!Written(b, m, k) ==> n.pieceColor[k] == b.pieceColor[k] && n.pieceType[k] == b.pieceType[k])
  {
    var castling := HasBit(m.bits, CASTLE_FLAG);
    var c0 := if castling then CastleRook(b.pieceColor, m.to) else b.pieceColor;
    var t0 := if castling then CastleRook(b.pieceType, m.to) else b.pieceType;
    MovedSquares(c0, t0, b, m, k);
    if castling {
      RookSquares(b.pieceColor, m.to, k);
      RookSquares(b.pieceType, m.to, k);
    }
  }

  /** The squares the moving piece writes, on the colours c and types t. */
  lemma MovedSquares(c: seq<int>, t: seq<int>, b: Board, m: PotentialMove, k: int)
    requires |c| == 64 && |t| == 64 && Shaped(b) && InRange(b, m) && 0 <= k < 64
    ensures var nc, nt := MovedColors(c, b, m), MovedTypes(t, b, m);
      (k == m.from ==> nc[k] == EMPTY && nt[k] == EMPTY)
      && (HasBit(m.bits, EN_PASSANT_FLAG) && k == Behind(b.side, m.to) ==> nc[k] == EMPTY && nt[k] == EMPTY)
      && (k == m.to && k != m.from && !(HasBit(m.bits, EN_PASSANT_FLAG) && k == Behind(b.side, m.to)) ==>
            nc[k] == b.side
            && nt[k] == (if HasBit(m.bits, PROMOTE_FLAG) then m.promote else b.pieceType[m.from]))
      && (k != m.to && k != m.from && !(HasBit(m.bits, EN_PASSANT_FLAG) && k == Behind(b.side, m.to)) ==>
            nc[k] == c[k] && nt[k] == t[k])
  {
  }

  /** The rook of a castle onto `to` leaves its corner for the square beside
      the king. */
  lemma RookSquares(s: seq<int>, to: int, k: int)
    requires |s| == 64 && CastleTarget(to) && 0 <= k < 64
    ensures CastleRook(s, to)[k] ==
      if k == RookFrom(to) then EMPTY else if k == RookTo(to) then s[RookFrom(to)] else s[k]
  {
  }

  /** The moves the generator lists are ones `makeMove` can apply, and
      none of them makes it throw. */
  lemma GeneratedApplies(b: Board, m: PotentialMove)
    requires Shaped(b) && m in PseudoMoves(b)
    ensures InRange(b, m) && MoveOutcome(b, m) != FailedToCastle
  {
    PseudoMovesSound(b);
  }
}
