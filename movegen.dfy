/** Pseudo-move generation: every move of the side to move that obeys the
    pieces' movement rules, before the legality test of `makeMove`.
    `getAllPossiblePsuedoMoves` lists them all (squares 0..63 in order,
    then castling, then en passant), `addPsuedoMove` and `addPromotion`
    expand a pawn move onto the last rank into its four promotions, and
    `getPsuedoMoveForPiece` looks up the one move from a square to a
    square. */
module MoveGen {
  import opened Geometry
  import opened Boards
  import opened Attack

  // flag words the generator passes
  const PAWN_CAPTURE := 17   // PAWN_MOVE_FLAG | CAPTURE_FLAG
  const PAWN_PUSH := 16      // PAWN_MOVE_FLAG
  const PAWN_DOUBLE := 24    // PAWN_MOVE_FLAG | DOUBLE_PAWN_FLAG
  const EP_CAPTURE := 21     // CAPTURE_FLAG | PAWN_MOVE_FLAG | EN_PASSANT_FLAG

  lemma FlagWords()
    ensures PAWN_CAPTURE == BitOr(PAWN_MOVE_FLAG, CAPTURE_FLAG)
    ensures PAWN_DOUBLE == BitOr(PAWN_MOVE_FLAG, DOUBLE_PAWN_FLAG)
    ensures EP_CAPTURE == BitOr(BitOr(CAPTURE_FLAG, PAWN_MOVE_FLAG), EN_PASSANT_FLAG)
  {
    LowFlags(16);
    LowFlags(17);
    OrDisjoint(16, 1);
    OrDisjoint(16, 8);
    OrAdd(1, 16);
    OrDisjoint(17, 4);
  }

  // ---------------------------------------------------------------------
  // addPromotion / addPsuedoMove

  /** The four moves `addPromotion` pushes: promotion to knight, bishop,
      rook and queen, in that order. */
  function Promotions(from: int, to: int, bits: int): seq<PotentialMove>
    requires 0 <= bits < 64
  {
    OrBelow(bits, PROMOTE_FLAG, 64);
    seq(4, k requires 0 <= k < 4 => CreateMove(from, to, BitOr(bits, PROMOTE_FLAG), KNIGHT + k))
  }

  /** Does `addPsuedoMove` expand this move into promotions: a pawn move
      onto row 0 for White or row 7 for Black. */
  predicate Promotes(b: Board, to: int, bits: int)
    requires 0 <= bits < 64
  {
    HasBit(bits, PAWN_MOVE_FLAG) && (if b.side == WHITE then to <= H8 else to >= A1)
  }

  /** The moves `addPsuedoMove` pushes for one candidate. */
  function Added(b: Board, from: int, to: int, bits: int): seq<PotentialMove>
    requires 0 <= bits < 64
  {
    if Promotes(b, to, bits) then Promotions(from, to, bits)
    else [CreateMove(from, to, bits, EMPTY)]
  }

  /** A pawn move onto the last row becomes exactly four moves, promoting
      to KNIGHT..QUEEN in that order with PROMOTE_FLAG set and the other
      flags kept; every other move is pushed once, unchanged, promoting to
      EMPTY. */
  lemma PromotionExpansion(b: Board, from: int, to: int, bits: int)
    requires 0 <= bits < 64
    ensures var ms := Added(b, from, to, bits);
      if Promotes(b, to, bits) then
        |ms| == 4 && forall k :: 0 <= k < 4 ==>
          ms[k].from == from && ms[k].to == to && ms[k].promote == KNIGHT + k
          && 0 <= ms[k].bits < 64 && HasBit(ms[k].bits, PROMOTE_FLAG)
          && forall f :: IsFlag(f) && f != PROMOTE_FLAG ==> (HasBit(ms[k].bits, f) <==> HasBit(bits, f))
      else
        ms == [PotentialMove(from, to, bits, EMPTY)]
  {
    PromoteBits(bits);
    var x := BitOr(bits, PROMOTE_FLAG);
    PromoteTwice(bits);
    var ms := Added(b, from, to, bits);
    if Promotes(b, to, bits) {
      forall k | 0 <= k < 4
        ensures ms[k].from == from && ms[k].to == to && ms[k].promote == KNIGHT + k
        ensures 0 <= ms[k].bits < 64 && HasBit(ms[k].bits, PROMOTE_FLAG)
        ensures forall f :: IsFlag(f) && f != PROMOTE_FLAG ==> (HasBit(ms[k].bits, f) <==> HasBit(bits, f))
      {
        assert ms[k] == CreateMove(from, to, x, KNIGHT + k);
        assert ms[k].bits == x;
        assert IsFlag(PROMOTE_FLAG);
      }
      assert |ms| == 4;
    }
  }

  /** Adding PROMOTE_FLAG twice is adding it once. */
  lemma PromoteTwice(bits: int)
    requires 0 <= bits < 64
    ensures 0 <= BitOr(bits, PROMOTE_FLAG) < 64
    ensures BitOr(BitOr(bits, PROMOTE_FLAG), PROMOTE_FLAG) == BitOr(bits, PROMOTE_FLAG)
  {
    OrBelow(bits, PROMOTE_FLAG, 64);
    OrTwice(bits, PROMOTE_FLAG);
  }

  /** `addPromotion`: push the four promotions onto result. */
  method AddPromotion(result: seq<PotentialMove>, from: int, to: int, bits: int)
    returns (r: seq<PotentialMove>)
    requires 0 <= bits < 64
    ensures r == result + Promotions(from, to, bits)
  {
    OrBelow(bits, PROMOTE_FLAG, 64);
    r := result;
    var i := KNIGHT;
    while i <= QUEEN
      invariant KNIGHT <= i <= QUEEN + 1
      invariant r == result + Promotions(from, to, bits)[..i - KNIGHT]
    {
      r := r + [CreateMove(from, to, BitOr(bits, PROMOTE_FLAG), i)];
      i := i + 1;
    }
    assert Promotions(from, to, bits)[..4] == Promotions(from, to, bits);
  }

  /** `addPsuedoMove`: push the candidate, or its four promotions. */
  method AddPseudoMove(b: Board, result: seq<PotentialMove>, from: int, to: int, bits: int)
    returns (r: seq<PotentialMove>)
    requires 0 <= bits < 64
    ensures r == result + Added(b, from, to, bits)
  {
    if HasBit(bits, 16) {
      if b.side == WHITE {
        if to <= H8 {
          r := AddPromotion(result, from, to, bits);
          return;
        }
      } else {
        if to >= A1 {
          r := AddPromotion(result, from, to, bits);
          return;
        }
      }
    }
    r := result + [CreateMove(from, to, bits, EMPTY)];
  }

  // ---------------------------------------------------------------------
  // getAllPossiblePsuedoMoves, as a specification

  /** The moves along one ray from `from`, continuing from square n: each
      empty square, then a capture if the blocker belongs to the opponent.
      A piece that does not slide takes one step. */
  function RayMoves(b: Board, from: int, n: int, d: int, slide: bool): seq<PotentialMove>
    requires Shaped(b) && 0 <= n < 64 && IsDirection(d)
    decreases RayMeasure(n, d)
  {
    StepProgress(n, d);
    var next := Step(n, d);
    if next == -1 then []
    else if b.pieceColor[next] != EMPTY then
      (if b.pieceColor[next] == b.xside then Added(b, from, next, CAPTURE_FLAG) else [])
    else
      Added(b, from, next, 0) + (if slide then RayMoves(b, from, next, d, slide) else [])
  }

  /** The moves along the first j directions of the piece on square i. */
  function RaysUpTo(b: Board, i: int, j: int): seq<PotentialMove>
    requires Shaped(b) && 0 <= i < 64 && 0 <= j <= Offsets(b.pieceType[i])
  {
    var t := b.pieceType[i];
    if j == 0 then []
    else
      OffsetIsDirection(t, j - 1);
      RaysUpTo(b, i, j - 1) + RayMoves(b, i, i, Offset(t, j - 1), Slide(t))
  }

  /** The moves of the pawn on square i: the two captures, the single push
      and, from the starting row, the double push. */
  function PawnMoves(b: Board, i: int): seq<PotentialMove>
    requires Shaped(b) && 0 <= i < 64
  {
    PawnCaptures(b, i) + PawnPushes(b, i)
  }

  /** The captures of the pawn on square i, towards the a-file first. */
  function PawnCaptures(b: Board, i: int): seq<PotentialMove>
    requires Shaped(b) && 0 <= i < 64
  {
    if b.side == WHITE then
      (if GetFile(i) != 0 && ColorIs(b, i - 9, BLACK) then Added(b, i, i - 9, PAWN_CAPTURE) else [])
      + (if GetFile(i) != 7 && ColorIs(b, i - 7, BLACK) then Added(b, i, i - 7, PAWN_CAPTURE) else [])
    else
      (if GetFile(i) != 0 && ColorIs(b, i + 7, WHITE) then Added(b, i, i + 7, PAWN_CAPTURE) else [])
      + (if GetFile(i) != 7 && ColorIs(b, i + 9, WHITE) then Added(b, i, i + 9, PAWN_CAPTURE) else [])
  }

  /** The single push of the pawn on square i and, from its starting row,
      the double push. */
  function PawnPushes(b: Board, i: int): seq<PotentialMove>
    requires Shaped(b) && 0 <= i < 64
  {
    if b.side == WHITE then
      (if ColorIs(b, i - 8, EMPTY) then
         Added(b, i, i - 8, PAWN_PUSH)
         + (if i >= 48 && ColorIs(b, i - 16, EMPTY) then Added(b, i, i - 16, PAWN_DOUBLE) else [])
       else [])
    else
      (if ColorIs(b, i + 8, EMPTY) then
         Added(b, i, i + 8, PAWN_PUSH)
         + (if i <= 15 && ColorIs(b, i + 16, EMPTY) then Added(b, i, i + 16, PAWN_DOUBLE) else [])
       else [])
  }

  /** The moves of the piece on square i, whoever owns it. */
  function PieceMoves(b: Board, i: int): seq<PotentialMove>
    requires Shaped(b) && 0 <= i < 64
  {
    if b.pieceType[i] == PAWN then PawnMoves(b, i) else RaysUpTo(b, i, Offsets(b.pieceType[i]))
  }

  /** The moves from squares 0..i-1 that hold a piece of the side to move. */
  function BoardMoves(b: Board, i: int): seq<PotentialMove>
    requires Shaped(b) && 0 <= i <= 64
  {
    if i == 0 then []
    else BoardMoves(b, i - 1) + (if ColorIs(b, i - 1, b.side) then PieceMoves(b, i - 1) else [])
  }

  /** Castling moves, one per right still held; which piece stands on the
      king's square is not looked at. */
  function CastleMoves(b: Board): seq<PotentialMove>
    requires Shaped(b)
  {
    if b.side == WHITE then
      (if HasBit(b.castle, 1) then Added(b, E1, G1, CASTLE_FLAG) else [])
      + (if HasBit(b.castle, 2) then Added(b, E1, C1, CASTLE_FLAG) else [])
    else
      (if HasBit(b.castle, 4) then Added(b, E8, G8, CASTLE_FLAG) else [])
      + (if HasBit(b.castle, 8) then Added(b, E8, C8, CASTLE_FLAG) else [])
  }

  /** En-passant captures onto the en-passant square by a pawn of the side
      to move standing diagonally behind it. */
  function EpMoves(b: Board): seq<PotentialMove>
    requires Shaped(b)
  {
    if b.ep == -1 then []
    else if b.side == WHITE then
      (if GetFile(b.ep) != 0 && ColorIs(b, b.ep + 7, WHITE) && TypeIs(b, b.ep + 7, PAWN)
       then Added(b, b.ep + 7, b.ep, EP_CAPTURE) else [])
      + (if GetFile(b.ep) != 7 && ColorIs(b, b.ep + 9, WHITE) && TypeIs(b, b.ep + 9, PAWN)
         then Added(b, b.ep + 9, b.ep, EP_CAPTURE) else [])
    else
      (if GetFile(b.ep) != 0 && ColorIs(b, b.ep - 9, BLACK) && TypeIs(b, b.ep - 9, PAWN)
       then Added(b, b.ep - 9, b.ep, EP_CAPTURE) else [])
      + (if GetFile(b.ep) != 7 && ColorIs(b, b.ep - 7, BLACK) && TypeIs(b, b.ep - 7, PAWN)
         then Added(b, b.ep - 7, b.ep, EP_CAPTURE) else [])
  }

  /** `getAllPossiblePsuedoMoves` */
  function PseudoMoves(b: Board): seq<PotentialMove>
    requires Shaped(b)
  {
    BoardMoves(b, |b.pieceColor|) + CastleMoves(b) + EpMoves(b)
  }

  // ---------------------------------------------------------------------
  // getAllPossiblePsuedoMoves, as the engine runs it

  method GetAllPossiblePseudoMoves(b: Board) returns (result: seq<PotentialMove>)
    requires Shaped(b)
    ensures result == PseudoMoves(b)
  {
    result := [];
    var i := 0;
    while i < 64
      invariant 0 <= i <= 64
      invariant result == BoardMoves(b, i)
    {
      if b.pieceColor[i] == b.side {
        assert ColorIs(b, i, b.side);
        result := GenPiece(b, result, i);
      }
      i := i + 1;
    }

    result := GenCastles(b, result);
    result := GenEnPassant(b, result);
  }

  /** The castling part of the generator. */
  method GenCastles(b: Board, result: seq<PotentialMove>) returns (r: seq<PotentialMove>)
    requires Shaped(b)
    ensures r == result + CastleMoves(b)
  {
    r := result;
    if b.side == WHITE {
      ghost var p1 := if HasBit(b.castle, 1) then Added(b, E1, G1, CASTLE_FLAG) else [];
      if HasBit(b.castle, 1) {
        r := AddPseudoMove(b, r, E1, G1, CASTLE_FLAG);
      }
      if HasBit(b.castle, 2) {
        r := AddPseudoMove(b, r, E1, C1, CASTLE_FLAG);
      }
      Assoc(result, p1, if HasBit(b.castle, 2) then Added(b, E1, C1, CASTLE_FLAG) else []);
    } else {
      ghost var p1 := if HasBit(b.castle, 4) then Added(b, E8, G8, CASTLE_FLAG) else [];
      if HasBit(b.castle, 4) {
        r := AddPseudoMove(b, r, E8, G8, CASTLE_FLAG);
      }
      if HasBit(b.castle, 8) {
        r := AddPseudoMove(b, r, E8, C8, CASTLE_FLAG);
      }
      Assoc(result, p1, if HasBit(b.castle, 8) then Added(b, E8, C8, CASTLE_FLAG) else []);
    }
  }

  /** The en-passant part of the generator. */
  method GenEnPassant(b: Board, result: seq<PotentialMove>) returns (r: seq<PotentialMove>)
    requires Shaped(b)
    ensures r == result + EpMoves(b)
  {
    r := result;
    if b.ep != -1 {
      var e := b.ep;
      var left, right, l, rt;
      if b.side == WHITE {
        left := GetFile(e) != 0 && ColorIs(b, e + 7, WHITE) && TypeIs(b, e + 7, PAWN);
        right := GetFile(e) != 7 && ColorIs(b, e + 9, WHITE) && TypeIs(b, e + 9, PAWN);
        l, rt := e + 7, e + 9;
      } else {
        left := GetFile(e) != 0 && ColorIs(b, e - 9, BLACK) && TypeIs(b, e - 9, PAWN);
        right := GetFile(e) != 7 && ColorIs(b, e - 7, BLACK) && TypeIs(b, e - 7, PAWN);
        l, rt := e - 9, e - 7;
      }
      ghost var p1 := if left then Added(b, l, e, EP_CAPTURE) else [];
      ghost var p2 := if right then Added(b, rt, e, EP_CAPTURE) else [];
      assert EpMoves(b) == p1 + p2;
      r := AddIf(b, r, left, l, e, EP_CAPTURE);
      r := AddIf(b, r, right, rt, e, EP_CAPTURE);
      Assoc(result, p1, p2);
    }
  }

  /** `addPsuedoMove` under the test that guards it. */
  method AddIf(b: Board, result: seq<PotentialMove>, c: bool, from: int, to: int, bits: int)
    returns (r: seq<PotentialMove>)
    requires 0 <= bits < 64
    ensures r == result + (if c then Added(b, from, to, bits) else [])
  {
    if c {
      r := AddPseudoMove(b, result, from, to, bits);
    } else {
      r := result;
    }
  }

  /** The body of the square scan for the piece on square i. */
  method GenPiece(b: Board, result: seq<PotentialMove>, i: int) returns (r: seq<PotentialMove>)
    requires Shaped(b) && 0 <= i < 64
    ensures r == result + PieceMoves(b, i)
  {
    if b.pieceType[i] == PAWN {
      r := GenPawn(b, result, i);
    } else {
      r := GenRays(b, result, i);
    }
  }

  /** The rays of the piece on square i, one offset after another. */
  method GenRays(b: Board, result: seq<PotentialMove>, i: int) returns (r: seq<PotentialMove>)
    requires Shaped(b) && 0 <= i < 64 && b.pieceType[i] != PAWN
    ensures r == result + RaysUpTo(b, i, Offsets(b.pieceType[i]))
  {
    r := result;
    var t := b.pieceType[i];
    var j := 0;
    while j < Offsets(t)
      invariant 0 <= j <= Offsets(t)
      invariant r == result + RaysUpTo(b, i, j)
    {
      OffsetIsDirection(t, j);
      r := GenRay(b, r, i, Offset(t, j), Slide(t));
      Assoc(result, RaysUpTo(b, i, j), RayMoves(b, i, i, Offset(t, j), Slide(t)));
      j := j + 1;
    }
  }

  /** The pawn branch of the square scan. */
  method GenPawn(b: Board, result: seq<PotentialMove>, i: int) returns (r: seq<PotentialMove>)
    requires Shaped(b) && 0 <= i < 64
    ensures r == result + PawnMoves(b, i)
  {
    r := GenPawnCaptures(b, result, i);
    r := GenPawnPushes(b, r, i);
    Assoc(result, PawnCaptures(b, i), PawnPushes(b, i));
  }

  method GenPawnCaptures(b: Board, result: seq<PotentialMove>, i: int) returns (r: seq<PotentialMove>)
    requires Shaped(b) && 0 <= i < 64
    ensures r == result + PawnCaptures(b, i)
  {
    var left, right, leftTo, rightTo;
    if b.side == WHITE {
      left, leftTo := GetFile(i) != 0 && ColorIs(b, i - 9, BLACK), i - 9;
      right, rightTo := GetFile(i) != 7 && ColorIs(b, i - 7, BLACK), i - 7;
    } else {
      left, leftTo := GetFile(i) != 0 && ColorIs(b, i + 7, WHITE), i + 7;
      right, rightTo := GetFile(i) != 7 && ColorIs(b, i + 9, WHITE), i + 9;
    }
    ghost var l := if left then Added(b, i, leftTo, PAWN_CAPTURE) else [];
    ghost var rt := if right then Added(b, i, rightTo, PAWN_CAPTURE) else [];
    assert PawnCaptures(b, i) == l + rt;
    r := AddIf(b, result, left, i, leftTo, PAWN_CAPTURE);
    r := AddIf(b, r, right, i, rightTo, PAWN_CAPTURE);
    Assoc(result, l, rt);
  }

  method GenPawnPushes(b: Board, result: seq<PotentialMove>, i: int) returns (r: seq<PotentialMove>)
    requires Shaped(b) && 0 <= i < 64
    ensures r == result + PawnPushes(b, i)
  {
    r := result;
    if b.side == WHITE {
      if ColorIs(b, i - 8, EMPTY) {
        ghost var p4 := if i >= 48 && ColorIs(b, i - 16, EMPTY) then Added(b, i, i - 16, PAWN_DOUBLE) else [];
        r := AddPseudoMove(b, r, i, i - 8, PAWN_PUSH);
        if i >= 48 && ColorIs(b, i - 16, EMPTY) {
          r := AddPseudoMove(b, r, i, i - 16, PAWN_DOUBLE);
        }
        Assoc(result, Added(b, i, i - 8, PAWN_PUSH), p4);
      }
    } else {
      if ColorIs(b, i + 8, EMPTY) {
        ghost var p4 := if i <= 15 && ColorIs(b, i + 16, EMPTY) then Added(b, i, i + 16, PAWN_DOUBLE) else [];
        r := AddPseudoMove(b, r, i, i + 8, PAWN_PUSH);
        if i <= 15 && ColorIs(b, i + 16, EMPTY) {
          r := AddPseudoMove(b, r, i, i + 16, PAWN_DOUBLE);
        }
        Assoc(result, Added(b, i, i + 8, PAWN_PUSH), p4);
      }
    }
  }

  lemma Assoc<T>(a: seq<T>, b: seq<T>, c: seq<T>)
    ensures a + b + c == a + (b + c)
  {
  }

  /** The inner `for (n = i; ; )` walk of the generator. */
  method GenRay(b: Board, result: seq<PotentialMove>, from: int, d: int, slide: bool)
    returns (r: seq<PotentialMove>)
    requires Shaped(b) && 0 <= from < 64 && IsDirection(d)
    ensures r == result + RayMoves(b, from, from, d, slide)
  {
    r := result;
    var n := from;
    while true
      invariant 0 <= n < 64
      invariant r + RayMoves(b, from, n, d, slide) == result + RayMoves(b, from, from, d, slide)
      decreases RayMeasure(n, d)
    {
      StepProgress(n, d);
      var next := Step(n, d);
      if next == -1 {
        return;
      }
      if b.pieceColor[next] != EMPTY {
        if b.pieceColor[next] == b.xside {
          r := AddPseudoMove(b, r, from, next, CAPTURE_FLAG);
        }
        return;
      }
      ghost var r0 := r;
      r := AddPseudoMove(b, r, from, next, 0);
      if !slide {
        return;
      }
      Assoc(r0, Added(b, from, next, 0), RayMoves(b, from, next, d, slide));
      n := next;
    }
  }

  // ---------------------------------------------------------------------
  // What a generated move satisfies

  /** The square behind `sq` as seen by `side`: the square an en-passant
      capture empties and a double push passes over. */
  function Behind(side: int, sq: int): int
  {
    if side == WHITE then sq + 8 else sq - 8
  }

  /** A move `makeMove` can apply without writing off the board: squares on
      the board, a 6-bit flag word, and the square behind the target on the
      board when the move is an en-passant capture or a double push. */
  predicate InRange(b: Board, m: PotentialMove)
  {
    0 <= m.from < 64 && 0 <= m.to < 64 && 0 <= m.bits < 64
    && ((HasBit(m.bits, EN_PASSANT_FLAG) || HasBit(m.bits, DOUBLE_PAWN_FLAG)) ==> 0 <= Behind(b.side, m.to) < 64)
  }

  /** A move that obeys the movement rules as the generator applies them:
      a castle goes from the king's home square to one of its two castling
      squares (whatever stands there); any other move starts on a piece of
      the side to move; a capture lands on an opponent's piece, except en
      passant, which lands on the en-passant square; a quiet move lands on
      an empty square; a double push is a pawn moving two rows forward; and
      PROMOTE_FLAG is set exactly when a promotion piece is named. */
  predicate MoveSound(b: Board, m: PotentialMove)
    requires Shaped(b)
  {
    InRange(b, m)
    && (HasBit(m.bits, PROMOTE_FLAG) <==> m.promote != EMPTY)
    && (HasBit(m.bits, CASTLE_FLAG) ==>
          if b.side == WHITE then m.from == E1 && (m.to == G1 || m.to == C1)
          else m.from == E8 && (m.to == G8 || m.to == C8))
    && (!HasBit(m.bits, CASTLE_FLAG) ==> ColorIs(b, m.from, b.side))
    && (HasBit(m.bits, EN_PASSANT_FLAG) ==> m.to == b.ep && TypeIs(b, m.from, PAWN))
    && (HasBit(m.bits, DOUBLE_PAWN_FLAG) ==>
          TypeIs(b, m.from, PAWN) && m.to == (if b.side == WHITE then m.from - 16 else m.from + 16))
    && (HasBit(m.bits, CAPTURE_FLAG) && !HasBit(m.bits, EN_PASSANT_FLAG) ==> ColorIs(b, m.to, b.xside))
    && (!HasBit(m.bits, CAPTURE_FLAG) && !HasBit(m.bits, CASTLE_FLAG) ==> ColorIs(b, m.to, EMPTY))
  }

  /** The flags set in each flag word the generator passes. */
  lemma WordFlags(f: int)
    requires IsFlag(f)
    ensures !HasBit(0, f)
    ensures HasBit(CAPTURE_FLAG, f) <==> f == CAPTURE_FLAG
    ensures HasBit(CASTLE_FLAG, f) <==> f == CASTLE_FLAG
    ensures HasBit(PAWN_PUSH, f) <==> f == PAWN_MOVE_FLAG
    ensures HasBit(PAWN_CAPTURE, f) <==> f == PAWN_MOVE_FLAG || f == CAPTURE_FLAG
    ensures HasBit(PAWN_DOUBLE, f) <==> f == PAWN_MOVE_FLAG || f == DOUBLE_PAWN_FLAG
    ensures HasBit(EP_CAPTURE, f) <==> f == PAWN_MOVE_FLAG || f == CAPTURE_FLAG || f == EN_PASSANT_FLAG
  {
    if f == 1 {} else if f == 2 {} else if f == 4 {} else if f == 8 {} else if f == 16 {} else {}
  }

  /** The same table, flag by flag, for each flag word. */
  lemma AllWordFlags()
    ensures !HasBit(0, CAPTURE_FLAG) && !HasBit(0, CASTLE_FLAG) && !HasBit(0, EN_PASSANT_FLAG) && !HasBit(0, DOUBLE_PAWN_FLAG) && !HasBit(0, PAWN_MOVE_FLAG) && !HasBit(0, PROMOTE_FLAG)
    ensures HasBit(CAPTURE_FLAG, CAPTURE_FLAG) && !HasBit(CAPTURE_FLAG, CASTLE_FLAG) && !HasBit(CAPTURE_FLAG, EN_PASSANT_FLAG) && !HasBit(CAPTURE_FLAG, DOUBLE_PAWN_FLAG) && !HasBit(CAPTURE_FLAG, PAWN_MOVE_FLAG) && !HasBit(CAPTURE_FLAG, PROMOTE_FLAG)
    ensures !HasBit(CASTLE_FLAG, CAPTURE_FLAG) && HasBit(CASTLE_FLAG, CASTLE_FLAG) && !HasBit(CASTLE_FLAG, EN_PASSANT_FLAG) && !HasBit(CASTLE_FLAG, DOUBLE_PAWN_FLAG) && !HasBit(CASTLE_FLAG, PAWN_MOVE_FLAG) && !HasBit(CASTLE_FLAG, PROMOTE_FLAG)
    ensures !HasBit(PAWN_PUSH, CAPTURE_FLAG) && !HasBit(PAWN_PUSH, CASTLE_FLAG) && !HasBit(PAWN_PUSH, EN_PASSANT_FLAG) && !HasBit(PAWN_PUSH, DOUBLE_PAWN_FLAG) && HasBit(PAWN_PUSH, PAWN_MOVE_FLAG) && !HasBit(PAWN_PUSH, PROMOTE_FLAG)
    ensures HasBit(PAWN_CAPTURE, CAPTURE_FLAG) && !HasBit(PAWN_CAPTURE, CASTLE_FLAG) && !HasBit(PAWN_CAPTURE, EN_PASSANT_FLAG) && !HasBit(PAWN_CAPTURE, DOUBLE_PAWN_FLAG) && HasBit(PAWN_CAPTURE, PAWN_MOVE_FLAG) && !HasBit(PAWN_CAPTURE, PROMOTE_FLAG)
    ensures !HasBit(PAWN_DOUBLE, CAPTURE_FLAG) && !HasBit(PAWN_DOUBLE, CASTLE_FLAG) && !HasBit(PAWN_DOUBLE, EN_PASSANT_FLAG) && HasBit(PAWN_DOUBLE, DOUBLE_PAWN_FLAG) && HasBit(PAWN_DOUBLE, PAWN_MOVE_FLAG) && !HasBit(PAWN_DOUBLE, PROMOTE_FLAG)
    ensures HasBit(EP_CAPTURE, CAPTURE_FLAG) && !HasBit(EP_CAPTURE, CASTLE_FLAG) && HasBit(EP_CAPTURE, EN_PASSANT_FLAG) && !HasBit(EP_CAPTURE, DOUBLE_PAWN_FLAG) && HasBit(EP_CAPTURE, PAWN_MOVE_FLAG) && !HasBit(EP_CAPTURE, PROMOTE_FLAG)
  {
    WordFlags(CAPTURE_FLAG);
    WordFlags(CASTLE_FLAG);
    WordFlags(EN_PASSANT_FLAG);
    WordFlags(DOUBLE_PAWN_FLAG);
    WordFlags(PAWN_MOVE_FLAG);
    WordFlags(PROMOTE_FLAG);
  }

  /** The promotion piece is EMPTY or one of knight, bishop, rook, queen. */
  predicate PromoteKnown(m: PotentialMove)
  {
    m.promote == EMPTY || KNIGHT <= m.promote <= QUEEN
  }

  /** Expanding a sound move into promotions keeps every move sound. */
  lemma AddedSound(b: Board, from: int, to: int, bits: int)
    requires Shaped(b) && 0 <= bits < 64 && !HasBit(bits, PROMOTE_FLAG)
    requires MoveSound(b, PotentialMove(from, to, bits, EMPTY))
    ensures forall x :: x in Added(b, from, to, bits) ==> MoveSound(b, x) && PromoteKnown(x)
  {
    PromotionExpansion(b, from, to, bits);
    var ms := Added(b, from, to, bits);
    if Promotes(b, to, bits) {
      forall x | x in ms
        ensures MoveSound(b, x) && PromoteKnown(x)
      {
        var k :| 0 <= k < 4 && ms[k] == x;
        assert IsFlag(CAPTURE_FLAG) && IsFlag(CASTLE_FLAG) && IsFlag(EN_PASSANT_FLAG) && IsFlag(DOUBLE_PAWN_FLAG);
      }
    }
  }

  /** Every move along a ray from a piece of the side to move is sound. */
  lemma {:induction false} RayMovesSound(b: Board, from: int, n: int, d: int, slide: bool)
    requires Shaped(b) && 0 <= from < 64 && 0 <= n < 64 && IsDirection(d)
    requires ColorIs(b, from, b.side)
    ensures forall x :: x in RayMoves(b, from, n, d, slide) ==> MoveSound(b, x) && PromoteKnown(x)
    decreases RayMeasure(n, d)
  {
    StepProgress(n, d);
    AllWordFlags();
    var next := Step(n, d);
    if next != -1 {
      if b.pieceColor[next] != EMPTY {
        if b.pieceColor[next] == b.xside {
          AddedSound(b, from, next, CAPTURE_FLAG);
        }
      } else {
        AddedSound(b, from, next, 0);
        if slide {
          RayMovesSound(b, from, next, d, slide);
        }
      }
    }
  }

  lemma {:induction false} RaysUpToSound(b: Board, i: int, j: int)
    requires Shaped(b) && 0 <= i < 64 && 0 <= j <= Offsets(b.pieceType[i])
    requires ColorIs(b, i, b.side)
    ensures forall x :: x in RaysUpTo(b, i, j) ==> MoveSound(b, x) && PromoteKnown(x)
  {
    if j > 0 {
      var t := b.pieceType[i];
      OffsetIsDirection(t, j - 1);
      RaysUpToSound(b, i, j - 1);
      RayMovesSound(b, i, i, Offset(t, j - 1), Slide(t));
    }
  }

  lemma PawnMovesSound(b: Board, i: int)
    requires Shaped(b) && 0 <= i < 64
    requires ColorIs(b, i, b.side) && TypeIs(b, i, PAWN)
    ensures forall x :: x in PawnMoves(b, i) ==> MoveSound(b, x) && PromoteKnown(x)
  {
    var (l, r) := if b.side == WHITE then (i - 9, i - 7) else (i + 7, i + 9);
    PawnCaptureSound(b, i, l, GetFile(i) != 0);
    PawnCaptureSound(b, i, r, GetFile(i) != 7);
    PawnPushSound(b, i);
  }

  lemma PawnCaptureSound(b: Board, i: int, to: int, edge: bool)
    requires Shaped(b) && 0 <= i < 64
    requires ColorIs(b, i, b.side) && TypeIs(b, i, PAWN)
    ensures edge && ColorIs(b, to, b.xside) ==>
      forall x :: x in Added(b, i, to, PAWN_CAPTURE) ==> MoveSound(b, x) && PromoteKnown(x)
  {
    if edge && ColorIs(b, to, b.xside) {
      AllWordFlags();
      AddedSound(b, i, to, PAWN_CAPTURE);
    }
  }

  lemma PawnPushSound(b: Board, i: int)
    requires Shaped(b) && 0 <= i < 64
    requires ColorIs(b, i, b.side) && TypeIs(b, i, PAWN)
    ensures var one := Behind(b.xside, i); var two := Behind(b.xside, one);
      ColorIs(b, one, EMPTY) ==>
        (forall x :: x in Added(b, i, one, PAWN_PUSH) ==> MoveSound(b, x) && PromoteKnown(x))
        && ((if b.side == WHITE then i >= 48 else i <= 15) && ColorIs(b, two, EMPTY) ==>
              forall x :: x in Added(b, i, two, PAWN_DOUBLE) ==> MoveSound(b, x) && PromoteKnown(x))
  {
    AllWordFlags();
    var one := Behind(b.xside, i);
    var two := Behind(b.xside, one);
    if ColorIs(b, one, EMPTY) {
      AddedSound(b, i, one, PAWN_PUSH);
      if (if b.side == WHITE then i >= 48 else i <= 15) && ColorIs(b, two, EMPTY) {
        AddedSound(b, i, two, PAWN_DOUBLE);
      }
    }
  }

  lemma {:induction false} BoardMovesSound(b: Board, i: int)
    requires Shaped(b) && 0 <= i <= 64
    ensures forall x :: x in BoardMoves(b, i) ==> MoveSound(b, x) && PromoteKnown(x)
  {
    if i > 0 {
      BoardMovesSound(b, i - 1);
      if ColorIs(b, i - 1, b.side) {
        if b.pieceType[i - 1] == PAWN {
          PawnMovesSound(b, i - 1);
        } else {
          RaysUpToSound(b, i - 1, Offsets(b.pieceType[i - 1]));
        }
      }
    }
  }

  lemma CastleMovesSound(b: Board)
    requires Shaped(b)
    ensures forall x :: x in CastleMoves(b) ==> MoveSound(b, x) && PromoteKnown(x)
  {
    AllWordFlags();
    if b.side == WHITE {
      AddedSound(b, E1, G1, CASTLE_FLAG);
      AddedSound(b, E1, C1, CASTLE_FLAG);
    } else {
      AddedSound(b, E8, G8, CASTLE_FLAG);
      AddedSound(b, E8, C8, CASTLE_FLAG);
    }
  }

  lemma EpMovesSound(b: Board)
    requires Shaped(b)
    ensures forall x :: x in EpMoves(b) ==> MoveSound(b, x) && PromoteKnown(x)
  {
    AllWordFlags();
    var e := b.ep;
    if e != -1 {
      if b.side == WHITE {
        if GetFile(e) != 0 && ColorIs(b, e + 7, WHITE) && TypeIs(b, e + 7, PAWN) { AddedSound(b, e + 7, e, EP_CAPTURE); }
        if GetFile(e) != 7 && ColorIs(b, e + 9, WHITE) && TypeIs(b, e + 9, PAWN) { AddedSound(b, e + 9, e, EP_CAPTURE); }
      } else {
        if GetFile(e) != 0 && ColorIs(b, e - 9, BLACK) && TypeIs(b, e - 9, PAWN) { AddedSound(b, e - 9, e, EP_CAPTURE); }
        if GetFile(e) != 7 && ColorIs(b, e - 7, BLACK) && TypeIs(b, e - 7, PAWN) { AddedSound(b, e - 7, e, EP_CAPTURE); }
      }
    }
  }

  /** Every pseudo-move obeys the movement rules, names no promotion piece
      but knight to queen, and can be applied by `makeMove`. */
  lemma PseudoMovesSound(b: Board)
    requires Shaped(b)
    ensures forall x :: x in PseudoMoves(b) ==> MoveSound(b, x) && PromoteKnown(x)
  {
    BoardMovesSound(b, |b.pieceColor|);
    CastleMovesSound(b);
    EpMovesSound(b);
  }

  /** Castling candidates depend only on the rights word: the squares
      between king and rook, and what stands on E1 or E8, are not looked
      at here. */
  lemma CastleUnconditional(b: Board)
    requires Shaped(b)
    ensures b.side == WHITE && HasBit(b.castle, CASTLE_WHITE_KING_FLAG) ==> PotentialMove(E1, G1, CASTLE_FLAG, EMPTY) in PseudoMoves(b)
    ensures b.side == WHITE && HasBit(b.castle, CASTLE_WHITE_QUEEN_FLAG) ==> PotentialMove(E1, C1, CASTLE_FLAG, EMPTY) in PseudoMoves(b)
    ensures b.side == BLACK && HasBit(b.castle, CASTLE_BLACK_KING_FLAG) ==> PotentialMove(E8, G8, CASTLE_FLAG, EMPTY) in PseudoMoves(b)
    ensures b.side == BLACK && HasBit(b.castle, CASTLE_BLACK_QUEEN_FLAG) ==> PotentialMove(E8, C8, CASTLE_FLAG, EMPTY) in PseudoMoves(b)
  {
    AllWordFlags();
    PromotionExpansion(b, E1, G1, CASTLE_FLAG);
    PromotionExpansion(b, E1, C1, CASTLE_FLAG);
    PromotionExpansion(b, E8, G8, CASTLE_FLAG);
    PromotionExpansion(b, E8, C8, CASTLE_FLAG);
    var ps := PseudoMoves(b);
    assert ps == BoardMoves(b, |b.pieceColor|) + CastleMoves(b) + EpMoves(b);
  }
}
