/** `getPsuedoMoveForPiece`: the one candidate move of the side to move from
    a given square to a given square, looked up in the generator's order
    (pawn captures, pushes, en passant; or the piece's rays; then castling
    for a king), or none. */
module MoveLookup {
  import opened Wrappers
  import opened Geometry
  import opened Boards
  import opened Attack
  import opened MoveGen

  // ---------------------------------------------------------------------
  // Specification

  /** The move found along one ray from `from`, continuing from square n:
      the first square that is toSq, when it is empty or holds an
      opponent's piece and is reached before a blocker. */
  function RayFind(b: Board, from: int, n: int, d: int, slide: bool, toSq: int): Option<PotentialMove>
    requires Shaped(b) && 0 <= n < 64 && IsDirection(d)
    decreases RayMeasure(n, d)
  {
    StepProgress(n, d);
    var next := Step(n, d);
    if next == -1 then None
    else if b.pieceColor[next] != EMPTY then
      (if b.pieceColor[next] == b.xside && toSq == next then Some(CreateMove(from, next, CAPTURE_FLAG, EMPTY))
       else None)
    else if toSq == next then Some(CreateMove(from, next, 0, EMPTY))
    else if !slide then None
    else RayFind(b, from, next, d, slide, toSq)
  }

  /** The move found along directions j.. of the piece on square i. */
  function RaysFind(b: Board, i: int, j: int, toSq: int): Option<PotentialMove>
    requires Shaped(b) && 0 <= i < 64 && 0 <= j <= Offsets(b.pieceType[i])
    decreases Offsets(b.pieceType[i]) - j
  {
    var t := b.pieceType[i];
    if j == Offsets(t) then None
    else
      OffsetIsDirection(t, j);
      var found := RayFind(b, i, i, Offset(t, j), Slide(t), toSq);
      if found.Some? then found else RaysFind(b, i, j + 1, toSq)
  }

  /** The pawn branch: the captures, then the pushes, then the en-passant
      tests.  The en-passant tests look only at the en-passant square and
      the pawns diagonally behind it: as written, the move they return
      starts on such a pawn whichever square was asked about. */
  function PawnFind(b: Board, fromSq: int, toSq: int, prom: int): Option<PotentialMove>
    requires Shaped(b) && 0 <= fromSq < 64
  {
    var capture := PawnCaptureFind(b, fromSq, toSq, prom);
    var push := PawnPushFind(b, fromSq, toSq, prom);
    if capture.Some? then capture else if push.Some? then push else EpFind(b, toSq)
  }

  /** The capture of the pawn on fromSq onto toSq, towards the a-file
      first. */
  function PawnCaptureFind(b: Board, fromSq: int, toSq: int, prom: int): Option<PotentialMove>
    requires Shaped(b) && 0 <= fromSq < 64
  {
    if b.side == WHITE then
      if GetFile(fromSq) != 0 && ColorIs(b, fromSq - 9, BLACK) && toSq == fromSq - 9 then
        Some(CreateMove(fromSq, fromSq - 9, PAWN_CAPTURE, prom))
      else if GetFile(fromSq) != 7 && ColorIs(b, fromSq - 7, BLACK) && toSq == fromSq - 7 then
        Some(CreateMove(fromSq, fromSq - 7, PAWN_CAPTURE, prom))
      else None
    else
      if GetFile(fromSq) != 0 && ColorIs(b, fromSq + 7, WHITE) && toSq == fromSq + 7 then
        Some(CreateMove(fromSq, fromSq + 7, PAWN_CAPTURE, prom))
      else if GetFile(fromSq) != 7 && ColorIs(b, fromSq + 9, WHITE) && toSq == fromSq + 9 then
        Some(CreateMove(fromSq, fromSq + 9, PAWN_CAPTURE, prom))
      else None
  }

  /** The single or, from the starting row, double push of the pawn on
      fromSq onto toSq. */
  function PawnPushFind(b: Board, fromSq: int, toSq: int, prom: int): Option<PotentialMove>
    requires Shaped(b) && 0 <= fromSq < 64
  {
    if b.side == WHITE then
      if ColorIs(b, fromSq - 8, EMPTY) && toSq == fromSq - 8 then
        Some(CreateMove(fromSq, fromSq - 8, PAWN_PUSH, prom))
      else if ColorIs(b, fromSq - 8, EMPTY) && fromSq >= 48 && ColorIs(b, fromSq - 16, EMPTY) && toSq == fromSq - 16 then
        Some(CreateMove(fromSq, fromSq - 16, PAWN_DOUBLE, prom))
      else None
    else
      if ColorIs(b, fromSq + 8, EMPTY) && toSq == fromSq + 8 then
        Some(CreateMove(fromSq, fromSq + 8, PAWN_PUSH, prom))
      else if ColorIs(b, fromSq + 8, EMPTY) && fromSq <= 15 && ColorIs(b, fromSq + 16, EMPTY) && toSq == fromSq + 16 then
        Some(CreateMove(fromSq, fromSq + 16, PAWN_DOUBLE, prom))
      else None
  }

  /** The en-passant capture onto toSq, by the pawn towards the a-file
      first. */
  function EpFind(b: Board, toSq: int): Option<PotentialMove>
    requires Shaped(b)
  {
    if b.side == WHITE then
      if b.ep == toSq && GetFile(b.ep) != 0 && ColorIs(b, b.ep + 7, WHITE) && TypeIs(b, b.ep + 7, PAWN) then
        Some(CreateMove(b.ep + 7, b.ep, EP_CAPTURE, EMPTY))
      else if b.ep == toSq && GetFile(b.ep) != 7 && ColorIs(b, b.ep + 9, WHITE) && TypeIs(b, b.ep + 9, PAWN) then
        Some(CreateMove(b.ep + 9, b.ep, EP_CAPTURE, EMPTY))
      else None
    else
      if b.ep == toSq && GetFile(b.ep) != 0 && ColorIs(b, b.ep - 9, BLACK) && TypeIs(b, b.ep - 9, PAWN) then
        Some(CreateMove(b.ep - 9, b.ep, EP_CAPTURE, EMPTY))
      else if b.ep == toSq && GetFile(b.ep) != 7 && ColorIs(b, b.ep - 7, BLACK) && TypeIs(b, b.ep - 7, PAWN) then
        Some(CreateMove(b.ep - 7, b.ep, EP_CAPTURE, EMPTY))
      else None
  }

  /** The castling branch for a king: one of the two castles of the side to
      move whose right is still held, by the rights word alone. */
  function CastleFind(b: Board, toSq: int): Option<PotentialMove>
    requires Shaped(b)
  {
    if b.side == WHITE then
      if HasBit(b.castle, CASTLE_WHITE_KING_FLAG) && toSq == G1 then Some(CreateMove(E1, G1, CASTLE_FLAG, EMPTY))
      else if HasBit(b.castle, CASTLE_WHITE_QUEEN_FLAG) && toSq == C1 then Some(CreateMove(E1, C1, CASTLE_FLAG, EMPTY))
      else None
    else
      if HasBit(b.castle, CASTLE_BLACK_KING_FLAG) && toSq == G8 then Some(CreateMove(E8, G8, CASTLE_FLAG, EMPTY))
      else if HasBit(b.castle, CASTLE_BLACK_QUEEN_FLAG) && toSq == C8 then Some(CreateMove(E8, C8, CASTLE_FLAG, EMPTY))
      else None
  }

  /** `getPsuedoMoveForPiece(board, fromSq, toSq, promPiece)`: nothing unless
      fromSq holds a piece of the side to move; then the pawn or ray move to
      toSq, or failing that a castle when the piece is a king.  Only pawn
      moves other than en passant carry the requested promotion piece. */
  function PseudoMoveFor(b: Board, fromSq: int, toSq: int, prom: int): Option<PotentialMove>
    requires Shaped(b)
  {
    if !ColorIs(b, fromSq, b.side) then None
    else
      var found := if b.pieceType[fromSq] == PAWN then PawnFind(b, fromSq, toSq, prom)
                   else RaysFind(b, fromSq, 0, toSq);
      if found.Some? then found
      else if b.pieceType[fromSq] == KING then CastleFind(b, toSq)
      else None
  }

  // ---------------------------------------------------------------------
  // The lookup as the engine runs it

  method GetPseudoMoveForPiece(b: Board, fromSq: int, toSq: int, prom: int) returns (r: Option<PotentialMove>)
    requires Shaped(b)
    ensures r == PseudoMoveFor(b, fromSq, toSq, prom)
  {
    if !ColorIs(b, fromSq, b.side) {
      // not the mover's turn, or no piece there
      return None;
    }
    if b.pieceType[fromSq] == PAWN {
      r := FindPawnMove(b, fromSq, toSq, prom);
      if r.Some? {
        return;
      }
    } else {
      var t := b.pieceType[fromSq];
      var j := 0;
      while j < Offsets(t)
        invariant 0 <= j <= Offsets(t)
        invariant RaysFind(b, fromSq, j, toSq) == RaysFind(b, fromSq, 0, toSq)
      {
        OffsetIsDirection(t, j);
        r := FindOnRay(b, fromSq, Offset(t, j), Slide(t), toSq);
        if r.Some? {
          return;
        }
        j := j + 1;
      }
    }

    /* castle moves */
    if b.pieceType[fromSq] == KING {
      if b.side == WHITE {
        if HasBit(b.castle, 1) && toSq == G1 {
          return Some(CreateMove(E1, G1, CASTLE_FLAG, EMPTY));
        }
        if HasBit(b.castle, 2) && toSq == C1 {
          return Some(CreateMove(E1, C1, CASTLE_FLAG, EMPTY));
        }
      } else {
        if HasBit(b.castle, 4) && toSq == G8 {
          return Some(CreateMove(E8, G8, CASTLE_FLAG, EMPTY));
        }
        if HasBit(b.castle, 8) && toSq == C8 {
          return Some(CreateMove(E8, C8, CASTLE_FLAG, EMPTY));
        }
      }
    }
    return None;
  }

  /** The pawn branch of the lookup, with its early returns. */
  method FindPawnMove(b: Board, fromSq: int, toSq: int, prom: int) returns (r: Option<PotentialMove>)
    requires Shaped(b) && 0 <= fromSq < 64
    ensures r == PawnFind(b, fromSq, toSq, prom)
  {
    if b.side == WHITE {
      if GetFile(fromSq) != 0 && ColorIs(b, fromSq - 9, BLACK) {
        if toSq == fromSq - 9 {
          return Some(CreateMove(fromSq, fromSq - 9, PAWN_CAPTURE, prom));
        }
      }
      if GetFile(fromSq) != 7 && ColorIs(b, fromSq - 7, BLACK) {
        if toSq == fromSq - 7 {
          return Some(CreateMove(fromSq, fromSq - 7, PAWN_CAPTURE, prom));
        }
      }
      if ColorIs(b, fromSq - 8, EMPTY) {
        if toSq == fromSq - 8 {
          return Some(CreateMove(fromSq, fromSq - 8, PAWN_PUSH, prom));
        }
        if fromSq >= 48 && ColorIs(b, fromSq - 16, EMPTY) {
          if toSq == fromSq - 16 {
            return Some(CreateMove(fromSq, fromSq - 16, PAWN_DOUBLE, prom));
          }
        }
      }
      if b.ep == toSq {
        if GetFile(b.ep) != 0 && ColorIs(b, b.ep + 7, WHITE) && TypeIs(b, b.ep + 7, PAWN) {
          return Some(CreateMove(b.ep + 7, b.ep, EP_CAPTURE, EMPTY));
        }
        if GetFile(b.ep) != 7 && ColorIs(b, b.ep + 9, WHITE) && TypeIs(b, b.ep + 9, PAWN) {
          return Some(CreateMove(b.ep + 9, b.ep, EP_CAPTURE, EMPTY));
        }
      }
    } else {
      if GetFile(fromSq) != 0 && ColorIs(b, fromSq + 7, WHITE) {
        if toSq == fromSq + 7 {
          return Some(CreateMove(fromSq, fromSq + 7, PAWN_CAPTURE, prom));
        }
      }
      if GetFile(fromSq) != 7 && ColorIs(b, fromSq + 9, WHITE) {
        if toSq == fromSq + 9 {
          return Some(CreateMove(fromSq, fromSq + 9, PAWN_CAPTURE, prom));
        }
      }
      if ColorIs(b, fromSq + 8, EMPTY) {
        if toSq == fromSq + 8 {
          return Some(CreateMove(fromSq, fromSq + 8, PAWN_PUSH, prom));
        }
        if fromSq <= 15 && ColorIs(b, fromSq + 16, EMPTY) {
          if toSq == fromSq + 16 {
            return Some(CreateMove(fromSq, fromSq + 16, PAWN_DOUBLE, prom));
          }
        }
      }
      if b.ep == toSq {
        if GetFile(b.ep) != 0 && ColorIs(b, b.ep - 9, BLACK) && TypeIs(b, b.ep - 9, PAWN) {
          return Some(CreateMove(b.ep - 9, b.ep, EP_CAPTURE, EMPTY));
        }
        if GetFile(b.ep) != 7 && ColorIs(b, b.ep - 7, BLACK) && TypeIs(b, b.ep - 7, PAWN) {
          return Some(CreateMove(b.ep - 7, b.ep, EP_CAPTURE, EMPTY));
        }
      }
    }
    return None;
  }

  /** The inner `for (n = fromSq; ; )` walk of the lookup. */
  method FindOnRay(b: Board, from: int, d: int, slide: bool, toSq: int) returns (r: Option<PotentialMove>)
    requires Shaped(b) && 0 <= from < 64 && IsDirection(d)
    ensures r == RayFind(b, from, from, d, slide, toSq)
  {
    var n := from;
    while true
      invariant 0 <= n < 64
      invariant RayFind(b, from, n, d, slide, toSq) == RayFind(b, from, from, d, slide, toSq)
      decreases RayMeasure(n, d)
    {
      StepProgress(n, d);
      n := Step(n, d);
      if n == -1 {
        return None;
      }
      if b.pieceColor[n] != EMPTY {
        if b.pieceColor[n] == b.xside {
          if toSq == n {
            return Some(CreateMove(from, n, CAPTURE_FLAG, EMPTY));
          }
        }
        return None;
      }
      if toSq == n {
        return Some(CreateMove(from, n, 0, EMPTY));
      }
      if !slide {
        return None;
      }
    }
  }

  // ---------------------------------------------------------------------
  // What the lookup finds

  /** A move the lookup returns ends on the square asked for and obeys the
      generator's movement rules.  It starts on the square asked for unless
      it is an en-passant capture or a castle: as written, a king anywhere
      on the board is answered with the castle from E1 or E8 when the right
      is held. */
  lemma PseudoMoveForSound(b: Board, fromSq: int, toSq: int, prom: int)
    requires Shaped(b) && 0 <= toSq < 64
    ensures PseudoMoveFor(b, fromSq, toSq, prom).Some? ==>
      var m := PseudoMoveFor(b, fromSq, toSq, prom).value;
      MoveSound(b, m) && m.to == toSq
      && (m.from == fromSq || HasBit(m.bits, EN_PASSANT_FLAG) || HasBit(m.bits, CASTLE_FLAG))
  {
    if ColorIs(b, fromSq, b.side) {
      if b.pieceType[fromSq] == PAWN {
        PawnFindSound(b, fromSq, toSq, prom);
      } else {
        RaysFindSound(b, fromSq, 0, toSq);
      }
      CastleFindSound(b, toSq);
    }
  }

  /** The flags of a move created with a promotion request. */
  lemma CreatedSound(b: Board, from: int, to: int, bits: int, prom: int)
    requires Shaped(b) && 0 <= bits < 64 && !HasBit(bits, PROMOTE_FLAG)
    requires MoveSound(b, PotentialMove(from, to, bits, EMPTY))
    ensures MoveSound(b, CreateMove(from, to, bits, prom))
  {
    CreateMoveFlags(from, to, bits, prom);
    assert IsFlag(CAPTURE_FLAG) && IsFlag(CASTLE_FLAG) && IsFlag(EN_PASSANT_FLAG) && IsFlag(DOUBLE_PAWN_FLAG);
  }

  lemma PawnFindSound(b: Board, fromSq: int, toSq: int, prom: int)
    requires Shaped(b) && 0 <= fromSq < 64 && 0 <= toSq < 64
    requires ColorIs(b, fromSq, b.side) && TypeIs(b, fromSq, PAWN)
    ensures PawnFind(b, fromSq, toSq, prom).Some? ==>
      var m := PawnFind(b, fromSq, toSq, prom).value;
      MoveSound(b, m) && m.to == toSq && (m.from == fromSq || HasBit(m.bits, EN_PASSANT_FLAG))
  {
    PawnCaptureFindSound(b, fromSq, toSq, prom);
    PawnPushFindSound(b, fromSq, toSq, prom);
    EpFindSound(b, toSq);
  }

  lemma PawnCaptureFindSound(b: Board, fromSq: int, toSq: int, prom: int)
    requires Shaped(b) && 0 <= fromSq < 64 && 0 <= toSq < 64
    requires ColorIs(b, fromSq, b.side) && TypeIs(b, fromSq, PAWN)
    ensures var r := PawnCaptureFind(b, fromSq, toSq, prom);
      r.Some? ==> MoveSound(b, r.value) && r.value.to == toSq && r.value.from == fromSq
  {
    var r := PawnCaptureFind(b, fromSq, toSq, prom);
    if r.Some? {
      assert r.value == CreateMove(fromSq, toSq, PAWN_CAPTURE, prom) && ColorIs(b, toSq, b.xside);
      PawnBase(b, fromSq, toSq, PAWN_CAPTURE);
      CreatedSound(b, fromSq, toSq, PAWN_CAPTURE, prom);
    }
  }

  lemma PawnPushFindSound(b: Board, fromSq: int, toSq: int, prom: int)
    requires Shaped(b) && 0 <= fromSq < 64 && 0 <= toSq < 64
    requires ColorIs(b, fromSq, b.side) && TypeIs(b, fromSq, PAWN)
    ensures var r := PawnPushFind(b, fromSq, toSq, prom);
      r.Some? ==> MoveSound(b, r.value) && r.value.to == toSq && r.value.from == fromSq
  {
    var r := PawnPushFind(b, fromSq, toSq, prom);
    if r.Some? {
      var bits := if toSq == Behind(b.xside, fromSq) then PAWN_PUSH else PAWN_DOUBLE;
      assert r.value == CreateMove(fromSq, toSq, bits, prom) && ColorIs(b, toSq, EMPTY);
      PawnBase(b, fromSq, toSq, bits);
      CreatedSound(b, fromSq, toSq, bits, prom);
    }
  }

  lemma EpFindSound(b: Board, toSq: int)
    requires Shaped(b) && 0 <= toSq < 64
    ensures var r := EpFind(b, toSq);
      r.Some? ==> MoveSound(b, r.value) && r.value.to == toSq && HasBit(r.value.bits, EN_PASSANT_FLAG)
  {
    AllWordFlags();
    var r := EpFind(b, toSq);
    if r.Some? {
      EpBase(b, r.value.from);
      assert r.value == CreateMove(r.value.from, b.ep, EP_CAPTURE, EMPTY);
      CreateMoveFlags(r.value.from, b.ep, EP_CAPTURE, EMPTY);
    }
  }

  /** A pawn capture onto an opponent's piece, a push onto an empty square
      and a double push from the starting row onto an empty square are
      sound moves. */
  lemma PawnBase(b: Board, from: int, to: int, bits: int)
    requires Shaped(b) && 0 <= from < 64
    requires ColorIs(b, from, b.side) && TypeIs(b, from, PAWN)
    requires bits == PAWN_CAPTURE ==> ColorIs(b, to, b.xside)
    requires bits == PAWN_PUSH ==> ColorIs(b, to, EMPTY)
    requires bits == PAWN_DOUBLE ==> ColorIs(b, to, EMPTY) && (if b.side == WHITE then from >= 48 && to == from - 16 else from <= 15 && to == from + 16)
    requires bits == PAWN_CAPTURE || bits == PAWN_PUSH || bits == PAWN_DOUBLE
    ensures 0 <= bits < 64 && !HasBit(bits, PROMOTE_FLAG)
    ensures MoveSound(b, PotentialMove(from, to, bits, EMPTY))
  {
    AllWordFlags();
  }

  /** The en-passant capture by the pawn on square from is sound. */
  lemma EpBase(b: Board, from: int)
    requires Shaped(b) && 0 <= b.ep < 64
    requires if b.side == WHITE then
        (from == b.ep + 7 && GetFile(b.ep) != 0) || (from == b.ep + 9 && GetFile(b.ep) != 7)
      else (from == b.ep - 9 && GetFile(b.ep) != 0) || (from == b.ep - 7 && GetFile(b.ep) != 7)
    requires ColorIs(b, from, b.side) && TypeIs(b, from, PAWN)
    ensures MoveSound(b, CreateMove(from, b.ep, EP_CAPTURE, EMPTY))
  {
    AllWordFlags();
  }

  lemma {:induction false} RayFindSound(b: Board, from: int, n: int, d: int, slide: bool, toSq: int)
    requires Shaped(b) && 0 <= from < 64 && 0 <= n < 64 && IsDirection(d)
    requires ColorIs(b, from, b.side)
    ensures RayFind(b, from, n, d, slide, toSq).Some? ==>
      var m := RayFind(b, from, n, d, slide, toSq).value;
      m.to == toSq && m.from == from && MoveSound(b, m)
    decreases RayMeasure(n, d)
  {
    StepProgress(n, d);
    AllWordFlags();
    var next := Step(n, d);
    if next != -1 {
      if b.pieceColor[next] != EMPTY {
        if b.pieceColor[next] == b.xside {
          CreatedSound(b, from, next, CAPTURE_FLAG, EMPTY);
        }
      } else if toSq == next {
        CreatedSound(b, from, next, 0, EMPTY);
      } else if slide {
        RayFindSound(b, from, next, d, slide, toSq);
      }
    }
  }

  lemma {:induction false} RaysFindSound(b: Board, i: int, j: int, toSq: int)
    requires Shaped(b) && 0 <= i < 64 && 0 <= j <= Offsets(b.pieceType[i])
    requires ColorIs(b, i, b.side)
    ensures RaysFind(b, i, j, toSq).Some? ==>
      var m := RaysFind(b, i, j, toSq).value;
      m.to == toSq && m.from == i && MoveSound(b, m)
    decreases Offsets(b.pieceType[i]) - j
  {
    var t := b.pieceType[i];
    if j < Offsets(t) {
      OffsetIsDirection(t, j);
      RayFindSound(b, i, i, Offset(t, j), Slide(t), toSq);
      RaysFindSound(b, i, j + 1, toSq);
    }
  }

  lemma CastleFindSound(b: Board, toSq: int)
    requires Shaped(b)
    ensures CastleFind(b, toSq).Some? ==>
      var m := CastleFind(b, toSq).value;
      m.to == toSq && MoveSound(b, m)
  {
    AllWordFlags();
    if b.side == WHITE {
      CreatedSound(b, E1, G1, CASTLE_FLAG, EMPTY);
      CreatedSound(b, E1, C1, CASTLE_FLAG, EMPTY);
    } else {
      CreatedSound(b, E8, G8, CASTLE_FLAG, EMPTY);
      CreatedSound(b, E8, C8, CASTLE_FLAG, EMPTY);
    }
  }

  /** The move the lookup returns ahead of makeMove is one the generator
      lists, provided its promotion piece is one the generator would use:
      EMPTY for a move that does not reach the last row as a pawn, KNIGHT
      to QUEEN for one that does. */
  lemma PseudoMoveForListed(b: Board, fromSq: int, toSq: int, prom: int)
    requires Shaped(b) && 0 <= toSq < 64
    ensures var r := PseudoMoveFor(b, fromSq, toSq, prom);
      r.Some? && 0 <= r.value.bits < 64 && PromoteMatches(b, r.value) ==> r.value in PseudoMoves(b)
  {
    var r := PseudoMoveFor(b, fromSq, toSq, prom);
    if r.Some? && 0 <= r.value.bits < 64 && PromoteMatches(b, r.value) {
      var m := r.value;
      var ps := PseudoMoves(b);
      assert ps == BoardMoves(b, |b.pieceColor|) + CastleMoves(b) + EpMoves(b);
      var found := if b.pieceType[fromSq] == PAWN then PawnFind(b, fromSq, toSq, prom)
                   else RaysFind(b, fromSq, 0, toSq);
      if found.Some? {
        if b.pieceType[fromSq] == PAWN {
          PawnFindListed(b, fromSq, toSq, prom);
        } else {
          RaysFindListed(b, fromSq, 0, toSq);
        }
        if m in PieceMoves(b, fromSq) {
          BoardMovesHas(b, fromSq, 64, m);
        }
      } else {
        CastleFindListed(b, toSq);
      }
    }
  }

  /** The promotion piece of a move is the one the generator gives it. */
  predicate PromoteMatches(b: Board, m: PotentialMove)
    requires 0 <= m.bits < 64
  {
    if Promotes(b, m.to, m.bits) then KNIGHT <= m.promote <= QUEEN else m.promote == EMPTY
  }

  /** A created move with a matching promotion piece is among those
      `addPsuedoMove` pushes. */
  lemma InAdded(b: Board, from: int, to: int, bits: int, prom: int)
    requires 0 <= bits < 64 && !HasBit(bits, PROMOTE_FLAG)
    requires PromoteMatches(b, CreateMove(from, to, bits, prom))
    ensures CreateMove(from, to, bits, prom) in Added(b, from, to, bits)
  {
    CreateMoveFlags(from, to, bits, prom);
    assert IsFlag(PAWN_MOVE_FLAG);
    var m := CreateMove(from, to, bits, prom);
    if Promotes(b, to, bits) {
      PromoteTwice(bits);
      var ps := Promotions(from, to, bits);
      var x := BitOr(bits, PROMOTE_FLAG);
      assert m.promote == prom && KNIGHT <= prom <= QUEEN;
      assert m == PotentialMove(from, to, x, prom);
      assert ps[prom - KNIGHT] == CreateMove(from, to, x, prom);
      assert CreateMove(from, to, x, prom) == PotentialMove(from, to, BitOr(x, PROMOTE_FLAG), prom);
    }
  }

  lemma {:induction false} BoardMovesHas(b: Board, i: int, k: int, x: PotentialMove)
    requires Shaped(b) && 0 <= i < k <= 64
    requires ColorIs(b, i, b.side) && x in PieceMoves(b, i)
    ensures x in BoardMoves(b, k)
  {
    var rest := if ColorIs(b, k - 1, b.side) then PieceMoves(b, k - 1) else [];
    assert BoardMoves(b, k) == BoardMoves(b, k - 1) + rest;
    if k - 1 != i {
      BoardMovesHas(b, i, k - 1, x);
    } else {
      assert x in rest;
    }
  }

  lemma {:induction false} RaysUpToHas(b: Board, i: int, j: int, k: int, x: PotentialMove)
    requires Shaped(b) && 0 <= i < 64 && 0 <= j <= k <= Offsets(b.pieceType[i])
    requires x in RaysUpTo(b, i, j)
    ensures x in RaysUpTo(b, i, k)
    decreases k
  {
    if k > j {
      RaysUpToHas(b, i, j, k - 1, x);
      var t := b.pieceType[i];
      OffsetIsDirection(t, k - 1);
      var front, ray := RaysUpTo(b, i, k - 1), RayMoves(b, i, i, Offset(t, k - 1), Slide(t));
      assert RaysUpTo(b, i, k) == front + ray;
      assert x in front + ray;
    }
  }

  lemma {:induction false} RayFindListed(b: Board, from: int, n: int, d: int, slide: bool, toSq: int)
    requires Shaped(b) && 0 <= n < 64 && IsDirection(d)
    ensures RayFind(b, from, n, d, slide, toSq).Some? ==>
      RayFind(b, from, n, d, slide, toSq).value in RayMoves(b, from, n, d, slide)
    decreases RayMeasure(n, d)
  {
    StepProgress(n, d);
    AllWordFlags();
    var next := Step(n, d);
    if next != -1 {
      if b.pieceColor[next] != EMPTY {
        InAdded(b, from, next, CAPTURE_FLAG, EMPTY);
      } else {
        InAdded(b, from, next, 0, EMPTY);
        if toSq != next && slide {
          RayFindListed(b, from, next, d, slide, toSq);
        }
      }
    }
  }

  lemma {:induction false} RaysFindListed(b: Board, i: int, j: int, toSq: int)
    requires Shaped(b) && 0 <= i < 64 && 0 <= j <= Offsets(b.pieceType[i])
    ensures RaysFind(b, i, j, toSq).Some? ==>
      RaysFind(b, i, j, toSq).value in RaysUpTo(b, i, Offsets(b.pieceType[i]))
    decreases Offsets(b.pieceType[i]) - j
  {
    var t := b.pieceType[i];
    if j < Offsets(t) {
      OffsetIsDirection(t, j);
      var found := RayFind(b, i, i, Offset(t, j), Slide(t), toSq);
      if found.Some? {
        RayFindListed(b, i, i, Offset(t, j), Slide(t), toSq);
        assert found.value in RaysUpTo(b, i, j + 1);
        RaysUpToHas(b, i, j + 1, Offsets(t), found.value);
      } else {
        RaysFindListed(b, i, j + 1, toSq);
      }
    }
  }

  lemma CastleFindListed(b: Board, toSq: int)
    requires Shaped(b)
    ensures CastleFind(b, toSq).Some? ==> CastleFind(b, toSq).value in CastleMoves(b)
  {
    AllWordFlags();
    InAdded(b, E1, G1, CASTLE_FLAG, EMPTY);
    InAdded(b, E1, C1, CASTLE_FLAG, EMPTY);
    InAdded(b, E8, G8, CASTLE_FLAG, EMPTY);
    InAdded(b, E8, C8, CASTLE_FLAG, EMPTY);
  }

  lemma PawnFindListed(b: Board, fromSq: int, toSq: int, prom: int)
    requires Shaped(b) && 0 <= fromSq < 64 && 0 <= toSq < 64
    ensures var r := PawnFind(b, fromSq, toSq, prom);
      r.Some? && 0 <= r.value.bits < 64 && PromoteMatches(b, r.value) ==>
        r.value in PawnMoves(b, fromSq) || r.value in EpMoves(b)
  {
    PawnCaptureFindListed(b, fromSq, toSq, prom);
    PawnPushFindListed(b, fromSq, toSq, prom);
    EpFindListed(b, toSq);
  }

  lemma PawnCaptureFindListed(b: Board, fromSq: int, toSq: int, prom: int)
    requires Shaped(b) && 0 <= fromSq < 64 && 0 <= toSq < 64
    ensures var r := PawnCaptureFind(b, fromSq, toSq, prom);
      r.Some? && PromoteMatches(b, r.value) ==> r.value in PawnMoves(b, fromSq)
  {
    AllWordFlags();
    var r := PawnCaptureFind(b, fromSq, toSq, prom);
    if r.Some? && PromoteMatches(b, r.value) {
      InAdded(b, fromSq, toSq, PAWN_CAPTURE, prom);
      assert r.value in PawnCaptures(b, fromSq);
    }
  }

  lemma PawnPushFindListed(b: Board, fromSq: int, toSq: int, prom: int)
    requires Shaped(b) && 0 <= fromSq < 64 && 0 <= toSq < 64
    ensures var r := PawnPushFind(b, fromSq, toSq, prom);
      r.Some? && PromoteMatches(b, r.value) ==> r.value in PawnMoves(b, fromSq)
  {
    AllWordFlags();
    var r := PawnPushFind(b, fromSq, toSq, prom);
    if r.Some? && PromoteMatches(b, r.value) {
      var bits := if toSq == Behind(b.xside, fromSq) then PAWN_PUSH else PAWN_DOUBLE;
      assert r.value == CreateMove(fromSq, toSq, bits, prom);
      InAdded(b, fromSq, toSq, bits, prom);
      assert r.value in PawnPushes(b, fromSq);
    }
  }

  lemma EpFindListed(b: Board, toSq: int)
    requires Shaped(b) && 0 <= toSq < 64
    ensures var r := EpFind(b, toSq);
      r.Some? && PromoteMatches(b, r.value) ==> r.value in EpMoves(b)
  {
    AllWordFlags();
    var r := EpFind(b, toSq);
    if r.Some? && PromoteMatches(b, r.value) {
      InAdded(b, r.value.from, b.ep, EP_CAPTURE, EMPTY);
    }
  }
}
