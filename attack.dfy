/** Attack detection: `isAttacked` scans the board for pieces of one side
    and walks each piece's rays until a blocker; `isInCheck` finds a side's
    king and asks whether the other side attacks it. */
module Attack {
  import opened Geometry
  import opened Boards

  /** The measure that a walk in direction d from padded index
      Mailbox64(n) decreases: the walk moves by d on the padded board and
      stays inside it. */
  function RayMeasure(n: int, d: int): nat
    requires 0 <= n < 64
  {
    Mailbox64At(n);
    if d > 0 then 120 - Mailbox64(n) else Mailbox64(n)
  }

  /** The ray walk of `isAttacked` from square n in direction d: true when
      it reaches sq before leaving the board or meeting an occupied square.
      A piece that does not slide looks one step only. */
  function RayReaches(b: Board, n: int, d: int, sq: int, slide: bool): bool
    requires Shaped(b) && 0 <= n < 64 && IsDirection(d)
    decreases RayMeasure(n, d)
  {
    StepProgress(n, d);
    var next := Step(n, d);
    if next == -1 then false
    else if next == sq then true
    else if b.pieceColor[next] != EMPTY then false
    else if !slide then false
    else RayReaches(b, next, d, sq, slide)
  }

  /** Does the piece on square i, of side `bySide`, attack sq?  A pawn attacks
      the two squares diagonally ahead of it (towards row 0 for White), not
      across the a- or h-file edge; any other piece attacks along its rays.
      A piece number outside the tables has no rays. */
  predicate AttacksFrom(b: Board, i: int, sq: int, bySide: int)
    requires Shaped(b) && 0 <= i < 64
  {
    var t := b.pieceType[i];
    if t == PAWN then
      if bySide == WHITE then (GetFile(i) != 0 && i - 9 == sq) || (GetFile(i) != 7 && i - 7 == sq)
      else (GetFile(i) != 0 && i + 7 == sq) || (GetFile(i) != 7 && i + 9 == sq)
    else RaysReach(b, i, 0, sq)
  }

  /** One of the directions j.. of the piece on square i reaches sq. */
  predicate RaysReach(b: Board, i: int, j: int, sq: int)
    requires Shaped(b) && 0 <= i < 64 && 0 <= j <= Offsets(b.pieceType[i])
    decreases Offsets(b.pieceType[i]) - j
  {
    var t := b.pieceType[i];
    if j == Offsets(t) then false
    else
      OffsetIsDirection(t, j);
      RayReaches(b, i, Offset(t, j), sq, Slide(t)) || RaysReach(b, i, j + 1, sq)
  }

  /** The rays reach sq exactly when one of them does. */
  lemma {:induction false} RaysReachSome(b: Board, i: int, j: int, sq: int)
    requires Shaped(b) && 0 <= i < 64 && 0 <= j <= Offsets(b.pieceType[i])
    ensures var t := b.pieceType[i];
      RaysReach(b, i, j, sq) <==> exists k :: j <= k < Offsets(t) && RayReaches(b, i, Offset(t, k), sq, Slide(t))
    decreases Offsets(b.pieceType[i]) - j
  {
    var t := b.pieceType[i];
    if j < Offsets(t) {
      OffsetIsDirection(t, j);
      RaysReachSome(b, i, j + 1, sq);
      var here := RayReaches(b, i, Offset(t, j), sq, Slide(t));
      assert RaysReach(b, i, j, sq) == (here || RaysReach(b, i, j + 1, sq));
      if !here {
        forall k | j <= k < Offsets(t) && RayReaches(b, i, Offset(t, k), sq, Slide(t))
          ensures j + 1 <= k
        {
        }
      }
    }
  }

  /** `isAttacked(board, sq, bySide)`: some piece of side `bySide` attacks sq. */
  predicate Attacked(b: Board, sq: int, bySide: int)
    requires Shaped(b)
  {
    exists i :: 0 <= i < 64 && ColorIs(b, i, bySide) && AttacksFrom(b, i, sq, bySide)
  }

  /** Square j holds a king of side s. */
  predicate KingOf(b: Board, j: int, s: int)
  {
    TypeIs(b, j, KING) && ColorIs(b, j, s)
  }

  /** The first square at or after i holding a king of side s, or -1. */
  function FirstKing(b: Board, s: int, i: int): (k: int)
    requires Shaped(b) && 0 <= i <= 64
    ensures k == -1 || (i <= k < 64 && KingOf(b, k, s))
    ensures forall j :: i <= j < 64 && (k == -1 || j < k) ==> !KingOf(b, j, s)
    decreases 64 - i
  {
    if i == 64 then -1
    else if KingOf(b, i, s) then i
    else FirstKing(b, s, i + 1)
  }

  /** `isInCheck(board, s)`: the first king of side s is attacked by the
      other side.  As written, a side with no king counts as in check. */
  predicate InCheck(b: Board, s: int)
    requires Shaped(b) && (s == WHITE || s == BLACK)
  {
    var k := FirstKing(b, s, 0);
    k == -1 || Attacked(b, k, 1 - s)
  }

  /** A side with no king is always in check. */
  lemma NoKingInCheck(b: Board, s: int)
    requires Shaped(b) && (s == WHITE || s == BLACK)
    requires forall j :: 0 <= j < 64 ==> !KingOf(b, j, s)
    ensures InCheck(b, s)
  {
  }

  /** A side whose first king stands on k is in check exactly when the other
      side attacks k. */
  lemma InCheckAtKing(b: Board, s: int, k: int)
    requires Shaped(b) && (s == WHITE || s == BLACK)
    requires 0 <= k < 64 && KingOf(b, k, s)
    requires forall j :: 0 <= j < k ==> !KingOf(b, j, s)
    ensures InCheck(b, s) <==> Attacked(b, k, 1 - s)
  {
    var first := FirstKing(b, s, 0);
    assert first != -1 && first <= k;
    assert KingOf(b, first, s);
  }

  /** Check depends on the squares alone, not on the scalar state. */
  lemma InCheckSquares(b1: Board, b2: Board, s: int)
    requires Shaped(b1) && Shaped(b2) && (s == WHITE || s == BLACK)
    requires b1.pieceColor == b2.pieceColor && b1.pieceType == b2.pieceType
    ensures InCheck(b1, s) == InCheck(b2, s)
  {
    FirstKingSquares(b1, b2, s, 0);
    var k := FirstKing(b1, s, 0);
    if k != -1 {
      AttackedSquares(b1, b2, k, 1 - s);
    }
    SameKingSameCheck(b1, b2, s, k);
  }

  /** Boards with the same first king, attacked alike, are in check alike. */
  lemma SameKingSameCheck(b1: Board, b2: Board, s: int, k: int)
    requires Shaped(b1) && Shaped(b2) && (s == WHITE || s == BLACK)
    requires k == FirstKing(b1, s, 0) && k == FirstKing(b2, s, 0)
    requires k != -1 ==> Attacked(b1, k, 1 - s) == Attacked(b2, k, 1 - s)
    ensures InCheck(b1, s) == InCheck(b2, s)
  {
  }

  /** Attack depends on the squares alone. */
  lemma AttackedSquares(b1: Board, b2: Board, sq: int, x: int)
    requires Shaped(b1) && Shaped(b2)
    requires b1.pieceColor == b2.pieceColor && b1.pieceType == b2.pieceType
    ensures Attacked(b1, sq, x) == Attacked(b2, sq, x)
  {
    forall i | 0 <= i < 64
      ensures AttacksFrom(b1, i, sq, x) == AttacksFrom(b2, i, sq, x)
    {
      AttacksFromSquares(b1, b2, i, sq, x);
    }
  }

  lemma AttacksFromSquares(b1: Board, b2: Board, i: int, sq: int, x: int)
    requires Shaped(b1) && Shaped(b2) && 0 <= i < 64
    requires b1.pieceColor == b2.pieceColor && b1.pieceType == b2.pieceType
    ensures AttacksFrom(b1, i, sq, x) == AttacksFrom(b2, i, sq, x)
  {
    if b1.pieceType[i] != PAWN {
      RaysReachSquares(b1, b2, i, 0, sq);
    }
  }

  lemma {:induction false} RaysReachSquares(b1: Board, b2: Board, i: int, j: int, sq: int)
    requires Shaped(b1) && Shaped(b2) && 0 <= i < 64 && 0 <= j <= Offsets(b1.pieceType[i])
    requires b1.pieceColor == b2.pieceColor && b1.pieceType == b2.pieceType
    ensures RaysReach(b1, i, j, sq) == RaysReach(b2, i, j, sq)
    decreases Offsets(b1.pieceType[i]) - j
  {
    var t := b1.pieceType[i];
    if j < Offsets(t) {
      OffsetIsDirection(t, j);
      RaySquares(b1, b2, i, Offset(t, j), sq, Slide(t));
      RaysReachSquares(b1, b2, i, j + 1, sq);
    }
  }

  lemma {:induction false} FirstKingSquares(b1: Board, b2: Board, s: int, i: int)
    requires Shaped(b1) && Shaped(b2) && 0 <= i <= 64
    requires b1.pieceColor == b2.pieceColor && b1.pieceType == b2.pieceType
    ensures FirstKing(b1, s, i) == FirstKing(b2, s, i)
    decreases 64 - i
  {
    if i < 64 {
      FirstKingSquares(b1, b2, s, i + 1);
    }
  }

  lemma {:induction false} RaySquares(b1: Board, b2: Board, n: int, d: int, sq: int, slide: bool)
    requires Shaped(b1) && Shaped(b2) && 0 <= n < 64 && IsDirection(d)
    requires b1.pieceColor == b2.pieceColor && b1.pieceType == b2.pieceType
    ensures RayReaches(b1, n, d, sq, slide) == RayReaches(b2, n, d, sq, slide)
    decreases RayMeasure(n, d)
  {
    StepProgress(n, d);
    var next := Step(n, d);
    if next != -1 && next != sq && b1.pieceColor[next] == EMPTY && slide {
      RaySquares(b1, b2, next, d, sq, slide);
    }
  }

  /** `isAttacked`, as the engine scans: squares in order, and for each
      piece of the attacking side its pawn captures or its rays. */
  method IsAttacked(b: Board, sq: int, bySide: int) returns (r: bool)
    requires Shaped(b)
    ensures r == Attacked(b, sq, bySide)
  {
    var i := 0;
    while i < 64
      invariant 0 <= i <= 64
      invariant NoAttackerBelow(b, sq, bySide, i)
    {
      if b.pieceColor[i] == bySide {
        var hit := PieceAttacks(b, i, sq, bySide);
        if hit {
          assert ColorIs(b, i, bySide);
          return true;
        }
      }
      i := i + 1;
    }
    NoAttackerBelowAll(b, sq, bySide, 64);
    return false;
  }

  /** No piece of side `bySide` on the first n squares attacks sq. */
  predicate NoAttackerBelow(b: Board, sq: int, bySide: int, n: int)
    requires Shaped(b) && 0 <= n <= 64
  {
    n == 0 || (NoAttackerBelow(b, sq, bySide, n - 1)
      && !(ColorIs(b, n - 1, bySide) && AttacksFrom(b, n - 1, sq, bySide)))
  }

  lemma {:induction false} NoAttackerBelowAll(b: Board, sq: int, bySide: int, n: int)
    requires Shaped(b) && 0 <= n <= 64 && NoAttackerBelow(b, sq, bySide, n)
    ensures forall k :: 0 <= k < n ==> !(ColorIs(b, k, bySide) && AttacksFrom(b, k, sq, bySide))
  {
    if n > 0 {
      NoAttackerBelowAll(b, sq, bySide, n - 1);
    }
  }

  /** The body of the scan of `isAttacked` for the piece on square i. */
  method PieceAttacks(b: Board, i: int, sq: int, bySide: int) returns (r: bool)
    requires Shaped(b) && 0 <= i < 64
    ensures r == AttacksFrom(b, i, sq, bySide)
  {
    if b.pieceType[i] == PAWN {
      if bySide == WHITE {
        if GetFile(i) != 0 && i - 9 == sq {
          return true;
        }
        if GetFile(i) != 7 && i - 7 == sq {
          return true;
        }
      } else {
        if GetFile(i) != 0 && i + 7 == sq {
          return true;
        }
        if GetFile(i) != 7 && i + 9 == sq {
          return true;
        }
      }
      return false;
    }
    var t := b.pieceType[i];
    var j := 0;
    while j < Offsets(t)
      invariant 0 <= j <= Offsets(t)
      invariant RaysReach(b, i, j, sq) == RaysReach(b, i, 0, sq)
    {
      var d := Offset(t, j);
      OffsetIsDirection(t, j);
      var hit := WalkRay(b, i, d, sq, Slide(t));
      if hit {
        return true;
      }
      j := j + 1;
    }
    return false;
  }

  /** The inner `for (n = i; ; )` walk of `isAttacked`. */
  method WalkRay(b: Board, from: int, d: int, sq: int, slide: bool) returns (hit: bool)
    requires Shaped(b) && 0 <= from < 64 && IsDirection(d)
    ensures hit == RayReaches(b, from, d, sq, slide)
  {
    var n := from;
    while true
      invariant 0 <= n < 64
      invariant RayReaches(b, n, d, sq, slide) == RayReaches(b, from, d, sq, slide)
      decreases RayMeasure(n, d)
    {
      StepProgress(n, d);
      var next := Step(n, d);
      if next == -1 {
        return false;
      }
      if next == sq {
        return true;
      }
      if b.pieceColor[next] != EMPTY {
        return false;
      }
      if !slide {
        return false;
      }
      n := next;
    }
  }

  /** `isInCheck`: find the first king of side s and test it. */
  method IsInCheck(b: Board, s: int) returns (r: bool)
    requires Shaped(b) && (s == WHITE || s == BLACK)
    ensures r == InCheck(b, s)
  {
    var k := FindKing(b, s);
    InCheckAt(b, s, k);
    if k == -1 {
      return true;
    }
    // the engine passes `side ^ 1`, the other side
    r := IsAttacked(b, k, 1 - s);
  }

  lemma InCheckAt(b: Board, s: int, k: int)
    requires Shaped(b) && (s == WHITE || s == BLACK) && k == FirstKing(b, s, 0)
    ensures InCheck(b, s) <==> k == -1 || Attacked(b, k, 1 - s)
  {
  }

  /** The square loop of `isInCheck`, up to the first king of side s. */
  method FindKing(b: Board, s: int) returns (k: int)
    requires Shaped(b)
    ensures k == FirstKing(b, s, 0)
  {
    var i := 0;
    while i < 64
      invariant 0 <= i <= 64
      invariant FirstKing(b, s, i) == FirstKing(b, s, 0)
    {
      if b.pieceType[i] == KING && b.pieceColor[i] == s {
        assert KingOf(b, i, s);
        return i;
      }
      i := i + 1;
    }
    return -1;
  }
}
