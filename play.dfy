/** The two entry points that make moves: `getPossibleMoves`, which keeps
    the candidate moves `makeMove` accepts and names them, and `move`, which
    applies a move given in long algebraic notation. */
module Play {
  import opened Wrappers
  import opened Geometry
  import opened Boards
  import opened MoveGen
  import opened MoveLookup
  import opened Notation
  import opened MakeMoves

  /** A move as the engine hands it out: its long and its standard
      algebraic name.  `toSAN` is a stub that always answers "?". */
  datatype Move = Move(lan: string, san: string)

  const SAN_STUB := "?"

  /** The named move for a candidate. */
  function Named(m: PotentialMove): Move
    requires 0 <= m.from < 64 && 0 <= m.to < 64
  {
    Move(ToLAN(m.from, m.to, m.promote), SAN_STUB)
  }

  predicate AllInRange(b: Board, ms: seq<PotentialMove>)
  {
    forall k :: 0 <= k < |ms| ==> InRange(b, ms[k])
  }

  /** The generated candidates can all be applied. */
  lemma PseudoInRange(b: Board)
    requires Shaped(b)
    ensures AllInRange(b, PseudoMoves(b))
  {
    PseudoMovesSound(b);
    var ps := PseudoMoves(b);
    forall k | 0 <= k < |ps|
      ensures InRange(b, ps[k])
    {
      assert ps[k] in ps;
    }
  }

  /** The candidates of `ms`, in order, that `makeMove` accepts, named. */
  function KeepLegal(b: Board, ms: seq<PotentialMove>): seq<Move>
    requires Shaped(b) && AllInRange(b, ms)
  {
    if |ms| == 0 then []
    else
      var m := ms[|ms| - 1];
      var rest := KeepLegal(b, ms[..|ms| - 1]);
      if MoveOutcome(b, m).Legal? then rest + [Named(m)] else rest
  }

  /** `getPossibleMoves(board)`. */
  function PossibleMoves(b: Board): seq<Move>
    requires Shaped(b)
  {
    PseudoInRange(b);
    KeepLegal(b, PseudoMoves(b))
  }

  /** Every listed name belongs to a candidate of `ms` that `makeMove`
      accepts. */
  lemma {:induction false} KeepLegalSource(b: Board, ms: seq<PotentialMove>, mv: Move) returns (m: PotentialMove)
    requires Shaped(b) && AllInRange(b, ms) && mv in KeepLegal(b, ms)
    ensures m in ms && InRange(b, m) && MoveOutcome(b, m).Legal? && mv == Named(m)
  {
    var front := ms[..|ms| - 1];
    var last := ms[|ms| - 1];
    assert ms == front + [last];
    FrontInRange(b, ms);
    if mv in KeepLegal(b, front) {
      m := KeepLegalSource(b, front, mv);
    } else {
      m := last;
    }
  }

  /** Every candidate of `ms` that `makeMove` accepts is listed by name. */
  lemma {:induction false} KeepLegalKeeps(b: Board, ms: seq<PotentialMove>, m: PotentialMove)
    requires Shaped(b) && AllInRange(b, ms) && m in ms && InRange(b, m) && MoveOutcome(b, m).Legal?
    ensures Named(m) in KeepLegal(b, ms)
  {
    var front := ms[..|ms| - 1];
    var last := ms[|ms| - 1];
    assert ms == front + [last];
    FrontInRange(b, ms);
    if m != last {
      assert m in front;
      KeepLegalKeeps(b, front, m);
    }
  }

  lemma FrontInRange(b: Board, ms: seq<PotentialMove>)
    requires AllInRange(b, ms) && |ms| > 0
    ensures AllInRange(b, ms[..|ms| - 1])
  {
    var front := ms[..|ms| - 1];
    forall k | 0 <= k < |front|
      ensures InRange(b, front[k])
    {
      assert front[k] == ms[k];
    }
  }

  /** `getPossibleMoves` lists the name of a generated move exactly when
      `makeMove` accepts some generated move of that name, and lists no
      more names than there are candidates. */
  lemma PossibleMovesListed(b: Board, mv: Move)
    requires Shaped(b)
    ensures mv in PossibleMoves(b) <==>
      exists m :: m in PseudoMoves(b) && InRange(b, m) && MoveOutcome(b, m).Legal? && mv == Named(m)
    ensures |PossibleMoves(b)| <= |PseudoMoves(b)|
  {
    PseudoInRange(b);
    if mv in PossibleMoves(b) {
      var m := KeepLegalSource(b, PseudoMoves(b), mv);
    }
    if exists m :: m in PseudoMoves(b) && InRange(b, m) && MoveOutcome(b, m).Legal? && mv == Named(m) {
      var m :| m in PseudoMoves(b) && InRange(b, m) && MoveOutcome(b, m).Legal? && mv == Named(m);
      KeepLegalKeeps(b, PseudoMoves(b), m);
    }
    KeepLegalLength(b, PseudoMoves(b));
  }

  lemma {:induction false} KeepLegalLength(b: Board, ms: seq<PotentialMove>)
    requires Shaped(b) && AllInRange(b, ms)
    ensures |KeepLegal(b, ms)| <= |ms|
  {
    if |ms| > 0 {
      FrontInRange(b, ms);
      KeepLegalLength(b, ms[..|ms| - 1]);
    }
  }

  method GetPossibleMoves(b: Board) returns (result: seq<Move>)
    requires Shaped(b)
    ensures result == PossibleMoves(b)
  {
    result := [];
    var pseudo := GetAllPossiblePseudoMoves(b);
    PseudoInRange(b);
    var i := 0;
    while i < |pseudo|
      invariant 0 <= i <= |pseudo|
      invariant result == KeepLegal(b, pseudo[..i])
    {
      KeepLegalStep(b, pseudo, i);
      result := KeepIfLegal(b, result, pseudo[i]);
      i := i + 1;
    }
    assert pseudo[..i] == pseudo;
  }

  /** The loop body: name the candidate when `makeMove` accepts it. */
  method KeepIfLegal(b: Board, result: seq<Move>, m: PotentialMove) returns (r: seq<Move>)
    requires Shaped(b) && InRange(b, m)
    ensures r == result + (if MoveOutcome(b, m).Legal? then [Named(m)] else [])
  {
    r := result;
    var outcome := MakeMove(b, m);
    if outcome.Legal? {
      r := r + [Move(ToLAN(m.from, m.to, m.promote), SAN_STUB)];
    }
  }

  /** One more candidate: KeepLegal of a longer prefix. */
  lemma KeepLegalStep(b: Board, ms: seq<PotentialMove>, i: int)
    requires Shaped(b) && AllInRange(b, ms) && 0 <= i < |ms|
    ensures AllInRange(b, ms[..i]) && AllInRange(b, ms[..i + 1])
    ensures KeepLegal(b, ms[..i + 1]) ==
      KeepLegal(b, ms[..i]) + (if MoveOutcome(b, ms[i]).Legal? then [Named(ms[i])] else [])
  {
    PrefixInRange(b, ms, i);
    PrefixInRange(b, ms, i + 1);
    assert ms[..i + 1][..i] == ms[..i];
  }

  lemma PrefixInRange(b: Board, ms: seq<PotentialMove>, n: int)
    requires AllInRange(b, ms) && 0 <= n <= |ms|
    ensures AllInRange(b, ms[..n])
  {
    forall k | 0 <= k < n
      ensures InRange(b, ms[..n][k])
    {
      assert ms[..n][k] == ms[k];
    }
  }

  /** The candidate `move` looks up for a long algebraic string. */
  function LanCandidate(b: Board, lan: string): (r: Option<PotentialMove>)
    requires Shaped(b)
    ensures r.Some? ==> InRange(b, r.value)
  {
    match ParseLAN(lan)
    case None => None
    case Some((fromSq, toSq, promote)) =>
      PseudoMoveForSound(b, fromSq, toSq, promote);
      PseudoMoveFor(b, fromSq, toSq, promote)
  }

  /** `move(board, {lan})`: null unless a candidate is found, then what
      `makeMove` does with it. */
  function LanOutcome(b: Board, lan: string): Outcome
    requires Shaped(b)
  {
    match LanCandidate(b, lan)
    case None => Illegal
    case Some(m) => MoveOutcome(b, m)
  }

  method MoveByLan(b: Board, lan: string) returns (r: Outcome)
    requires Shaped(b)
    ensures r == LanOutcome(b, lan)
  {
    var parsed := ParseLAN(lan);
    if parsed.None? {
      return Illegal;
    }
    var (fromSq, toSq, promote) := parsed.value;
    PseudoMoveForSound(b, fromSq, toSq, promote);
    var pm := GetPseudoMoveForPiece(b, fromSq, toSq, promote);
    if pm.None? {
      return Illegal;
    }
    r := MakeMove(b, pm.value);
  }

  /** `move` never throws: the castles it finds go to a castling square. */
  lemma LanNeverThrows(b: Board, lan: string)
    requires Shaped(b)
    ensures LanOutcome(b, lan) != FailedToCastle
  {
    match ParseLAN(lan)
    case None =>
    case Some((fromSq, toSq, promote)) =>
      PseudoMoveForSound(b, fromSq, toSq, promote);
  }

  /** A move given in long algebraic notation whose promotion piece is the
      one the generator would give it is a generated candidate, and when
      `move` accepts it, `getPossibleMoves` lists its name. */
  lemma LanMoveListed(b: Board, lan: string)
    requires Shaped(b)
    ensures var c := LanCandidate(b, lan);
      c.Some? && PromoteMatches(b, c.value) ==>
        c.value in PseudoMoves(b) && LanOutcome(b, lan) == MoveOutcome(b, c.value)
        && (LanOutcome(b, lan).Legal? ==> Named(c.value) in PossibleMoves(b))
  {
    match ParseLAN(lan)
    case None =>
    case Some((fromSq, toSq, promote)) =>
      PseudoMoveForListed(b, fromSq, toSq, promote);
      var c := LanCandidate(b, lan);
      if c.Some? && PromoteMatches(b, c.value) {
        PossibleMovesListed(b, Named(c.value));
      }
  }

  /** Every name `getPossibleMoves` lists, read back by `move`'s square
      and promotion arithmetic, gives the squares and promotion piece of a
      candidate `makeMove` accepts. */
  lemma ListedNamesParse(b: Board, mv: Move)
    requires Shaped(b) && mv in PossibleMoves(b)
    ensures exists m ::
      m in PseudoMoves(b) && InRange(b, m) && MoveOutcome(b, m).Legal?
      && ParseLAN(mv.lan) == Some((m.from, m.to, m.promote))
  {
    PseudoInRange(b);
    var m := KeepLegalSource(b, PseudoMoves(b), mv);
    PseudoMovesSound(b);
    assert PromoteKnown(m);
    LanRoundTrip(m.from, m.to, m.promote);
    assert ParseLAN(mv.lan) == Some((m.from, m.to, m.promote));
  }
}
