/** Long algebraic notation as the engine writes it (`toLAN`) and reads it
    (the square and promotion arithmetic of `move`). */
module Notation {
  import opened Wrappers
  import opened Geometry

  /** `PIECE_NAMES.indexOf(c)`: the first index of c in s, or -1. */
  function IndexOf(s: string, c: char): (k: int)
    ensures -1 <= k < |s|
    ensures k == -1 <==> c !in s
    ensures k >= 0 ==> s[k] == c && forall j :: 0 <= j < k ==> s[j] != c
  {
    if |s| == 0 then -1
    else if s[0] == c then 0
    else
      var k := IndexOf(s[1..], c);
      if k == -1 then -1 else k + 1
  }

  /** The suffix `toLAN` writes for a promotion piece.  It tests the number
      for truthiness: PAWN (0) writes nothing, every other value writes "="
      and the piece name, where a number outside the name table, the EMPTY
      of an ordinary move among them, prints as "undefined". */
  function PromotionSuffix(promote: int): string
  {
    if promote == 0 then ""
    else if 0 <= promote < |PIECE_NAMES| then "=" + [PIECE_NAMES[promote]]
    else "=undefined"
  }

  /** `toLAN(board, from, to, promote)`: the two square names and the
      promotion suffix. */
  function ToLAN(from: int, to: int, promote: int): (s: string)
    requires 0 <= from < 64 && 0 <= to < 64
    ensures |s| >= 4 && s[..2] == ToNotation(from) && s[2..4] == ToNotation(to)
    ensures s[4..] == PromotionSuffix(promote)
  {
    ToNotation(from) + ToNotation(to) + PromotionSuffix(promote)
  }

  /** The squares and promotion piece `move` reads from a long algebraic
      string: the first four characters as two square names, and the
      promotion as the index of the sixth character in PIECE_NAMES when the
      string is exactly six long, EMPTY otherwise.  Strings whose first four
      characters are not two square names give None. */
  function ParseLAN(lan: string): (r: Option<(int, int, int)>)
    ensures r.Some? ==> 0 <= r.value.0 < 64 && 0 <= r.value.1 < 64 && -1 <= r.value.2 <= EMPTY
  {
    if |lan| >= 4 && IsSquareName(lan[0], lan[1]) && IsSquareName(lan[2], lan[3]) then
      FileRankSquare(Cdiff(lan[0], 'a'), Cdiff(lan[1], '1'));
      FileRankSquare(Cdiff(lan[2], 'a'), Cdiff(lan[3], '1'));
      var promote := if |lan| == 6 then IndexOf(PIECE_NAMES, lan[5]) else EMPTY;
      Some((NamedSquare(lan[0], lan[1]), NamedSquare(lan[2], lan[3]), promote))
    else None
  }

  /** Reading back what `toLAN` writes gives the squares and the promotion
      piece, for every piece number but PAWN: the suffix of EMPTY is
      "=undefined", too long to be read as a promotion, so it reads back as
      EMPTY too. */
  lemma LanRoundTrip(from: int, to: int, promote: int)
    requires 0 <= from < 64 && 0 <= to < 64
    requires KNIGHT <= promote <= EMPTY
    ensures ParseLAN(ToLAN(from, to, promote)) == Some((from, to, promote))
  {
    var s := ToLAN(from, to, promote);
    NotationRoundTrip(from);
    NotationRoundTrip(to);
    assert s[0] == ToNotation(from)[0] && s[1] == ToNotation(from)[1];
    assert s[2] == ToNotation(to)[0] && s[3] == ToNotation(to)[1];
    if promote < EMPTY {
      assert s[5] == PIECE_NAMES[promote];
      var k := IndexOf(PIECE_NAMES, s[5]);
      assert k == promote by {
        if k < promote {
          assert PIECE_NAMES[k] == PIECE_NAMES[promote];
        }
      }
    }
  }

  /** A pawn "promotion" writes no suffix, so it reads back as EMPTY. */
  lemma LanPawnPromotionLost(from: int, to: int)
    requires 0 <= from < 64 && 0 <= to < 64
    ensures ParseLAN(ToLAN(from, to, PAWN)) == Some((from, to, EMPTY))
  {
    var s := ToLAN(from, to, PAWN);
    NotationRoundTrip(from);
    NotationRoundTrip(to);
    assert s[0] == ToNotation(from)[0] && s[1] == ToNotation(from)[1];
    assert s[2] == ToNotation(to)[0] && s[3] == ToNotation(to)[1];
  }
}
