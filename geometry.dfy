/** Constants, lookup tables and square arithmetic of the engine.

    Squares are numbered 0..63 row by row from a8 (0) to h1 (63), so the
    "row" sq / 8 counts down from rank 8, and the rank (0 = rank 1) is
    7 - row.  The 10x12 "mailbox" table pads the board with an off-board
    border so that a piece step that leaves the board lands on -1 instead
    of wrapping round to the other edge. */
module Geometry {

  // colours
  const WHITE := 0
  const BLACK := 1

  // piece kinds; EMPTY is also the colour of an empty square
  const PAWN := 0
  const KNIGHT := 1
  const BISHOP := 2
  const ROOK := 3
  const QUEEN := 4
  const KING := 5
  const EMPTY := 6

  // useful squares
  const A1 := 56
  const B1 := 57
  const C1 := 58
  const D1 := 59
  const E1 := 60
  const F1 := 61
  const G1 := 62
  const H1 := 63
  const A8 := 0
  const B8 := 1
  const C8 := 2
  const D8 := 3
  const E8 := 4
  const F8 := 5
  const G8 := 6
  const H8 := 7

  // the bits of a move's flag word
  const CAPTURE_FLAG := 1
  const CASTLE_FLAG := 2
  const EN_PASSANT_FLAG := 4
  const DOUBLE_PAWN_FLAG := 8
  const PAWN_MOVE_FLAG := 16
  const PROMOTE_FLAG := 32

  // the bits of the castling-rights word
  const CASTLE_WHITE_KING_FLAG := 1
  const CASTLE_WHITE_QUEEN_FLAG := 2
  const CASTLE_BLACK_KING_FLAG := 4
  const CASTLE_BLACK_QUEEN_FLAG := 8

  /** The padded 10x12 board, row by row: the board square at each padded
      index, or -1 off the board. */
  const MAILBOX: seq<seq<int>> := [
    [-1, -1, -1, -1, -1, -1, -1, -1, -1, -1],
    [-1, -1, -1, -1, -1, -1, -1, -1, -1, -1],
    [-1,  0,  1,  2,  3,  4,  5,  6,  7, -1],
    [-1,  8,  9, 10, 11, 12, 13, 14, 15, -1],
    [-1, 16, 17, 18, 19, 20, 21, 22, 23, -1],
    [-1, 24, 25, 26, 27, 28, 29, 30, 31, -1],
    [-1, 32, 33, 34, 35, 36, 37, 38, 39, -1],
    [-1, 40, 41, 42, 43, 44, 45, 46, 47, -1],
    [-1, 48, 49, 50, 51, 52, 53, 54, 55, -1],
    [-1, 56, 57, 58, 59, 60, 61, 62, 63, -1],
    [-1, -1, -1, -1, -1, -1, -1, -1, -1, -1],
    [-1, -1, -1, -1, -1, -1, -1, -1, -1, -1]
  ]

  /** The padded index of each board square, row by row. */
  const MAILBOX64: seq<seq<int>> := [
    [21, 22, 23, 24, 25, 26, 27, 28],
    [31, 32, 33, 34, 35, 36, 37, 38],
    [41, 42, 43, 44, 45, 46, 47, 48],
    [51, 52, 53, 54, 55, 56, 57, 58],
    [61, 62, 63, 64, 65, 66, 67, 68],
    [71, 72, 73, 74, 75, 76, 77, 78],
    [81, 82, 83, 84, 85, 86, 87, 88],
    [91, 92, 93, 94, 95, 96, 97, 98]
  ]

  /** Per piece kind: does it slide, how many directions, and which. */
  const SLIDE: seq<bool> := [false, false, true, true, true, false]

  const OFFSETS: seq<int> := [0, 8, 4, 4, 8, 8]

  const OFFSET: seq<seq<int>> := [
    [0, 0, 0, 0, 0, 0, 0, 0],
    [-21, -19, -12, -8, 8, 12, 19, 21],
    [-11, -9, 9, 11, 0, 0, 0, 0],
    [-10, -1, 1, 10, 0, 0, 0, 0],
    [-11, -10, -9, -1, 1, 9, 10, 11],
    [-11, -10, -9, -1, 1, 9, 10, 11]
  ]

  /** Castling rights kept after a move touches a square (row by row). */
  const CASTLE_MASK: seq<seq<int>> := [
    [ 7, 15, 15, 15,  3, 15, 15, 11],
    [15, 15, 15, 15, 15, 15, 15, 15],
    [15, 15, 15, 15, 15, 15, 15, 15],
    [15, 15, 15, 15, 15, 15, 15, 15],
    [15, 15, 15, 15, 15, 15, 15, 15],
    [15, 15, 15, 15, 15, 15, 15, 15],
    [15, 15, 15, 15, 15, 15, 15, 15],
    [13, 15, 15, 15, 12, 15, 15, 14]
  ]

  /** The initial position, row by row. */
  const INIT_COLOR: seq<seq<int>> := [
    [1, 1, 1, 1, 1, 1, 1, 1],
    [1, 1, 1, 1, 1, 1, 1, 1],
    [6, 6, 6, 6, 6, 6, 6, 6],
    [6, 6, 6, 6, 6, 6, 6, 6],
    [6, 6, 6, 6, 6, 6, 6, 6],
    [6, 6, 6, 6, 6, 6, 6, 6],
    [0, 0, 0, 0, 0, 0, 0, 0],
    [0, 0, 0, 0, 0, 0, 0, 0]
  ]

  const INIT_PIECE: seq<seq<int>> := [
    [3, 1, 2, 4, 5, 2, 1, 3],
    [0, 0, 0, 0, 0, 0, 0, 0],
    [6, 6, 6, 6, 6, 6, 6, 6],
    [6, 6, 6, 6, 6, 6, 6, 6],
    [6, 6, 6, 6, 6, 6, 6, 6],
    [6, 6, 6, 6, 6, 6, 6, 6],
    [0, 0, 0, 0, 0, 0, 0, 0],
    [3, 1, 2, 4, 5, 2, 1, 3]
  ]

  const RANK_NAMES: string := "12345678"
  const FILE_NAMES: string := "abcdefgh"
  const PIECE_NAMES: string := "PNBRQK"

  /** `MAILBOX[m]` of the flat table. */
  function Mailbox(m: int): int
    requires 0 <= m < 120
  {
    MAILBOX[m / 10][m % 10]
  }

  /** `MAILBOX64[sq]` of the flat table. */
  function Mailbox64(sq: int): int
    requires 0 <= sq < 64
  {
    MAILBOX64[sq / 8][sq % 8]
  }

  /** `CASTLE_MASK[sq]` of the flat table. */
  function CastleMask(sq: int): int
    requires 0 <= sq < 64
  {
    CASTLE_MASK[sq / 8][sq % 8]
  }

  /** `OFFSETS[t]`, where an index outside the table reads as undefined and
      so bounds a loop `j < OFFSETS[t]` to no iterations. */
  function Offsets(t: int): int
  {
    if 0 <= t < 6 then OFFSETS[t] else 0
  }

  /** `SLIDE[t]`; undefined outside the table, which is falsy. */
  predicate Slide(t: int)
  {
    0 <= t < 6 && SLIDE[t]
  }

  function Offset(t: int, j: int): int
    requires 0 <= t < 6 && 0 <= j < 8
  {
    OFFSET[t][j]
  }

  /** The direction steps of the tables, written as rows and files on the
      padded board: 10 * (row step) + (file step). */
  predicate IsDirection(d: int)
  {
    d in {-21, -19, -12, -11, -10, -9, -8, -1, 1, 8, 9, 10, 11, 12, 19, 21}
  }

  /** The file component of a direction, in -2..2. */
  function FileStep(d: int): int
  {
    (d + 2) % 10 - 2
  }

  /** The row component of a direction, in -2..2 (a positive row step goes
      towards rank 1). */
  function RowStep(d: int): int
  {
    (d - FileStep(d)) / 10
  }

  /** One step from square n in direction d: the padded-board lookup the
      engine does as `MAILBOX[MAILBOX64[n] + d]`. */
  function Step(n: int, d: int): (r: int)
    requires 0 <= n < 64 && -21 <= d <= 21
  {
    Mailbox64At(n);
    Mailbox(Mailbox64(n) + d)
  }

  /** The rank of a square, 0 for rank 1; the engine computes it as
      `(sq >> 3) ^ 7` (see RankBits). */
  function GetRank(sq: int): int
    requires 0 <= sq < 64
  {
    7 - sq / 8
  }

  /** The file of a square, 0 for the a-file; the engine computes it as
      `sq & 7` (see FileBits).  The engine also applies it to the
      en-passant value -1, where the two's-complement mask gives 7, the
      Euclidean remainder. */
  function GetFile(sq: int): int
  {
    sq % 8
  }

  /** The square on a file and rank; the engine computes it as
      `file | ((rank ^ 7) << 3)` (see SquareBits).  The one-based rank 8
      that the SAN resolver passes in (rank ^ 7 == 15) lands in the
      off-board range 120..127. */
  function GetSquare(file: int, rank: int): int
    requires 0 <= file < 8 && 0 <= rank < 16
  {
    file + 8 * (if rank < 8 then 7 - rank else 23 - rank)
  }

  /** The difference of two character codes. */
  function Cdiff(c1: char, c2: char): int
  {
    c1 as int - c2 as int
  }

  /** The name of a square, such as "e4". */
  function ToNotation(sq: int): (s: string)
    requires 0 <= sq < 64
    ensures |s| == 2 && 'a' <= s[0] <= 'h' && '1' <= s[1] <= '8'
    ensures Cdiff(s[0], 'a') == GetFile(sq) && Cdiff(s[1], '1') == GetRank(sq)
  {
    [FILE_NAMES[GetFile(sq)], RANK_NAMES[GetRank(sq)]]
  }

  /** The square a two-character name denotes, as the engine computes it
      with `getSquare(c0 - 'a', c1 - '1')`. */
  function NamedSquare(c0: char, c1: char): int
    requires 'a' <= c0 <= 'h' && '1' <= c1 <= '8'
  {
    GetSquare(Cdiff(c0, 'a'), Cdiff(c1, '1'))
  }

  predicate IsSquareName(c0: char, c1: char)
  {
    'a' <= c0 <= 'h' && '1' <= c1 <= '8'
  }

  /** `a & b` on non-negative words, taken bit by bit from the lowest. */
  function BitAnd(a: int, b: int): (r: int)
    requires 0 <= a && 0 <= b
    ensures 0 <= r <= a && r <= b
    decreases a
  {
    if a == 0 || b == 0 then 0
    else 2 * BitAnd(a / 2, b / 2) + (if a % 2 == 1 && b % 2 == 1 then 1 else 0)
  }

  /** `a | b` on non-negative words. */
  function BitOr(a: int, b: int): (r: int)
    requires 0 <= a && 0 <= b
    ensures a <= r <= a + b && b <= r
    decreases a
  {
    if a == 0 then b
    else if b == 0 then a
    else 2 * BitOr(a / 2, b / 2) + (if a % 2 == 1 || b % 2 == 1 then 1 else 0)
  }

  /** `a ^ b` on non-negative words. */
  function BitXor(a: int, b: int): (r: int)
    requires 0 <= a && 0 <= b
    ensures 0 <= r <= a + b
    decreases a
  {
    if a == 0 then b
    else if b == 0 then a
    else 2 * BitXor(a / 2, b / 2) + (if a % 2 != b % 2 then 1 else 0)
  }

  /** `(bits & flag) > 0`. */
  predicate HasBit(bits: int, flag: int)
    requires 0 <= bits && 0 <= flag
  {
    BitAnd(bits, flag) > 0
  }

  // ---------------------------------------------------------------------
  // Facts about the tables

  /** The padded table is the 8x8 board inside a border two rows deep at
      the top and bottom and one file wide at each side. */
  lemma MailboxAt(m: int)
    requires 0 <= m < 120
    ensures Mailbox(m) ==
      (var row, col := m / 10, m % 10;
       if 2 <= row <= 9 && 1 <= col <= 8 then (row - 2) * 8 + (col - 1) else -1)
  {
    var row := m / 10;
    if row == 0 {} else if row == 1 {} else if row == 2 {} else if row == 3 {}
    else if row == 4 {} else if row == 5 {} else if row == 6 {} else if row == 7 {}
    else if row == 8 {} else if row == 9 {} else if row == 10 {} else {}
  }

  lemma Mailbox64At(sq: int)
    requires 0 <= sq < 64
    ensures Mailbox64(sq) == 21 + 10 * (sq / 8) + sq % 8
  {
    var row := sq / 8;
    if row == 0 {} else if row == 1 {} else if row == 2 {} else if row == 3 {}
    else if row == 4 {} else if row == 5 {} else if row == 6 {} else {}
  }

  /** Going to the padded board and back is the identity. */
  lemma MailboxRoundTrip(sq: int)
    requires 0 <= sq < 64
    ensures Mailbox(Mailbox64(sq)) == sq
  {
    Mailbox64At(sq);
    MailboxAt(Mailbox64(sq));
  }

  /** A step from a board square moves by its row and file components, and
      gives -1 exactly when that leaves the board: it never wraps round an
      edge. */
  lemma StepGeometry(sq: int, d: int)
    requires 0 <= sq < 64 && IsDirection(d)
    ensures -2 <= FileStep(d) <= 2 && -2 <= RowStep(d) <= 2
    ensures d == 10 * RowStep(d) + FileStep(d)
    ensures 0 <= Mailbox64(sq) + d < 120
    ensures Step(sq, d) ==
      (var f, row := sq % 8 + FileStep(d), sq / 8 + RowStep(d);
       if 0 <= f < 8 && 0 <= row < 8 then 8 * row + f else -1)
  {
    DirectionParts(d);
    StepCell(sq, d, RowStep(d), FileStep(d));
  }

  /** A step that stays on the board lands on a square whose padded index
      is the old one plus the direction, so repeated steps in one
      direction make progress and end. */
  lemma StepProgress(sq: int, d: int)
    requires 0 <= sq < 64 && IsDirection(d)
    ensures Step(sq, d) != -1 ==>
      0 <= Step(sq, d) < 64 && Mailbox64(Step(sq, d)) == Mailbox64(sq) + d
  {
    StepGeometry(sq, d);
    SquareCell(sq / 8 + RowStep(d), sq % 8 + FileStep(d));
    Mailbox64At(sq);
  }

  /** The padded index of the square on a given row and file. */
  lemma SquareCell(row: int, f: int)
    ensures 0 <= f < 8 && 0 <= row < 8 ==> 0 <= 8 * row + f < 64 && Mailbox64(8 * row + f) == 21 + 10 * row + f
  {
    if 0 <= f < 8 && 0 <= row < 8 {
      var n := 8 * row + f;
      assert n / 8 == row && n % 8 == f;
      Mailbox64At(n);
    }
  }

  /** StepGeometry for a step given by its row and file components. */
  lemma StepCell(sq: int, d: int, dr: int, df: int)
    requires 0 <= sq < 64 && -2 <= dr <= 2 && -2 <= df <= 2 && d == 10 * dr + df
    requires -21 <= d <= 21
    ensures 0 <= Mailbox64(sq) + d < 120
    ensures Step(sq, d) ==
      (var f, row := sq % 8 + df, sq / 8 + dr;
       if 0 <= f < 8 && 0 <= row < 8 then 8 * row + f else -1)
  {
    Mailbox64At(sq);
    StepCellAt(Mailbox64(sq) + d, sq / 8, sq % 8, dr, df);
  }

  /** StepCell for a square given by its row and file. */
  lemma StepCellAt(m: int, r0: int, f0: int, dr: int, df: int)
    requires 0 <= r0 < 8 && 0 <= f0 < 8 && -2 <= dr <= 2 && -2 <= df <= 2
    requires m == 21 + 10 * r0 + f0 + 10 * dr + df && 0 <= m < 120
    ensures Mailbox(m) ==
      (var f, row := f0 + df, r0 + dr;
       if 0 <= f < 8 && 0 <= row < 8 then 8 * row + f else -1)
  {
    var f, row := f0 + df, r0 + dr;
    if f == -2 {
      MailboxCell(m, row + 1, 9);
    } else if f == 9 {
      MailboxCell(m, row + 3, 0);
    } else {
      MailboxCell(m, row + 2, f + 1);
    }
  }

  /** MailboxAt, by row and column of the padded board. */
  lemma MailboxCell(m: int, row: int, col: int)
    requires 0 <= row < 12 && 0 <= col < 10 && m == 10 * row + col
    ensures Mailbox(m) ==
      if 2 <= row <= 9 && 1 <= col <= 8 then (row - 2) * 8 + (col - 1) else -1
  {
    DivMod10(row, col);
    MailboxAt(m);
  }

  lemma DirectionParts(d: int)
    requires IsDirection(d)
    ensures -2 <= FileStep(d) <= 2 && -2 <= RowStep(d) <= 2
    ensures d == 10 * RowStep(d) + FileStep(d)
  {
  }

  lemma DivMod10(q: int, r: int)
    requires 0 <= r < 10
    ensures (10 * q + r) / 10 == q && (10 * q + r) % 10 == r
  {
  }

  /** Every direction the tables list for a piece is a genuine step. */
  lemma OffsetIsDirection(t: int, j: int)
    requires 0 <= t < 6 && 0 <= j < Offsets(t)
    ensures IsDirection(Offset(t, j))
  {
  }

  /** Moving from or to a king or rook home square clears the rights that
      square guards; every other square keeps all rights. */
  lemma CastleMaskAt(sq: int)
    requires 0 <= sq < 64
    ensures CastleMask(sq) == (
      if sq == A8 then 7 else if sq == E8 then 3 else if sq == H8 then 11
      else if sq == A1 then 13 else if sq == E1 then 12 else if sq == H1 then 14
      else 15)
  {
    var row := sq / 8;
    if row == 0 {} else if row == 7 {} else {}
  }

  /** getSquare and getFile/getRank are inverse on the board. */
  lemma SquareFileRank(sq: int)
    requires 0 <= sq < 64
    ensures GetSquare(GetFile(sq), GetRank(sq)) == sq
  {
  }

  lemma FileRankSquare(file: int, rank: int)
    requires 0 <= file < 8 && 0 <= rank < 8
    ensures 0 <= GetSquare(file, rank) < 64
    ensures GetFile(GetSquare(file, rank)) == file && GetRank(GetSquare(file, rank)) == rank
  {
    var sq := GetSquare(file, rank);
    assert sq == file + 8 * (7 - rank);
    assert sq / 8 == 7 - rank && sq % 8 == file;
  }

  /** Reading a square's name back gives the square. */
  lemma NotationRoundTrip(sq: int)
    requires 0 <= sq < 64
    ensures var s := ToNotation(sq); IsSquareName(s[0], s[1]) && NamedSquare(s[0], s[1]) == sq
  {
  }

  // ---------------------------------------------------------------------
  // Bit words

  /** A flag word shares a bit with x exactly when their lowest bits are
      both set or the rest of the words share one. */
  lemma AndStep(x: int, f: int)
    requires 0 <= x && 0 <= f
    ensures HasBit(x, f) <==> (x % 2 == 1 && f % 2 == 1) || HasBit(x / 2, f / 2)
  {
  }

  /** The lowest bit and the rest of `x | g`. */
  lemma OrParts(x: int, g: int)
    requires 0 < x && 0 < g
    ensures BitOr(x, g) / 2 == BitOr(x / 2, g / 2)
    ensures BitOr(x, g) % 2 == (if x % 2 == 1 || g % 2 == 1 then 1 else 0)
  {
  }

  /** The lowest bit and the rest of `x & y`. */
  lemma AndParts(x: int, y: int)
    requires 0 < x && 0 < y
    ensures BitAnd(x, y) / 2 == BitAnd(x / 2, y / 2)
    ensures BitAnd(x, y) % 2 == (if x % 2 == 1 && y % 2 == 1 then 1 else 0)
  {
  }

  /** A bit of f is set in `x | g` exactly when it is set in x or in g. */
  lemma {:induction false} FlagOr(x: int, g: int, f: int)
    requires 0 <= x && 0 <= g && 0 <= f
    ensures HasBit(BitOr(x, g), f) <==> HasBit(x, f) || HasBit(g, f)
    decreases x
  {
    if x == 0 || g == 0 {
    } else {
      var o := BitOr(x, g);
      OrParts(x, g);
      FlagOr(x / 2, g / 2, f / 2);
      AndStep(o, f);
      AndStep(x, f);
      AndStep(g, f);
    }
  }

  predicate IsFlag(f: int)
  {
    f == 1 || f == 2 || f == 4 || f == 8 || f == 16 || f == 32
  }

  /** A single-bit flag is set in `x & y` exactly when it is set in both. */
  lemma {:induction false} FlagAnd(x: int, y: int, f: int)
    requires 0 <= x && 0 <= y && IsFlag(f)
    ensures HasBit(BitAnd(x, y), f) <==> HasBit(x, f) && HasBit(y, f)
    decreases f
  {
    if x == 0 || y == 0 {
    } else {
      var z := BitAnd(x, y);
      AndParts(x, y);
      AndStep(z, f);
      AndStep(x, f);
      AndStep(y, f);
      if f > 1 {
        FlagAnd(x / 2, y / 2, f / 2);
      }
    }
  }

  /** The word sizes in use: castling rights below 16, move flags below 64. */
  predicate IsWidth(n: int)
  {
    n == 1 || IsFlag(n) || n == 64
  }

  /** Words below a power of two stay below it under `|`. */
  lemma {:induction false} OrBelow(x: int, g: int, n: int)
    requires IsWidth(n)
    requires 0 <= x < n && 0 <= g < n
    ensures BitOr(x, g) < n
    decreases n
  {
    if x != 0 && g != 0 {
      OrBelow(x / 2, g / 2, n / 2);
    }
  }

  /** `x & (n - 1)` keeps every word below the power of two n. */
  lemma {:induction false} AndLow(x: int, n: int)
    requires IsWidth(n) && 0 <= x < n
    ensures BitAnd(x, n - 1) == x
    decreases n
  {
    if x != 0 {
      assert n % 2 == 0 && (n - 1) / 2 == n / 2 - 1 && (n - 1) % 2 == 1;
      AndLow(x / 2, n / 2);
      assert BitAnd(x, n - 1) == 2 * BitAnd(x / 2, n / 2 - 1) + x % 2;
    }
  }

  /** Adding the bits of g twice is adding them once. */
  lemma {:induction false} OrTwice(x: int, g: int)
    requires 0 <= x && 0 <= g
    ensures BitOr(BitOr(x, g), g) == BitOr(x, g)
    decreases x + g
  {
    if x == 0 {
      OrSelf(g);
    } else if g != 0 {
      var o := BitOr(x, g);
      OrParts(x, g);
      OrParts(o, g);
      OrTwice(x / 2, g / 2);
    }
  }

  lemma {:induction false} OrSelf(g: int)
    requires 0 <= g
    ensures BitOr(g, g) == g
    decreases g
  {
    if g != 0 {
      OrSelf(g / 2);
    }
  }

  /** `x & 7` is the three lowest bits of x. */
  lemma AndSeven(x: int)
    requires 0 <= x
    ensures BitAnd(x, 7) == x % 8
  {
    if x != 0 {
      assert BitAnd(x, 7) == 2 * BitAnd(x / 2, 3) + x % 2;
      if x / 2 != 0 {
        assert BitAnd(x / 2, 3) == 2 * BitAnd(x / 4, 1) + (x / 2) % 2;
        if x / 4 != 0 {
          assert BitAnd(x / 4, 1) == (x / 4) % 2;
        }
      }
    }
  }

  /** `v ^ 7` on a word below 16 flips its three lowest bits. */
  lemma XorSeven(v: int)
    requires 0 <= v < 16
    ensures BitXor(v, 7) == if v < 8 then 7 - v else 23 - v
  {
    var v1, v2, h := v / 2, v / 4, v / 8;
    assert v1 / 2 == v2 && v2 / 2 == h && (h == 0 || h == 1);
    assert BitXor(h, 0) == h;
    var x2 := BitXor(v2, 1);
    assert v2 != 0 ==> x2 == 2 * BitXor(h, 0) + 1 - v2 % 2;
    assert x2 == 2 * h + 1 - v2 % 2;
    var x1 := BitXor(v1, 3);
    assert v1 != 0 ==> x1 == 2 * x2 + 1 - v1 % 2;
    assert x1 == 4 * h + 3 - v1 % 4;
    assert v != 0 ==> BitXor(v, 7) == 2 * x1 + 1 - v % 2;
  }

  /** `sq & 7` is the file. */
  lemma FileBits(sq: int)
    requires 0 <= sq < 64
    ensures BitAnd(sq, 7) == GetFile(sq)
  {
    AndSeven(sq);
  }

  /** `(sq >> 3) ^ 7` is the rank: the shift is a division by 8. */
  lemma RankBits(sq: int)
    requires 0 <= sq < 64
    ensures BitXor(sq / 8, 7) == GetRank(sq)
  {
    XorSeven(sq / 8);
  }

  /** `file | ((rank ^ 7) << 3)` is the square: the shift is a
      multiplication by 8. */
  lemma SquareBits(file: int, rank: int)
    requires 0 <= file < 8 && 0 <= rank < 16
    ensures BitOr(file, 8 * BitXor(rank, 7)) == GetSquare(file, rank)
  {
    XorSeven(rank);
    OrLowHigh(file, BitXor(rank, 7), 8);
  }

  /** Or-ing a word below the flag n into a multiple of n adds them. */
  lemma {:induction false} OrLowHigh(x: int, y: int, n: int)
    requires IsFlag(n) && 0 <= x < n && 0 <= y
    ensures BitOr(x, n * y) == x + n * y
    decreases n
  {
    if x != 0 && y != 0 {
      assert (n * y) / 2 == (n / 2) * y && (n * y) % 2 == 0;
      OrLowHigh(x / 2, y, n / 2);
    }
  }

  /** Or-ing a flag into a word below it adds the flag. */
  lemma {:induction false} OrAdd(x: int, f: int)
    requires IsFlag(f) && 0 <= x < f
    ensures BitOr(x, f) == x + f
    decreases f
  {
    if x != 0 {
      OrAdd(x / 2, f / 2);
    }
  }

  /** Or-ing a flag that is not set into a word adds the flag. */
  lemma {:induction false} OrDisjoint(x: int, f: int)
    requires IsFlag(f) && 0 <= x && !HasBit(x, f)
    ensures BitOr(x, f) == x + f
    decreases f
  {
    AndStep(x, f);
    if x != 0 && f != 1 {
      OrDisjoint(x / 2, f / 2);
    }
  }

  /** The four low flags of a word are its four lowest binary digits. */
  lemma LowFlags(x: int)
    requires 0 <= x
    ensures HasBit(x, 1) <==> x % 2 == 1
    ensures HasBit(x, 2) <==> (x / 2) % 2 == 1
    ensures HasBit(x, 4) <==> (x / 4) % 2 == 1
    ensures HasBit(x, 8) <==> (x / 8) % 2 == 1
  {
    AndStep(x, 1);
    AndStep(x, 2);
    AndStep(x / 2, 1);
    AndStep(x, 4);
    AndStep(x / 2, 2);
    AndStep(x / 4, 1);
    AndStep(x, 8);
    AndStep(x / 2, 4);
    AndStep(x / 4, 2);
    AndStep(x / 8, 1);
  }

  /** `bits & (PAWN_MOVE_FLAG | CAPTURE_FLAG)` is non-zero exactly when one
      of the two flags is set. */
  lemma PawnOrCapture(x: int)
    requires 0 <= x
    ensures HasBit(x, 17) <==> HasBit(x, 16) || HasBit(x, 1)
  {
    AndStep(x, 17);
    AndStep(x, 16);
    AndStep(x, 1);
  }
}
