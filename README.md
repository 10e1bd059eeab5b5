# A verified model of the chess move generator

This project models `ChessEngine`, the rule engine behind the chess game
server, and `ChessMoveGenerator`, the two entry points the application
calls. Both live in `src/app/chess/chess-move-generator.ts`. The engine
keeps a position as two 64-entry square arrays plus a side to move, a
castling-rights word, an en-passant square, a half-move clock and a
move number. Squares run from a8 (0) to h1 (63). Over that position the
engine provides:

- the 10x12 "mailbox" step tables;
- a generator of pseudo-legal moves (`getAllPossiblePsuedoMoves`);
- a lookup of the candidate move for given squares (`getPsuedoMoveForPiece`);
- `makeMove`, which applies a move and refuses it when, on the board before
  the move, the king of the side not to move is attacked;
- the attack and check tests;
- Forsyth-Edwards Notation (FEN) writing and reading (`toFEN`, `parseFEN`);
- standard algebraic notation (SAN) parsing and resolution (`parseSAN`,
  `moveSAN`);
- long algebraic notation (LAN) naming and reading (`toLAN`, `move`);
- `getPossibleMoves`, `getPieces`, `getNextPlayer` and the repetition test
  `equalPosition`.

The model follows the code as written, including what it does at the
edges:

- `toLAN` tests the promotion number for truthiness. An ordinary move
  (promotion EMPTY) is therefore named with the suffix `=undefined`.
- `moveSAN` reads an origin rank as the character minus `'0'`. That is one
  more than the zero-based rank `getSquare` expects, so rank
  disambiguation looks one rank too far up the board. Rank `8` addresses
  squares off the board, where no piece stands.
- `equalPosition` compares `board2`'s piece types with themselves. Piece
  types therefore never decide, and neither does the side to move.
- `isInCheck` with no king on the board answers true.
- `makeMove` decides legality with `isInCheck(board, board.xside)` on the
  board before the move, not on the board after it. A move that leaves the
  mover's own king attacked is therefore accepted, and `getPossibleMoves`
  lists it.
- The lookup behind `move` passes the promotion suffix on for pawn
  captures, single pushes and double pushes, on any rank. So `e2e3=Q`
  puts a queen on e3, and a suffix letter that names no piece puts piece
  number -1 there. Ray moves, en-passant captures and castles ignore the
  suffix, so `g1f3=Q` just moves the knight. A pawn move onto the last rank
  without a suffix is accepted too, where the generator offers only the four
  promotions.
- `parseFENMoves` never checks that a row adds up to eight files. A short
  row leaves the remaining squares empty, and digits may carry the file
  count past the h-file without error.
- `makeMove` throws "failed to castle" for a castle that lands on a square
  it has no rook move for. In the model this is the outcome
  `FailedToCastle`. It is proved that neither the generator nor the lookup
  ever hands `makeMove` such a move.
- The thrown errors and the `null` returns become `Failure` and
  `None`/`Illegal` values.

The model is organised along the source:

| module | content |
|---|---|
| `Geometry` | constants, tables and square arithmetic |
| `Boards` | the board record, moves, and the mutable working copy |
| `Attack` | `isAttacked`, `isInCheck` |
| `MoveGen` | `getAllPossiblePsuedoMoves`, `addPsuedoMove`, `addPromotion` |
| `MoveLookup` | `getPsuedoMoveForPiece` |
| `Notation` | `toLAN` and `move`'s square reading |
| `MakeMoves` | `makeMove` |
| `Play` | `getPossibleMoves`, `move` |
| `Fen` | `toFEN`, `parseFEN`, `parseFENMoves` |
| `San` | `parseSAN`, `moveSAN` |
| `Positions` | `equalPosition`, `getPieces`, `getNextPlayer` |
| `Generator` | `ChessMoveGenerator` |
| `Text` | string splitting, number printing and `parseInt` |
| `Wrappers` | `Option` and `Result` |

The methods with loops are proved against functions that state what they
compute. Those functions carry the properties:

- every generated move obeys the movement rules;
- every move the lookup finds with the promotion piece the generator would
  give is also generated;
- `makeMove` keeps castling rights exactly as the rook and king squares
  allow;
- FEN written and read back gives the same board;
- SAN parsing and the move text are inverses;
- and more, listed below.

## Model

| member | source | states |
|---|---|---|
| Geometry.ToNotation | src/app/chess/chess-move-generator.ts:241-245 | the name of a square is a file letter a..h and a rank digit 1..8 whose offsets from 'a' and '1' are the square's file and rank |
| Geometry.NotationRoundTrip | src/app/chess/chess-move-generator.ts:241-245 | reading a square's name back with the engine's `getSquare(c0 - 'a', c1 - '1')` gives the square |
| Geometry.SquareFileRank | src/app/chess/chess-move-generator.ts:219-234 | `getSquare(getFile(sq), getRank(sq)) == sq` on every board square |
| Geometry.FileRankSquare | src/app/chess/chess-move-generator.ts:219-234 | every file and rank in 0..7 gives a board square whose file and rank they are |
| Geometry.FileBits | src/app/chess/chess-move-generator.ts:228-230 | `sq & 7` is the file of the square |
| Geometry.RankBits | src/app/chess/chess-move-generator.ts:219-221 | `(sq >> 3) ^ 7` is the rank of the square, counted from rank 1 |
| Geometry.SquareBits | src/app/chess/chess-move-generator.ts:232-234 | `getSquare`'s or of the file and the shifted flipped rank is the square the model computes, ranks 8..15 included |
| Geometry.AndSeven | src/app/chess/chess-move-generator.ts:228-230 | masking with 7 keeps the remainder modulo 8 |
| Geometry.XorSeven | src/app/chess/chess-move-generator.ts:219-221 | `v ^ 7` on 0..15 flips the low three bits: 7 - v below 8, 23 - v above |
| Geometry.MailboxAt | src/app/chess/chess-move-generator.ts:79-92 | the padded table holds -1 on its two-cell border and the board squares row by row inside it |
| Geometry.Mailbox64At | src/app/chess/chess-move-generator.ts:94-103 | the padded index of square sq is 21 + 10 * row + file |
| Geometry.MailboxRoundTrip | src/app/chess/chess-move-generator.ts:79-103 | the two tables are inverse on the board squares |
| Geometry.StepGeometry | src/app/chess/chess-move-generator.ts:110-121 | a step in any direction of the offset table moves by a file and row offset of at most two and lands on -1 exactly when it leaves the board |
| Geometry.StepProgress | src/app/chess/chess-move-generator.ts:79-121 | a step that stays on the board lands on a square whose padded index is the old one plus the offset |
| Geometry.OffsetIsDirection | src/app/chess/chess-move-generator.ts:110-121 | every used entry of the offset table is a direction |
| Geometry.CastleMaskAt | src/app/chess/chess-move-generator.ts:153-162 | the castle mask is 15 except on a8, e8, h8, a1, e1 and h1, where it clears the rights that square's king or rook holds |
| Geometry.BitAnd | src/app/chess/chess-move-generator.ts:377-387 | bitwise and of non-negative numbers is bounded by both operands |
| Geometry.BitOr | src/app/chess/chess-move-generator.ts:1234-1243 | bitwise or lies between the larger operand and their sum |
| Geometry.BitXor | src/app/chess/chess-move-generator.ts:219-221 | bitwise xor is non-negative and at most the sum |
| Geometry.FlagOr | src/app/chess/chess-move-generator.ts:1234-1243 | a bit is set in the or of x and g exactly when it is set in x or in g |
| Geometry.FlagAnd | src/app/chess/chess-move-generator.ts:988 | a power-of-two bit is set in `x & y` exactly when it is set in both |
| Geometry.OrTwice | src/app/chess/chess-move-generator.ts:254 | or-ing the same bits twice changes nothing |
| Geometry.OrSelf | src/app/chess/chess-move-generator.ts:254 | or-ing a number with itself gives it back |
| Geometry.OrBelow | src/app/chess/chess-move-generator.ts:1234-1243 | or of numbers below a power of two stays below it |
| Geometry.AndLow | src/app/chess/chess-move-generator.ts:228-230 | masking with n - 1 keeps a number below the power of two n |
| Geometry.OrLowHigh | src/app/chess/chess-move-generator.ts:232-234 | or of a low part and a multiple of a higher power of two is their sum |
| Geometry.OrAdd | src/app/chess/chess-move-generator.ts:1234-1243 | or-ing a flag onto a number below it adds the flag |
| Geometry.OrDisjoint | src/app/chess/chess-move-generator.ts:254 | or-ing a flag that is not set adds it |
| Geometry.LowFlags | src/app/chess/chess-move-generator.ts:377-387 | the four castling flags are the four low binary digits |
| Geometry.PawnOrCapture | src/app/chess/chess-move-generator.ts:998 | the test of the pawn-move and capture flags together holds exactly when either flag is set |
| Boards.InitialBoardContents | src/app/chess/chess-move-generator.ts:124-143 | the initial position has Black on rows 8 and 7, White on rows 2 and 1, pawns on the second rows, the back rows R N B Q K B N R, and every square well formed |
| Boards.WellFormedTypesKnown | src/app/chess/chess-move-generator.ts:181-183 | a well-formed board holds only piece numbers that have a name |
| Boards.CreateMove | src/app/chess/chess-move-generator.ts:251-263 | a created move keeps its squares and promotion piece and has a 6-bit flag word |
| Boards.CreateMoveFlags | src/app/chess/chess-move-generator.ts:251-263 | PROMOTE_FLAG is set exactly when a promotion piece is named or was already set; every other flag is kept |
| Boards.PromoteBits | src/app/chess/chess-move-generator.ts:254 | or-ing PROMOTE_FLAG onto a 6-bit word sets that flag only |
| Boards.CopySquares | src/app/chess/chess-move-generator.ts:278-281 | the copy loop leaves both arrays holding the given contents |
| Boards.MutableBoard.Copy | src/app/chess/chess-move-generator.ts:266-283 | `copyBoardUnfrozen` gives fresh arrays and the original board with the check flag cleared |
| Boards.MutableBoard.Initial | src/app/chess/chess-move-generator.ts:288-339 | `createBoard` gives fresh arrays holding the initial position, White to move, all rights, no en-passant square, clocks 0 and 1 |
| Attack.IsAttacked | src/app/chess/chess-move-generator.ts:629-670 | the square scan answers whether some piece of the given side attacks the square |
| Attack.PieceAttacks | src/app/chess/chess-move-generator.ts:631-667 | one square's test: a pawn of that side attacks diagonally forward, any other piece of that side along one of its rays |
| Attack.WalkRay | src/app/chess/chess-move-generator.ts:650-664 | the ray walk reaches the square before the board edge or a blocking piece, stopping after one step for a non-slider |
| Attack.RaysReachSome | src/app/chess/chess-move-generator.ts:649-665 | a piece reaches the square along its rays exactly when it reaches it along one of them |
| Attack.NoAttackerBelowAll | src/app/chess/chess-move-generator.ts:630-668 | no square below the scan position holds an attacker |
| Attack.FirstKing | src/app/chess/chess-move-generator.ts:616-620 | the king found is the first square at or after i holding that side's king, or -1 when there is none |
| Attack.FindKing | src/app/chess/chess-move-generator.ts:616-620 | the loop finds the first king of the side |
| Attack.IsInCheck | src/app/chess/chess-move-generator.ts:615-623 | `isInCheck` answers the check predicate: the first king of the side is attacked, or there is no king |
| Attack.InCheckAt | src/app/chess/chess-move-generator.ts:615-623 | a side is in check exactly when it has no king or its first king is attacked by the other side |
| Attack.NoKingInCheck | src/app/chess/chess-move-generator.ts:621 | a side without a king counts as in check |
| Attack.InCheckAtKing | src/app/chess/chess-move-generator.ts:616-620 | with a king of the side at k and none before it, check is exactly an attack on k by the other side |
| Attack.InCheckSquares | src/app/chess/chess-move-generator.ts:615-623 | check depends only on the square arrays |
| Attack.SameKingSameCheck | src/app/chess/chess-move-generator.ts:615-623 | boards with the same first king, equally attacked, agree on check |
| Attack.AttackedSquares | src/app/chess/chess-move-generator.ts:629-670 | the attack test depends only on the square arrays |
| MoveGen.FlagWords | src/app/chess/chess-move-generator.ts:817-896 | the flag words the generator passes are the ors of their flags |
| MoveGen.AllWordFlags | src/app/chess/chess-move-generator.ts:186-206 | which flags each of the generator's flag words holds |
| MoveGen.WordFlags | src/app/chess/chess-move-generator.ts:186-206 | the same, per flag |
| MoveGen.AddPromotion | src/app/chess/chess-move-generator.ts:923-927 | four moves are pushed, promoting to knight, bishop, rook and queen in that order |
| MoveGen.AddPseudoMove | src/app/chess/chess-move-generator.ts:905-920 | the moves pushed for one candidate are the promotions when a pawn move reaches the last rank, the single move otherwise |
| MoveGen.PromotionExpansion | src/app/chess/chess-move-generator.ts:905-927 | a promoting candidate becomes four moves to the same square, promoting to KNIGHT..QUEEN, with PROMOTE_FLAG added and every other flag kept; any other candidate becomes one move without promotion |
| MoveGen.PromoteTwice | src/app/chess/chess-move-generator.ts:254 | createMove's second or of PROMOTE_FLAG onto a promotion's word changes nothing |
| MoveGen.GetAllPossiblePseudoMoves | src/app/chess/chess-move-generator.ts:809-902 | the generated list is the board scan's moves, then the castles, then the en-passant captures, in that order |
| MoveGen.GenPiece | src/app/chess/chess-move-generator.ts:813-861 | one square's moves: pawn moves for a pawn, ray moves for any other piece |
| MoveGen.GenPawn | src/app/chess/chess-move-generator.ts:814-841 | a pawn's moves: its captures, then its pushes |
| MoveGen.GenPawnCaptures | src/app/chess/chess-move-generator.ts:816-821 | the left then the right diagonal capture, where the file allows and an opponent's piece stands |
| MoveGen.GenPawnPushes | src/app/chess/chess-move-generator.ts:822-827 | the single push onto an empty square, then the double push from the home row when both squares are empty |
| MoveGen.GenRays | src/app/chess/chess-move-generator.ts:843-860 | a piece's moves along each of its directions in table order |
| MoveGen.GenRay | src/app/chess/chess-move-generator.ts:844-859 | one ray: quiet moves up to the first piece, a capture when it is the opponent's, one step only for a non-slider |
| MoveGen.GenCastles | src/app/chess/chess-move-generator.ts:865-880 | a castle move for each right of the side to move, king side first, without looking at the squares between |
| MoveGen.GenEnPassant | src/app/chess/chess-move-generator.ts:882-899 | an en-passant capture from each side of the en-passant square where a pawn of the side to move stands |
| MoveGen.AddIf | src/app/chess/chess-move-generator.ts:816-838 | a conditional push adds the candidate's moves exactly when the condition holds |
| MoveGen.PseudoMovesSound | src/app/chess/chess-move-generator.ts:809-902 | every generated move obeys the movement rules (castle from the king's square to a castling square; otherwise from a piece of the side to move; captures onto an opponent's piece, en passant onto the en-passant square; quiet moves onto empty squares; double pushes two rows forward) and promotes to a piece exactly when flagged |
| MoveGen.BoardMovesSound | src/app/chess/chess-move-generator.ts:812-863 | the same for the moves of the board scan |
| MoveGen.RayMovesSound | src/app/chess/chess-move-generator.ts:844-859 | the same for one ray |
| MoveGen.RaysUpToSound | src/app/chess/chess-move-generator.ts:843-860 | the same for a piece's rays |
| MoveGen.PawnMovesSound | src/app/chess/chess-move-generator.ts:814-841 | the same for a pawn's moves |
| MoveGen.PawnCaptureSound | src/app/chess/chess-move-generator.ts:816-821 | the same for one pawn capture |
| MoveGen.PawnPushSound | src/app/chess/chess-move-generator.ts:822-827 | the same for the pawn pushes |
| MoveGen.CastleMovesSound | src/app/chess/chess-move-generator.ts:865-880 | the same for the castles |
| MoveGen.EpMovesSound | src/app/chess/chess-move-generator.ts:882-899 | the same for the en-passant captures |
| MoveGen.AddedSound | src/app/chess/chess-move-generator.ts:905-927 | expanding a sound candidate into promotions keeps it sound |
| MoveGen.CastleUnconditional | src/app/chess/chess-move-generator.ts:865-880 | each castling right of the side to move yields its castle move whatever stands between king and rook |
| MoveLookup.GetPseudoMoveForPiece | src/app/chess/chess-move-generator.ts:677-802 | the lookup returns the candidate the specification function gives for the squares and promotion piece, or nothing |
| MoveLookup.FindPawnMove | src/app/chess/chess-move-generator.ts:683-747 | a pawn's candidate: capture, push, double push, then an en-passant capture by either pawn beside the en-passant square |
| MoveLookup.FindOnRay | src/app/chess/chess-move-generator.ts:751-770 | the candidate found walking one ray to the target square |
| MoveLookup.PseudoMoveForSound | src/app/chess/chess-move-generator.ts:677-802 | a found candidate obeys the movement rules and ends on the target, and starts on the given square unless it is en passant or a castle |
| MoveLookup.PawnFindSound | src/app/chess/chess-move-generator.ts:683-747 | the same for a pawn's candidate |
| MoveLookup.PawnCaptureFindSound | src/app/chess/chess-move-generator.ts:685-694 | the same for a pawn capture |
| MoveLookup.PawnPushFindSound | src/app/chess/chess-move-generator.ts:695-704 | the same for a pawn push |
| MoveLookup.EpFindSound | src/app/chess/chess-move-generator.ts:706-713 | an en-passant candidate obeys the rules, ends on the en-passant square and carries EN_PASSANT_FLAG |
| MoveLookup.RayFindSound | src/app/chess/chess-move-generator.ts:751-770 | a ray candidate starts on the piece, ends on the target and obeys the rules |
| MoveLookup.RaysFindSound | src/app/chess/chess-move-generator.ts:750-771 | the same over all of a piece's rays |
| MoveLookup.CastleFindSound | src/app/chess/chess-move-generator.ts:775-799 | a castle candidate obeys the rules |
| MoveLookup.CreatedSound | src/app/chess/chess-move-generator.ts:251-263 | naming a promotion piece in `createMove` keeps a sound move sound |
| MoveLookup.PawnBase | src/app/chess/chess-move-generator.ts:685-704 | a pawn capture onto an opponent, a push onto an empty square and a double push from the home row are sound |
| MoveLookup.EpBase | src/app/chess/chess-move-generator.ts:706-713 | a pawn beside the en-passant square, on the file allowed, captures en passant soundly |
| MoveLookup.PseudoMoveForListed | src/app/chess/chess-move-generator.ts:677-902 | a found candidate whose promotion piece is the one the generator gives is among the generated moves |
| MoveLookup.PawnFindListed | src/app/chess/chess-move-generator.ts:683-747 | a pawn's candidate is among its generated moves or the en-passant captures |
| MoveLookup.PawnCaptureFindListed | src/app/chess/chess-move-generator.ts:685-694 | a pawn capture candidate is among the pawn's generated moves |
| MoveLookup.PawnPushFindListed | src/app/chess/chess-move-generator.ts:695-704 | a pawn push candidate is among the pawn's generated moves |
| MoveLookup.EpFindListed | src/app/chess/chess-move-generator.ts:706-713 | an en-passant candidate is among the generated en-passant captures |
| MoveLookup.RayFindListed | src/app/chess/chess-move-generator.ts:751-770 | a ray candidate is among that ray's generated moves |
| MoveLookup.RaysFindListed | src/app/chess/chess-move-generator.ts:750-771 | a candidate on any ray is among the piece's generated moves |
| MoveLookup.CastleFindListed | src/app/chess/chess-move-generator.ts:775-799 | a castle candidate is among the generated castles |
| MoveLookup.InAdded | src/app/chess/chess-move-generator.ts:905-927 | a created move with the generator's promotion piece is among those `addPsuedoMove` pushes |
| MoveLookup.BoardMovesHas | src/app/chess/chess-move-generator.ts:812-863 | a square's moves are among the board scan's |
| MoveLookup.RaysUpToHas | src/app/chess/chess-move-generator.ts:843-860 | the moves of earlier rays stay in the list |
| Notation.IndexOf | src/app/chess/chess-move-generator.ts:471 | `indexOf` is the first position of the character, or -1 exactly when it is absent |
| Notation.ToLAN | src/app/chess/chess-move-generator.ts:423-425 | the name is the two square names followed by the promotion suffix |
| Notation.ParseLAN | src/app/chess/chess-move-generator.ts:468-471 | the squares read are board squares and the promotion read is a name index or -1 |
| Notation.LanRoundTrip | src/app/chess/chess-move-generator.ts:423-471 | reading back a written name gives its squares and promotion piece, KNIGHT..KING and EMPTY alike |
| Notation.LanPawnPromotionLost | src/app/chess/chess-move-generator.ts:424 | a promotion to PAWN (0) is written without suffix and so reads back as EMPTY |
| MakeMoves.MakeMove | src/app/chess/chess-move-generator.ts:929-1035 | `makeMove` hands back the successor board with the check flag of the mover, refuses the move, or throws, as the outcome function states |
| MakeMoves.Apply | src/app/chess/chess-move-generator.ts:975-1029 | the working copy becomes the successor board |
| MakeMoves.TestCastle | src/app/chess/chess-move-generator.ts:938-974 | a castle is refused in check, throws for an unknown target, and is refused when blocked or crossing an attacked square |
| MakeMoves.MoveRook | src/app/chess/chess-move-generator.ts:975-978 | the castle's rook moves from its corner to the square beside the king |
| MakeMoves.WriteMove | src/app/chess/chess-move-generator.ts:982-1023 | the move number, rights, en-passant square and clock are updated as stated, and the squares as the piece placement states |
| MakeMoves.PlacePiece | src/app/chess/chess-move-generator.ts:1005-1023 | the piece lands on the target (promoted when flagged), leaves its origin, and the pawn behind an en-passant target is removed |
| MakeMoves.CastleAfter | src/app/chess/chess-move-generator.ts:988 | the rights after a move stay a 4-bit word |
| MakeMoves.CastleRook | src/app/chess/chess-move-generator.ts:975-978 | the rook move keeps 64 squares; what it does to them is proved in MakeMoves.RookSquares |
| MakeMoves.MovedColors | src/app/chess/chess-move-generator.ts:1005-1023 | the colour update keeps 64 squares; what it does to them is proved in MakeMoves.MovedSquares |
| MakeMoves.MovedTypes | src/app/chess/chess-move-generator.ts:1005-1023 | the type update keeps 64 squares; what it does to them is proved in MakeMoves.MovedSquares |
| MakeMoves.OutcomeKinds | src/app/chess/chess-move-generator.ts:929-1035 | a move throws exactly for a castle, out of check, onto no castling square; it is accepted exactly when the opponent's king is not attacked and, for a castle, the mover is not in check and the castle is not blocked; it is refused otherwise |
| MakeMoves.LegalityIgnoresMove | src/app/chess/chess-move-generator.ts:1030-1032 | as written, the legality test looks at the board before the move, so every non-castle move of a position is accepted or refused alike |
| MakeMoves.Bookkeeping | src/app/chess/chess-move-generator.ts:982-1033 | after an accepted move the sides swap, Black's move advances the move number, a pawn move or capture resets the clock and anything else advances it, a double push sets the square behind it as en-passant square and anything else clears it, and the check flag is the mover's |
| MakeMoves.LegalBoard | src/app/chess/chess-move-generator.ts:1030-1034 | an accepted move hands back the successor board with the check flag the mover had before the move |
| MakeMoves.CastleRights | src/app/chess/chess-move-generator.ts:988 | each right survives exactly when it was held and the move touches neither its king's nor its rook's home square; a move touching none of them keeps all rights |
| MakeMoves.RightKept | src/app/chess/chess-move-generator.ts:988 | the same, for one right |
| MakeMoves.MaskRight | src/app/chess/chess-move-generator.ts:153-162 | a square's mask clears a right exactly on that right's king and rook squares |
| MakeMoves.MaskFlags | src/app/chess/chess-move-generator.ts:153-162 | the flags held by each value of the mask table |
| MakeMoves.Squares | src/app/chess/chess-move-generator.ts:975-1023 | after an accepted move the origin is empty, the target holds the mover's (possibly promoted) piece, the pawn taken en passant and the castling rook's corner are empty, the rook stands beside the king, and every other square is unchanged |
| MakeMoves.SuccessorSquares | src/app/chess/chess-move-generator.ts:975-1023 | the same for the successor board |
| MakeMoves.MovedSquares | src/app/chess/chess-move-generator.ts:1005-1023 | the same for the piece placement alone |
| MakeMoves.RookSquares | src/app/chess/chess-move-generator.ts:975-978 | the rook move empties the corner and fills the square beside the king, nothing else |
| MakeMoves.GeneratedApplies | src/app/chess/chess-move-generator.ts:809-1035 | every generated move can be applied and never makes `makeMove` throw |
| Play.GetPossibleMoves | src/app/chess/chess-move-generator.ts:431-446 | the list is the names of the generated moves `makeMove` accepts, in generation order |
| Play.KeepIfLegal | src/app/chess/chess-move-generator.ts:436-442 | one candidate is named and added exactly when `makeMove` accepts it |
| Play.PossibleMovesListed | src/app/chess/chess-move-generator.ts:431-446 | a name is listed exactly when some generated move of that name is accepted, and there are no more names than candidates |
| Play.KeepLegalSource | src/app/chess/chess-move-generator.ts:431-446 | every listed name belongs to an accepted candidate |
| Play.KeepLegalKeeps | src/app/chess/chess-move-generator.ts:431-446 | every accepted candidate is listed by name |
| Play.KeepLegalLength | src/app/chess/chess-move-generator.ts:431-446 | filtering keeps at most as many names as candidates |
| Play.PseudoInRange | src/app/chess/chess-move-generator.ts:433-437 | every generated move can be given to `makeMove` |
| Play.LanCandidate | src/app/chess/chess-move-generator.ts:468-472 | the candidate looked up for a name can be applied |
| Play.MoveByLan | src/app/chess/chess-move-generator.ts:468-474 | `move` gives null when no candidate is found, else what `makeMove` does with it |
| Play.LanNeverThrows | src/app/chess/chess-move-generator.ts:468-474 | `move` never throws "failed to castle" |
| Play.LanMoveListed | src/app/chess/chess-move-generator.ts:431-474 | a move named with the generator's promotion piece is a generated candidate, and when `move` accepts it `getPossibleMoves` lists its name |
| Play.ListedNamesParse | src/app/chess/chess-move-generator.ts:423-474 | every listed name read back by `move` gives the squares and promotion piece of an accepted candidate |
| Fen.ToFEN | src/app/chess/chess-move-generator.ts:343-414 | `toFEN` writes the six fields, or throws TypeError for a black piece without a name |
| Fen.WritePlacement | src/app/chess/chess-move-generator.ts:347-369 | the square loop writes the placement field, or fails on the first square it cannot name |
| Fen.WriteStep | src/app/chess/chess-move-generator.ts:348-368 | one square of the loop keeps the text written so far plus what is left equal to the whole field |
| Fen.WriteSquare | src/app/chess/chess-move-generator.ts:351-359 | an empty square is counted; a piece writes the pending count and its name |
| Fen.EndRow | src/app/chess/chess-move-generator.ts:360-368 | the end of a row writes the pending count and a '/' except after the last row |
| Fen.CastleLetters | src/app/chess/chess-move-generator.ts:374-389 | the rights are written as K, Q, k, q in that order, or "-" for none |
| Fen.FenTextFields | src/app/chess/chess-move-generator.ts:343-414 | the text is the six fields separated by single spaces |
| Fen.FlushPrinted | src/app/chess/chess-move-generator.ts:355 | a count of one to eight empty squares prints as its one digit |
| Fen.ScanPlacement | src/app/chess/chess-move-generator.ts:347-369 | the square-by-square scan writes the rows joined by '/' |
| Fen.ScanRanks | src/app/chess/chess-move-generator.ts:347-369 | the scan from a row start writes that row and the ones below it joined by '/' |
| Fen.ScanRun | src/app/chess/chess-move-generator.ts:347-369 | within a row, the scan writes the rest of the row, then '/' and the next rows |
| Fen.Pending | src/app/chess/chess-move-generator.ts:351-357 | the empty count grows by at most one per square |
| Fen.RankTexts | src/app/chess/chess-move-generator.ts:347-369 | there are eight row texts, one per row |
| Fen.PrintableWellFormed | src/app/chess/chess-move-generator.ts:358 | a well-formed board is written without error |
| Fen.FenTextSquares | src/app/chess/chess-move-generator.ts:343-414 | the text depends only on the squares, side, rights, en-passant square and clocks |
| Fen.ParseFEN | src/app/chess/chess-move-generator.ts:1203-1262 | `parseFEN` gives the board the six fields describe, or the error of the first field that cannot be read; the conditions that make it fail are proved in Fen.FenErrors |
| Fen.ReadFields | src/app/chess/chess-move-generator.ts:1213-1262 | the last five fields are read onto the working board in order |
| Fen.ReadCounters | src/app/chess/chess-move-generator.ts:1257-1261 | the move counters are read and the check flag is computed |
| Fen.ParseSide | src/app/chess/chess-move-generator.ts:1213-1224 | "w" and "b" give the side to move; anything else throws |
| Fen.ParseCastling | src/app/chess/chess-move-generator.ts:1226-1249 | "-" gives no rights; otherwise each of K, Q, k, q adds its right and any other letter throws |
| Fen.ParseEnPassant | src/app/chess/chess-move-generator.ts:1251-1255 | "-" gives no square, otherwise the square the first two characters name |
| Fen.ParseNumber | src/app/chess/chess-move-generator.ts:1257-1258 | a counter is read as `parseInt` reads it |
| Fen.ParseFENMoves | src/app/chess/chess-move-generator.ts:1264-1361 | eight '/'-separated rows are read onto an empty board; otherwise the error is reported; no other field changes |
| Fen.EmptySquares | src/app/chess/chess-move-generator.ts:1270-1276 | the squares start empty |
| Fen.ReadRank | src/app/chess/chess-move-generator.ts:1279-1359 | a row's characters are read onto the squares as the row-reading function states, or the error is reported |
| Fen.ReadChar | src/app/chess/chess-move-generator.ts:1283-1358 | one character places a piece and moves a file on, skips files for a digit, or throws |
| Fen.PieceOfChar | src/app/chess/chess-move-generator.ts:1286-1345 | a piece letter gives a colour and a piece kind |
| Fen.RankWrite | src/app/chess/chess-move-generator.ts:1282-1358 | reading a row keeps 64 squares and fails only with "Unexpected character" or "piece beyond the h-file"; as written, a row need not add up to eight files; that a written row reads back is proved in Fen.RowRead, and that a bad character fails in Fen.RankWriteFails |
| Fen.RanksWrite | src/app/chess/chess-move-generator.ts:1279-1360 | reading the rows keeps 64 squares; that the written rows read back is proved in Fen.RanksRoundTrip, and that a bad character fails in Fen.RanksWriteFails |
| Fen.Placement | src/app/chess/chess-move-generator.ts:1264-1361 | a placement read gives 64 squares; the round trip is proved in Fen.PlacementRoundTrip and the errors in Fen.FenErrors |
| Fen.NoPieces | src/app/chess/chess-move-generator.ts:1270-1276 | 64 empty squares |
| Fen.CastleChars | src/app/chess/chess-move-generator.ts:1230-1248 | the rights read stay a 4-bit word; the round trip is proved in Fen.CastleRoundTrip and the errors in Fen.CastleCharsFails |
| Fen.CastleField | src/app/chess/chess-move-generator.ts:1226-1249 | the rights read stay a 4-bit word; the round trip is proved in Fen.CastleRoundTrip |
| Fen.EpField | src/app/chess/chess-move-generator.ts:1251-1255 | the en-passant square read is -1 or a board square |
| Fen.FenBoard | src/app/chess/chess-move-generator.ts:1203-1262 | a board read from FEN is shaped; when it fails is proved in Fen.FenErrors, and what it reads in Fen.FenBoardReads and Fen.FenRoundTrip |
| Fen.FenErrors | src/app/chess/chess-move-generator.ts:1203-1358 | a text without six fields fails with "expected 6 columns in FEN"; a placement without eight rows fails with "Expected 8 rows in position"; with eight rows, a placement character other than '/', a piece letter or a digit 1..8 fails with "Unexpected character" (or "piece beyond the h-file" when that comes first); once the placement is read, a colour other than w or b fails with "Unexpected active color"; once the colour is read, a castling field other than "-" that holds a character other than K, Q, k and q fails with "Unexpected character in castling availability"; each condition alone already makes `parseFEN` fail |
| Fen.FieldHolding | src/app/chess/chess-move-generator.ts:1264 | a character of the placement other than '/' lies in one of the rows `split` gives |
| Fen.RankWriteFails | src/app/chess/chess-move-generator.ts:1282-1358 | a bad character anywhere in the rest of a row makes the row fail with "Unexpected character" or "piece beyond the h-file", whatever the file reached |
| Fen.RanksWriteFails | src/app/chess/chess-move-generator.ts:1279-1360 | a bad character in a row still to be read makes the placement fail with one of those two texts |
| Fen.CastleCharsFails | src/app/chess/chess-move-generator.ts:1230-1248 | a character other than K, Q, k and q anywhere in the castling field makes it fail with "Unexpected character in castling availability" |
| Fen.FieldsBoard | src/app/chess/chess-move-generator.ts:1213-1262 | the same, from the fields |
| Fen.CountersBoard | src/app/chess/chess-move-generator.ts:1257-1261 | the same, from the counters |
| Fen.Described | src/app/chess/chess-move-generator.ts:1209-1261 | the board read holds exactly the fields' squares, side, rights, en-passant square and counters |
| Fen.ReadBoard | src/app/chess/chess-move-generator.ts:1259 | the working board with its check flag computed is the described board |
| Fen.FenRoundTrip | src/app/chess/chess-move-generator.ts:343-1361 | writing a well-formed board and reading it back gives the same board, with its check flag computed |
| Fen.FieldsRead | src/app/chess/chess-move-generator.ts:1204-1258 | the written text splits into its six fields, and each field reads back as the value it was written from |
| Fen.FieldsSplit | src/app/chess/chess-move-generator.ts:1204 | the written text splits at spaces into the six fields |
| Fen.FieldValues | src/app/chess/chess-move-generator.ts:1211-1258 | each written field reads back as its value |
| Fen.FenBoardReads | src/app/chess/chess-move-generator.ts:1203-1262 | six readable fields give the board they describe |
| Fen.PlacementRoundTrip | src/app/chess/chess-move-generator.ts:347-1361 | the written placement reads back as the board's squares |
| Fen.RanksRoundTrip | src/app/chess/chess-move-generator.ts:1279-1360 | reading the written rows from row i on fills in the squares of those rows |
| Fen.RowRead | src/app/chess/chess-move-generator.ts:1282-1358 | reading one written row fills in that row's squares |
| Fen.RunRoundTrip | src/app/chess/chess-move-generator.ts:1282-1358 | reading the rest of a written row, from any point, fills in the rest of the row |
| Fen.EmptyRunRoundTrip | src/app/chess/chess-move-generator.ts:1346-1355 | the same, from an empty square |
| Fen.PieceRunRoundTrip | src/app/chess/chess-move-generator.ts:1286-1345 | the same, from a piece |
| Fen.EmptyRunRead | src/app/chess/chess-move-generator.ts:1346-1355 | an empty square adds one to the pending count |
| Fen.PieceRunRead | src/app/chess/chess-move-generator.ts:1286-1345 | a piece is read onto its square after the pending count is skipped |
| Fen.FlushRead | src/app/chess/chess-move-generator.ts:1346-1355 | reading a written count skips that many files |
| Fen.PieceRead | src/app/chess/chess-move-generator.ts:1286-1345 | a written piece letter reads back as its colour and kind |
| Fen.PieceStep | src/app/chess/chess-move-generator.ts:1284-1345 | reading a piece letter writes its square and moves one file on |
| Fen.FlushPieceRead | src/app/chess/chess-move-generator.ts:1284-1355 | a count followed by a piece letter places the piece that many files on |
| Fen.RunEnd | src/app/chess/chess-move-generator.ts:1282 | the end of a row leaves it filled in |
| Fen.CastleRoundTrip | src/app/chess/chess-move-generator.ts:374-1249 | the written rights read back as the rights |
| Fen.CastleStep | src/app/chess/chess-move-generator.ts:1231-1244 | a right's letter, when present, ors in its flag |
| Fen.RightsFromFlags | src/app/chess/chess-move-generator.ts:1234-1243 | or-ing the flags a rights word holds gives the word back |
| Fen.FlagSum | src/app/chess/chess-move-generator.ts:186-206 | a rights word is the sum of the flags it holds |
| Text.Split | src/app/chess/chess-move-generator.ts:1204 | `split` gives at least one field and no field holds the separator |
| Text.JoinSplit | src/app/chess/chess-move-generator.ts:1204 | joining the fields of a split with the separator gives the text back |
| Text.SplitJoin | src/app/chess/chess-move-generator.ts:1204 | splitting fields joined by a separator they do not hold gives the fields back |
| Text.SplitPlain | src/app/chess/chess-move-generator.ts:1204 | a text without the separator splits into itself |
| Text.SplitFront | src/app/chess/chess-move-generator.ts:1204 | splitting after a first separator splits the rest |
| Text.IntToString | src/app/chess/chess-move-generator.ts:404-411 | a printed number is non-empty and holds no space or '/' |
| Text.DigitChar | src/app/chess/chess-move-generator.ts:355 | a digit character has the digit's code offset from '0' |
| Text.NatDigits | src/app/chess/chess-move-generator.ts:404-411 | a printed natural number is decimal digits |
| Text.DigitsOfNat | src/app/chess/chess-move-generator.ts:404-411 | the printed digits of n have the value n |
| Text.LeadingDigits | src/app/chess/chess-move-generator.ts:1257-1258 | the length of the leading run of digits |
| Text.ParseIntToString | src/app/chess/chess-move-generator.ts:404-1258 | `parseInt` of a printed integer gives it back |
| Text.LowerCase | src/app/chess/chess-move-generator.ts:358 | `toLowerCase` maps capitals to the matching small letters and leaves other characters |
| San.ParseSAN | src/app/chess/chess-move-generator.ts:1071-1201 | the parsed fields are letters of their classes in one of the pattern shapes |
| San.ParseSANReads | src/app/chess/chess-move-generator.ts:1071-1201 | the text of what was parsed is the parsed text |
| San.ParseSANWritten | src/app/chess/chess-move-generator.ts:1071-1201 | every parsed move in a pattern shape is what its text parses to |
| San.PieceTextRead | src/app/chess/chess-move-generator.ts:1092-1159 | the same for moves with a piece letter |
| San.PawnTextRead | src/app/chess/chess-move-generator.ts:1160-1189 | the same for pawn moves |
| San.ParseSANExactly | src/app/chess/chess-move-generator.ts:1071-1201 | a text parses exactly when it is the text of a move in a pattern shape |
| San.MoveSAN | src/app/chess/chess-move-generator.ts:481-607 | `moveSAN` gives the outcome of the parsed move resolved on the board, null for an unparsed text |
| San.ResolveSAN | src/app/chess/chess-move-generator.ts:486-607 | a castle, a move with origin file and rank, or the first origin searched that `makeMove` accepts |
| San.TryMove | src/app/chess/chess-move-generator.ts:556-557 | one origin: the lookup's candidate applied, or null |
| San.SearchFile | src/app/chess/chess-move-generator.ts:561-572 | the squares of the origin file, from rank 8 down, are tried in order |
| San.SearchRank | src/app/chess/chess-move-generator.ts:578-591 | the eight squares from the rank's first are tried in order |
| San.SearchPiece | src/app/chess/chess-move-generator.ts:594-606 | the squares holding the named piece of the side to move are tried in increasing order |
| San.PieceSquares | src/app/chess/chess-move-generator.ts:594-595 | the squares searched are exactly those holding that piece of the side to move, in increasing order |
| San.PieceSearchStep | src/app/chess/chess-move-generator.ts:594-604 | one step of the piece search |
| San.FirstLegalFirst | src/app/chess/chess-move-generator.ts:561-604 | the search result is refused exactly when every origin is; otherwise it is the outcome of the first origin not refused |
| San.Target | src/app/chess/chess-move-generator.ts:509 | the target square is a board square |
| San.TryFound | src/app/chess/chess-move-generator.ts:556-557 | an origin that is not refused has a sound candidate to the target whose outcome it is |
| San.TryNeverThrows | src/app/chess/chess-move-generator.ts:556-557 | trying an origin never throws |
| San.FirstNeverThrows | src/app/chess/chess-move-generator.ts:561-604 | a search never throws |
| San.SanNeverThrows | src/app/chess/chess-move-generator.ts:481-607 | `moveSAN` never throws |
| San.ResolveNeverThrows | src/app/chess/chess-move-generator.ts:486-607 | resolving a parsed move never throws |
| San.SanMoveMade | src/app/chess/chess-move-generator.ts:509-607 | an accepted non-castle move is a sound move to the named target square |
| San.ResolveMoveMade | src/app/chess/chess-move-generator.ts:509-607 | the same for a parsed move |
| San.FileSquaresOnFile | src/app/chess/chess-move-generator.ts:561-572 | the file search visits the eight squares of the file, rank 8 first |
| San.RankSquaresOneUp | src/app/chess/chess-move-generator.ts:548-591 | as written, the rank search for ranks 1..7 visits the squares of the rank above the one named |
| San.RankEightNeverMoves | src/app/chess/chess-move-generator.ts:548-591 | as written, a move disambiguated by rank 8 is always refused |
| Positions.EqualPosition | src/app/chess/chess-move-generator.ts:1041-1063 | two present boards are equal when rights, en-passant square and colours agree |
| Positions.SamePositionReflexive | src/app/chess/chess-move-generator.ts:1041-1063 | every present board equals itself |
| Positions.SamePositionSymmetric | src/app/chess/chess-move-generator.ts:1041-1063 | the test does not depend on the order of the boards |
| Positions.SamePositionTransitive | src/app/chess/chess-move-generator.ts:1041-1063 | the test carries over from board to board |
| Positions.NoBoardNoPosition | src/app/chess/chess-move-generator.ts:1042-1044 | a missing board equals nothing |
| Positions.TypesAndSideIgnored | src/app/chess/chess-move-generator.ts:1053-1060 | as written, boards that differ only in piece types or side to move are equal |
| Positions.KnightIsBishop | src/app/chess/chess-move-generator.ts:1057 | an illustration of Positions.TypesAndSideIgnored: as written, the initial position with a bishop in place of the b1 knight passes the test |
| Positions.FenKeepsPosition | src/app/chess/chess-move-generator.ts:343-1063 | a well-formed board written as FEN and read back is in the same position |
| Positions.GetPieces | src/app/chess/chess-move-generator.ts:448-459 | the list holds the entry of every square in order, or the TypeError of an unnamed piece number |
| Positions.Entries | src/app/chess/chess-move-generator.ts:449-457 | there is one entry per square |
| Positions.EntriesAt | src/app/chess/chess-move-generator.ts:449-457 | entry k is square k's |
| Positions.PieceListRead | src/app/chess/chess-move-generator.ts:448-459 | every entry of a well-formed board's list reads back as its square's colour and piece |
| Positions.UnknownPieceThrows | src/app/chess/chess-move-generator.ts:454 | a square holding an unnamed piece number makes `getPieces` throw |
| Positions.TurnPasses | src/app/chess/chess-move-generator.ts:461-463 | after an accepted move `getNextPlayer` names the other player |
| Generator.FirstDefault | src/app/chess/chess-move-generator.ts:1367-1371 | `first` without a board starts from the standard starting position |
| Generator.FirstEchoes | src/app/chess/chess-move-generator.ts:1367-1378 | `first` on the FEN of a well-formed board gives back that FEN, the player to move and the moves `getPossibleMoves` lists for it |
| Generator.RefusedMoveThrows | src/app/chess/chess-move-generator.ts:1380-1383 | a refused move makes `move` throw when writing the null board |
| Generator.MovePassesTurn | src/app/chess/chess-move-generator.ts:1380-1388 | after `move` the other player is to move |
| Generator.LanOutcomeShaped | src/app/chess/chess-move-generator.ts:1381 | the board after an accepted move is a board with the other side to move |

## Left out

- I/O, the server around the engine, and the other files of the repository (`board.ts`, the game and session code): they are not part of this model.
- `FEN_DATA` (lines 170-178): it is never read by the engine.
- `toSAN` is a stub that answers "?". The model keeps the stub, so no SAN naming is modelled.
- Fen.ParseFEN: a piece placed past the h-file gives the failure "piece beyond the h-file". The source writes it onto a square computed from an out-of-range file instead.
- Fen.ParseFEN: an en-passant field that does not start with a square name gives a failure. The source stores the square computed from arbitrary character codes.
- Text.ParseInt: accepts only an optional sign followed by decimal digits, read up to the first other character.
  - Leading white space, a "0x" prefix and fractional or exponent parts are not modelled the JavaScript way.
  - NaN becomes the failure "Not a number" instead of being stored.
- Text.IntToString: prints integers in plain decimal. JavaScript's exponent form for magnitudes of 1e21 and above is not modelled.
- Fen.FenBoard: error texts carry no dynamic part. For example, "Unexpected character" omits the offending character and "Expected 8 rows in position" omits the count.
- Fen.ToFEN: a piece number without a name prints as "undefined" for White and gives Failure("TypeError") for Black, where lower-casing undefined throws.
- Notation.ParseLAN: a text whose first four characters are not two square names gives None. The source computes squares from arbitrary character codes.
- Generator.MoveContext: a refused move gives Failure("TypeError"). This stands for the exception `toFEN(null)` raises.
- Boards: returned boards are values. Only the working copy that `createBoard`, `copyBoardUnfrozen`, `parseFEN` and `makeMove` fill in is a mutable object with arrays. Since the engine never writes a board it has handed out, no aliasing is lost.
- Geometry.BitAnd: the bitwise operators `&`, `|`, `^`, `>>` and `<<` are modelled on non-negative integers, not on 32-bit words. The engine applies them only to small non-negative values, except `getFile(-1)`, which is modelled as the matching remainder 7.
- Characters are UTF-16 code units as `char`. No Unicode handling beyond code comparison is modelled.
