# A verified model of the chess engine of dumbogo/chess

This project models the rules engine in `engine/` of the Go chess server
dumbogo/chess and proves properties of it in Dafny:

- **Constants** (`constants.dfy`, engine/constants.go): the `uint8`
  enumerations `Color` (Black = 1, White = 2), `PieceIdentifier`
  (Pawn = 1 … King = 6) and `SquareIdentifier` (A1 = 1 … H8 = 64), with 0
  reserved in each. The square identifiers and the coordinate triples of
  `fillSquares` fix the law `id = 8 * file + rank + 1`. `SquareAt` states
  this law, and the model proves it is a bijection from the 8×8 coordinates
  onto 1..64. `CoordinateToSquareIdentifier`, which the rook rule calls, is
  `SquareAt`.
- **Pieces** (`pieces.dfy`, engine/pieces.go): a piece is a kind and a
  colour. The module models the six constructors, `Identifier`, `Color`
  (the field) and the two-letter `String` code, in which the knight is a
  lower-case `k`.
- **Board** (`board.dfy`, engine/board.go): `Board` is a class holding the
  two players and the map `squares` from identifier to `Square`. Its
  constructor stores the players and fills in the standard opening; the
  model proves the opening's layout square by square and its material
  (16 white, 16 black and 32 empty squares). `EatPiece` empties one square
  in place and returns the piece that stood there.
- **Rules** (`rules.dfy`, the `CanMove` methods of engine/pieces.go): each
  rule is a specification function, with lemmas that characterise it. The
  rook and king rules, which loop, are also written as methods that run the
  source's loops, and so is the dispatch on the piece's kind. Each method is
  proved equal to its function. The pawn rule has no loop and is a function
  only.

  The answer is three-valued. `Legal` and `Illegal` are the Go rule's
  `true` and `false`. `Unimplemented` stands for a rule that never returns:
  the queen, bishop and knight rules panic with "TODO", and the king's scan
  can recurse without end.
  - The king asks every piece of the other colour whether it can reach the
    destination, and that includes the other king. The model therefore
    bounds the nesting depth with a `fuel` argument.
  - The source walks a Go map, so the order of the scan is unspecified. The
    model gives an answer that does not depend on the order:
    - if any scanned piece can reach the square, the answer is `Illegal`;
    - otherwise, if any scanned rule gives no verdict, the king gives none;
    - otherwise, the king's own diagonal-step test decides.

    Each of these is the answer that some iteration order produces.
- **Game** (`games.dfy`, engine/game.go): `Game` is a class with a fixed
  name, board and players and a mutable `turn`. `Move` checks, in this
  order:
  1. that the origin is occupied;
  2. the turn;
  3. the piece's rule, where a scan is cut off at depth `KingScanDepth = 2`;
  4. that the destination does not hold a piece of the side to move.

  It then eats any piece on the destination, writes both squares and hands
  over the turn. The function `MoveOutcome` gives the answer of `Move` and
  the function `Relocate` gives the squares after a move. Lemmas about
  these two cover the refusals, the material balance and the moves that
  the source's tests play.

The model follows the code where the code departs from the Laws of Chess:

- The king steps diagonally only.
- White's opening step accepts any empty square of its file two or more
  ranks ahead. Black's accepts any empty square of its file on ranks 5 to
  8. Neither looks at the squares it passes over.
- A black pawn on rank 7 may step back onto an empty rank-8 square
  (`BlackPawnStepsBack`).

engine/game.go:64 calls `CanMove(squareFrom, squareTo)` with two arguments
while the interface at engine/pieces.go:11 takes four. The model passes the
game's board and leaves out the movement history, which no rule reads.

## Model

| member | source | states |
|---|---|---|
| Constants.SquareAt | engine/constants.go:32-98 | every file/rank pair in 0..7 names one of the identifiers 1..64 |
| Constants.File | engine/constants.go:34-97 | the file of a square identifier lies in 0..7 |
| Constants.Rank | engine/constants.go:34-97 | the rank of a square identifier lies in 0..7 |
| Constants.FileRankOfSquareAt | engine/constants.go:34-97 | file and rank read back the coordinates `id = 8 * file + rank + 1` encodes |
| Constants.SquareAtCovers | engine/constants.go:34-97 | every identifier 1..64 is the square at its own file and rank |
| Constants.SquareAtInjective | engine/constants.go:34-97 | distinct coordinates give distinct identifiers |
| Constants.NamedSquaresFollowLaw | engine/constants.go:34-97 | a spot check: the corner and king constants A1, A8, B1, E1, E8, H1, H8 sit where the law puts them |
| Constants.SquareName | engine/constants.go:32-98 | a square's name is a file letter A..H then a rank digit 1..8 |
| Constants.StringToSquareIdentifier | engine/constants_test.go:9-18 | the flag is true exactly when the identifier is one of 1..64, and a refused string gives 0 |
| Constants.NameParses | engine/constants.go:32-98 | parsing a square's constant name gives that square and true |
| Constants.ParsedIsName | engine/constants.go:32-98 | every accepted string is the name of the square it parses to |
| Constants.ParsesTestProbes | engine/constants_test.go:11-17 | "A1" parses to (A1, true) and "sss" to (0, false) |
| Pieces.Identifier | engine/constants.go:18-26 | a piece's identifier is one of the six named kinds 1..6, never the reserved 0 |
| Pieces.IdentifierInjective | engine/constants.go:18-26 | pieces with the same identifier are of the same kind |
| Pieces.NewPawn | engine/pieces.go:35-43 | the new piece is a pawn of the given colour |
| Pieces.NewKing | engine/pieces.go:118-126 | the new piece is a king of the given colour |
| Pieces.NewQueen | engine/pieces.go:165-173 | the new piece is a queen of the given colour |
| Pieces.NewRook | engine/pieces.go:192-200 | the new piece is a rook of the given colour |
| Pieces.NewBishop | engine/pieces.go:260-268 | the new piece is a bishop of the given colour |
| Pieces.NewKnight | engine/pieces.go:287-295 | the new piece is a knight of the given colour |
| Pieces.String | engine/pieces.go:106-111 | two characters: the first "W" exactly for white and "B" for every other colour; the second "P", "B", "k", "R", "Q" or "K" exactly for a pawn, bishop, knight, rook, queen or king |
| Pieces.StringInjective | engine/pieces.go:302-307 | for black and white pieces the two-letter code determines the piece (knight "k" apart from king "K") |
| Boards.InitialSquares | engine/board.go:38-113 | the opening has one well-formed square per identifier 1..64, keyed by it |
| Boards.InitialPlacement | engine/board.go:41-111 | ranks 1-2 white, 7-8 black, 3-6 empty; pawns on ranks 2 and 7; the coordinates of each square |
| Boards.OpeningPieceLayout | engine/board.go:41-111 | `fillSquares` puts a piece exactly on ranks 1, 2, 7 and 8, white exactly on the first two, and a pawn exactly on ranks 2 and 7 |
| Boards.OpeningLookup | engine/board.go:41-111 | each square of the opening is the one built from its own file and rank: it holds that coordinate's piece and is empty exactly on ranks 3 to 6 |
| Boards.BackRank | engine/board.go:41-56 | the back rank reads Rook, Knight, Bishop, Queen, King, Bishop, Knight, Rook in the given colour |
| Boards.OpeningMaterial | engine/board.go:41-111 | the opening has 16 white, 16 black and 32 empty squares |
| Boards.TallyUpdate | engine/board.go:115-122 | replacing one square changes each per-holder count by what left and what came |
| Boards.Board.constructor | engine/board.go:20-27 | the players are stored unchanged and the squares are the opening |
| Boards.Board.FillSquares | engine/board.go:38-113 | the squares become the opening, a valid board |
| Boards.Board.EatPiece | engine/board.go:115-122 | returns the piece on `loc` and leaves `loc` empty, same coordinates, no other square changed; an unknown key stores Go's zero square marked empty |
| Rules.PawnCanMove | engine/pieces.go:46-104 | an allowed pawn move starts on a pawn, never lands on its own colour, goes onto an empty square only along its file and onto a piece only one rank forward on another file |
| Rules.PawnRule | engine/pieces.go:46-104 | a pawn moves onto an empty square only along its file (one step or the opening zone), onto an occupied square only diagonally forward onto the other colour |
| Rules.PawnDirection | engine/pieces.go:54-102 | white pawns only move up; black pawns only down, except the rank-7 to rank-8 step the opening clause admits |
| Rules.BlackPawnStepsBack | engine/pieces.go:80-86 | a black pawn on rank 7 may step back onto an empty rank-8 square |
| Rules.ClearWalk | engine/pieces.go:219-224 | the walk succeeds exactly when every square from its start up to the target is empty |
| Rules.WalkLine | engine/pieces.go:236-241 | the step-by-step loop agrees with that walk |
| Rules.CheckRook | engine/pieces.go:202-246 | the rook method with its loops gives the rook rule's answer |
| Rules.RookCanMove | engine/pieces.go:202-246 | an allowed rook move starts on a piece, changes exactly one of file and rank, and never lands on its own colour |
| Rules.RookRule | engine/pieces.go:202-246 | a rook moves exactly when one of file and rank changes, not onto its own colour, through empty squares only |
| Rules.RookAlongFile | engine/pieces.go:207-225 | along a file, the walk succeeds exactly when every square strictly between is empty |
| Rules.RookAlongRank | engine/pieces.go:226-242 | along a rank, the walk succeeds exactly when every square strictly between is empty |
| Rules.KingStep | engine/pieces.go:144-150 | the king's own step changes both file and rank (diagonal only, as written) and never lands on its own colour |
| Rules.Threats | engine/pieces.go:136-142 | the scan reports an attacker or a missing verdict only if some square from where it starts holds a piece not of the king's colour; the two lemmas below characterise it fully |
| Rules.ThreatsFindAttackers | engine/pieces.go:136-142 | the scan reports an attacker exactly when some square holds an opposing piece whose rule reaches the destination, in any order |
| Rules.ThreatsFindStalls | engine/pieces.go:136-142 | the scan reports a missing verdict exactly when some opposing piece's rule gives none |
| Rules.KingCanMove | engine/pieces.go:128-151 | an allowed king move starts on a king, has depth left and is a king step; a missing verdict comes only from a king, and always once the depth is spent |
| Rules.KingRule | engine/pieces.go:128-151 | a king moves exactly when no opposing piece may reach the square, every such rule answers, and the step is diagonal onto an empty or opposing square; it gives no verdict exactly when depth is spent or a scanned rule gives none |
| Rules.KingAvoidsAttackedSquare | engine/pieces.go:136-142 | a king never moves onto a square an opposing piece may move to |
| Rules.KingBlockedByUnimplementedPiece | engine/pieces.go:136-142 | while an opposing queen, bishop or knight stands on the board, no king move is allowed |
| Rules.KingFacingKingAtScanDepth | engine/pieces.go:136-142 | at the depth `Move` uses, a king facing the other king (with a king of the first colour on the board) moves only if some piece not of the other king's colour may itself move to the destination, which the other king's scan must meet first |
| Rules.CheckKing | engine/pieces.go:128-151 | the king method with its board loop and early return gives the king rule's answer |
| Rules.CanMove | engine/pieces.go:4-14 | an allowed move starts on a piece, and for a pawn or king on a piece of the receiver's kind; queen, bishop and knight give no verdict, and pawn and rook always give one |
| Rules.Check | engine/pieces.go:4-14 | dispatching on the receiver's kind gives that kind's rule |
| Rules.EmptyOriginRefused | engine/pieces.go:47-49 | an empty origin is refused by the pawn, rook and king rules; the other rules give no verdict |
| Rules.UnimplementedKinds | engine/pieces.go:175-178 | queen, bishop and knight give no verdict; pawn and rook always answer |
| Rules.NoStandingStill | engine/pieces.go:46-246 | no rule lets a piece stay on its square |
| Rules.LegalNeverOntoOwnPiece | engine/pieces.go:46-246 | an allowed move starts on a piece and never lands on the mover's colour |
| Games.NextTurn | engine/game.go:107-113 | the turn passes to one of the two players, and with a white and a black player to the one of the other colour |
| Games.NextTurnAlternates | engine/game.go:107-113 | handing over the turn changes it, and doing so twice restores it |
| Games.Relocate | engine/game.go:77-82 | after a move the board is still valid, the origin is empty with no piece, the destination holds the mover, coordinates stay and no other square changes |
| Games.MoveOutcome | engine/game.go:53-85 | any answer but a refusal needs a piece of the side to move on the origin; a move made never lands on the side's own piece; a panic never comes from a pawn or rook |
| Games.MovedExactly | engine/game.go:53-85 | `Move` succeeds exactly when the origin holds a piece of the side to move, its rule allows the move and the destination holds no piece of the side to move; a successful move goes somewhere else |
| Games.RefusesOutOfTurn | engine/game.go:56-63 | an empty origin or a piece of the other side is refused |
| Games.NotImplementedExactly | engine/game.go:64-67 | `Move` panics exactly when the piece's rule gives no verdict, always for a queen, bishop or knight |
| Games.RelocateMaterial | engine/game.go:69-82 | per holder, the count after a move plus the destination's old holder equals the count before plus the emptied origin |
| Games.MoveMaterial | engine/game.go:69-82 | the mover's side keeps its pieces; a capture takes one piece from the other side and adds one empty square |
| Games.KingStuckBesideUnimplementedPiece | engine/game.go:64-67 | no king move succeeds while an opposing queen, bishop or knight stands anywhere |
| Games.PawnAdvanceMoves | engine/game.go:53-85 | a pawn of the side to move stepping forward or within its opening zone onto an empty square of its file succeeds |
| Games.OpeningA2A3Moves | engine/game_test.go:63-66 | from the opening, white's A2-A3 succeeds (so `Game.Move` hands the turn to black) |
| Games.AfterA2A3Squares | engine/game_test.go:68-71 | after A2-A3, A2 is empty with no piece and A3 holds the white pawn |
| Games.EmptyA4Refused | engine/game_test.go:74-77 | then black's A4-A5 from an empty square is refused |
| Games.BlackA7A5Moves | engine/game_test.go:78-81 | then black's A7-A5 double step succeeds |
| Games.WhiteCannotMoveB7 | engine/game_test.go:83-86 | then white may not move black's B7 pawn |
| Games.FoolsMateE2E4Moves | engine/game_test.go:135-138 | from the opening, white's E2-E4 succeeds |
| Games.FoolsMateG7G5Moves | engine/game_test.go:139 | then black's G7-G5 succeeds |
| Games.FoolsMateKnightStalls | engine/game_test.go:140 | then the knight's B1-C3 panics and the turn stays with white |
| Games.FoolsMateBlackOutOfTurn | engine/game_test.go:145 | so black's F7-F5 is refused (the Go test reaches this line only if the knight's panic at line 140 is recovered) |
| Games.FoolsMateQueenStalls | engine/game_test.go:146 | and the queen's D1-H5 panics (likewise reached only after a recovered panic) |
| Games.Game.constructor | engine/game.go:32-38 | a fresh board in the opening position, the given players, white to move |
| Games.Game.ChangeTurn | engine/game.go:107-113 | the turn passes from white to black and otherwise to white |
| Games.Game.Move | engine/game.go:53-85 | the answer is `MoveOutcome`; on success the squares are relocated and the turn passes, otherwise nothing changes |
| Games.NewGame | engine/game.go:28-39 | fails with "Must define black and white players" exactly when the colours are wrong; otherwise a new game with white to move |

## Left out

- The accessors `Squares`, `WhitePlayer`, `BlackPlayer`, `Turn` and `Board`
  are read in the model as the fields they return.
- `IsCheckBy`, `IsCheckmateBy` and `game.String` are stubs that return fixed
  values; they carry no logic.
- The queen, bishop and knight rules are "TODO" panics; they are modelled
  only as `Unimplemented`.
- Rules.KingCanMove: the king's scan is cut off at a depth bound. With
  `KingScanDepth = 2`, the cut falls where the source repeats the outer
  call with the same squares. Go picks a new map order for that call, so
  it ends only when some scan in the chain meets a pawn or rook that may
  reach `to`, or a "TODO" panic; otherwise it recurses without end. In each
  case the model's two-level scan meets the same piece, so answering
  `Unimplemented` at the cut leaves `Move`'s answer unchanged.
- The order of the king's scan over the Go map is not modelled. The model's
  answer is the one an order meeting an attacker first would give.
- `Move` is modelled only for identifiers 1..64, since the server parses
  both squares before calling it. An unknown identifier reads Go's zero
  `Square` and can dereference a nil piece.
- Constants.StringToSquareIdentifier: its Go definition is not part of this
  model. The model accepts exactly the 64 upper-case names, which agrees
  with the test and with the server's upper-casing of the input.
- `CoordinateToSquareIdentifier` is not part of this model either; the law
  `SquareAt` stands for it.
- The movement-history argument of `CanMove`, `LoadGame`, `Movements` and
  the other parts of the API that the tests use but that engine/game.go
  and engine/board.go do not define.
- The mocked capture in engine/game_test.go:88-126 uses gomock pieces whose
  rule answers true; the model covers captures by `MoveMaterial` and `Move`
  instead of by that scenario.
- The gRPC/HTTP server, database, message broker, CLI and configuration
  are I/O around the engine.
