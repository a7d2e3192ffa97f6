/** engine/game.go: a game between a white and a black player over one board,
    whose `Move` checks the turn and the piece's rule, takes a captured piece
    and hands the turn over. */
module Games {
  import opened Optional
  import opened Constants
  import opened Pieces
  import opened Boards
  import opened Rules

  /** How deep the king's scan may nest before it is cut off. The source has
      no bound: at depth two a king's scan has asked the other king, whose
      scan repeats the first king's call with the same squares. Under a new
      map order that call ends only when some scan in the chain meets a pawn
      or rook that may reach the square, or a "TODO" panic, and the two-level
      scan meets the same piece; otherwise it recurses without end. */
  const KingScanDepth: nat := 2

  /** What `Move` answers: `(true, nil)`, `(false, nil)`, or a panic (a
      "TODO" rule, or a king scan that does not end). */
  datatype MoveResult = Moved | Refused | NotImplemented

  /** `changeTurn`: white hands over to black; anyone else to white. */
  function NextTurn(turn: Player, white: Player, black: Player): (p: Player)
    ensures p == white || p == black
    ensures white.color == WhiteColor && black.color == BlackColor ==> p.color != turn.color
  {
    if turn.color == WhiteColor then black else white
  }

  /** Two hand-overs give the turn back. */
  lemma NextTurnAlternates(turn: Player, white: Player, black: Player)
    requires white.color == WhiteColor && black.color == BlackColor
    requires turn == white || turn == black
    ensures NextTurn(turn, white, black) != turn
    ensures NextTurn(NextTurn(turn, white, black), white, black) == turn
  {
  }

  /** The answer `Move` gives for a move from `from` to `to` on squares `m`
      when it is `turn`'s move: the origin must hold a piece of the side to
      move, that piece's rule must allow the move, and the destination must
      not hold a piece of the side to move. */
  function MoveOutcome(m: Squares, turn: Color, from: SquareIdentifier, to: SquareIdentifier): (r: MoveResult)
    requires ValidSquares(m) && IsSquareId(from) && IsSquareId(to)
    ensures r != Refused ==> !m[from].empty && ColorOn(m[from]) == turn
    ensures r == Moved ==> m[to].empty || ColorOn(m[to]) != turn
    ensures r == NotImplemented ==> m[from].piece.value.kind !in {Pawn, Rook}
  {
    var f, t := m[from], m[to];
    if f.empty || ColorOn(f) != turn then Refused
    else
      match CanMove(f.piece.value, m, f, t, KingScanDepth)
      case Unimplemented => NotImplemented
      case Illegal => Refused
      case Legal => if !t.empty && ColorOn(t) == turn then Refused else Moved
  }

  /** The squares after a move: the destination keeps its coordinates and
      identifier and takes the moving piece (whatever stood there is gone);
      then the origin is emptied. */
  function Relocate(m: Squares, from: SquareIdentifier, to: SquareIdentifier): (r: Squares)
    requires ValidSquares(m) && IsSquareId(from) && IsSquareId(to) && !m[from].empty
    ensures ValidSquares(r)
    ensures r[from].empty && r[from].piece == None
    ensures from != to ==> !r[to].empty && r[to].piece == m[from].piece
    ensures forall id :: id in m ==> r[id].coordinates == m[id].coordinates
    ensures forall id :: id != from && id != to ==> (id in r <==> id in m) && (id in m ==> r[id] == m[id])
  {
    var moved := m[to].(piece := m[from].piece, empty := false);
    var left := m[from].(piece := None, empty := true);
    m[to := moved][from := left]
  }

  /** A move answered `Moved` starts on a piece of the side to move, is
      allowed by that piece's rule, goes somewhere else, and lands on an empty
      square or a piece of the other side; and each such move is answered
      `Moved`. */
  lemma MovedExactly(m: Squares, turn: Color, from: SquareIdentifier, to: SquareIdentifier)
    requires ValidSquares(m) && IsSquareId(from) && IsSquareId(to)
    ensures MoveOutcome(m, turn, from, to) == Moved <==>
      && !m[from].empty && ColorOn(m[from]) == turn
      && CanMove(m[from].piece.value, m, m[from], m[to], KingScanDepth) == Legal
      && (m[to].empty || ColorOn(m[to]) != turn)
    ensures MoveOutcome(m, turn, from, to) == Moved ==> from != to
  {
    if from == to && !m[from].empty {
      NoStandingStill(m[from].piece.value, m, m[from], KingScanDepth);
    }
  }

  /** `Move` refuses an empty origin and a piece of the side not to move,
      whatever its rule says. */
  lemma RefusesOutOfTurn(m: Squares, turn: Color, from: SquareIdentifier, to: SquareIdentifier)
    requires ValidSquares(m) && IsSquareId(from) && IsSquareId(to)
    requires m[from].empty || ColorOn(m[from]) != turn
    ensures MoveOutcome(m, turn, from, to) == Refused
  {
  }

  /** `Move` answers `NotImplemented` exactly when the piece's rule gives no
      verdict: always for a queen, bishop or knight of the side to move. */
  lemma NotImplementedExactly(m: Squares, turn: Color, from: SquareIdentifier, to: SquareIdentifier)
    requires ValidSquares(m) && IsSquareId(from) && IsSquareId(to)
    ensures MoveOutcome(m, turn, from, to) == NotImplemented <==>
      && !m[from].empty && ColorOn(m[from]) == turn
      && CanMove(m[from].piece.value, m, m[from], m[to], KingScanDepth) == Unimplemented
    ensures !m[from].empty && ColorOn(m[from]) == turn && m[from].piece.value.kind in {Queen, Bishop, Knight} ==>
      MoveOutcome(m, turn, from, to) == NotImplemented
  {
  }

  /** What a move does to the material: the side that moved keeps all its
      pieces, a captured piece leaves the board, and the origin becomes an
      empty square. For every holder `h`, the count after the move plus one
      if `h` held the destination equals the count before plus one if `h`
      is "empty". */
  lemma {:induction false} RelocateMaterial(m: Squares, from: SquareIdentifier, to: SquareIdentifier, h: Option<Color>)
    requires ValidSquares(m) && IsSquareId(from) && IsSquareId(to) && !m[from].empty
    requires from != to
    ensures Tally(Relocate(m, from, to), h, 64) + (if Holder(m[to]) == h then 1 else 0)
         == Tally(m, h, 64) + (if h == None then 1 else 0)
  {
    var moved := m[to].(piece := m[from].piece, empty := false);
    var left := m[from].(piece := None, empty := true);
    var m1 := m[to := moved];
    TallyUpdate(m, to, moved, h, 64);
    assert m1[from] == m[from];
    TallyUpdate(m1, from, left, h, 64);
    assert Holder(moved) == Holder(m[from]);
  }

  /** The consequences for each side of a `Moved` answer. */
  lemma MoveMaterial(m: Squares, turn: Color, from: SquareIdentifier, to: SquareIdentifier)
    requires ValidSquares(m) && IsSquareId(from) && IsSquareId(to)
    requires MoveOutcome(m, turn, from, to) == Moved
    ensures Tally(Relocate(m, from, to), Some(turn), 64) == Tally(m, Some(turn), 64)
    ensures m[to].empty ==> Tally(Relocate(m, from, to), None, 64) == Tally(m, None, 64)
    ensures !m[to].empty ==>
      && Tally(Relocate(m, from, to), Some(ColorOn(m[to])), 64) == Tally(m, Some(ColorOn(m[to])), 64) - 1
      && Tally(Relocate(m, from, to), None, 64) == Tally(m, None, 64) + 1
  {
    MovedExactly(m, turn, from, to);
    RelocateMaterial(m, from, to, Some(turn));
    RelocateMaterial(m, from, to, None);
    if !m[to].empty {
      RelocateMaterial(m, from, to, Some(ColorOn(m[to])));
    }
  }

  /** While a queen, bishop or knight of the other side stands anywhere, no
      king move is made: the king's scan reaches that piece's "TODO". */
  lemma KingStuckBesideUnimplementedPiece(m: Squares, turn: Color, from: SquareIdentifier, to: SquareIdentifier, j: SquareIdentifier)
    requires ValidSquares(m) && IsSquareId(from) && IsSquareId(to) && IsSquareId(j)
    requires !m[from].empty && m[from].piece.value == Piece(King, turn)
    requires !m[j].empty && ColorOn(m[j]) != turn && m[j].piece.value.kind in {Queen, Bishop, Knight}
    ensures MoveOutcome(m, turn, from, to) != Moved
  {
    KingBlockedByUnimplementedPiece(m[from].piece.value, m, m[from], m[to], KingScanDepth, j);
  }

  /** A pawn of the side to move stepping onto an empty square of its file,
      one rank forward or within its opening zone, is `Moved`. */
  lemma PawnAdvanceMoves(m: Squares, turn: Color, from: SquareIdentifier, to: SquareIdentifier)
    requires ValidSquares(m) && IsSquareId(from) && IsSquareId(to)
    requires turn == WhiteColor || turn == BlackColor
    requires !m[from].empty && m[from].piece.value == Piece(Pawn, turn)
    requires m[to].empty && X(m[to]) == X(m[from])
    requires Y(m[to]) == Y(m[from]) + Forward(turn) || DoubleStepZone(m[from], m[to])
    ensures MoveOutcome(m, turn, from, to) == Moved
  {
    PawnRule(m[from], m[to]);
  }

  /** The source's move test, first move: white's A2-A3 moves. */
  lemma OpeningA2A3Moves()
    ensures MoveOutcome(InitialSquares(), WhiteColor, A2, A3) == Moved
  {
    assert File(A2) == 0 && Rank(A2) == 1 && File(A3) == 0 && Rank(A3) == 2;
    var m := InitialSquares();
    assert m[A2] == OpeningSquare(A2);
    assert m[A3] == OpeningSquare(A3);
    PawnAdvanceMoves(m, WhiteColor, A2, A3);
  }

  /** The position after white's A2-A3 from the opening. */
  function AfterA2A3(): (m: Squares)
    ensures ValidSquares(m)
  {
    OpeningA2A3Moves();
    Relocate(InitialSquares(), A2, A3)
  }

  /** The test's checks after A2-A3: A2 is empty with no piece, and A3 holds
      the white pawn. */
  lemma AfterA2A3Squares()
    ensures AfterA2A3()[A2].empty && AfterA2A3()[A2].piece == None
    ensures !AfterA2A3()[A3].empty && AfterA2A3()[A3].piece == Some(Piece(Pawn, WhiteColor))
  {
    assert File(A2) == 0 && Rank(A2) == 1;
    OpeningLookup(A2);
    assert InitialSquares()[A2].piece == Some(Piece(Pawn, WhiteColor));
  }

  /** Then black's A4-A5 starts on an empty square and is refused. */
  lemma EmptyA4Refused()
    ensures MoveOutcome(AfterA2A3(), BlackColor, A4, A5) == Refused
  {
    var m := AfterA2A3();
    assert File(A4) == 0 && Rank(A4) == 3;
    OpeningLookup(A4);
    assert m[A4] == InitialSquares()[A4];
    RefusesOutOfTurn(m, BlackColor, A4, A5);
  }

  /** Black's opening double step A7-A5 moves. */
  lemma BlackA7A5Moves()
    ensures MoveOutcome(AfterA2A3(), BlackColor, A7, A5) == Moved
  {
    assert File(A7) == 0 && Rank(A7) == 6 && File(A5) == 0 && Rank(A5) == 4;
    var m := AfterA2A3();
    OpeningLookup(A7);
    assert m[A7] == InitialSquares()[A7] == OpeningSquare(A7);
    OpeningLookup(A5);
    assert m[A5] == InitialSquares()[A5] == OpeningSquare(A5);
    PawnAdvanceMoves(m, BlackColor, A7, A5);
  }

  /** The position after black's A7-A5 from there. */
  function AfterA7A5(): (m: Squares)
    ensures ValidSquares(m)
  {
    BlackA7A5Moves();
    Relocate(AfterA2A3(), A7, A5)
  }

  /** White may not move black's B7 pawn. */
  lemma WhiteCannotMoveB7()
    ensures MoveOutcome(AfterA7A5(), WhiteColor, B7, B5) == Refused
  {
    var m := AfterA7A5();
    assert File(B7) == 1 && Rank(B7) == 6;
    OpeningLookup(B7);
    assert m[B7] == AfterA2A3()[B7] == InitialSquares()[B7] == OpeningSquare(B7);
    assert ColorOn(m[B7]) == BlackColor;
    RefusesOutOfTurn(m, WhiteColor, B7, B5);
  }

  /** E2-E4, the opening of Fool's mate, moves. */
  lemma FoolsMateE2E4Moves()
    ensures MoveOutcome(InitialSquares(), WhiteColor, E2, E4) == Moved
  {
    assert File(E2) == 4 && Rank(E2) == 1 && File(E4) == 4 && Rank(E4) == 3;
    var m := InitialSquares();
    assert m[E2] == OpeningSquare(E2);
    assert m[E4] == OpeningSquare(E4);
    PawnAdvanceMoves(m, WhiteColor, E2, E4);
  }

  /** The position after white's E2-E4. */
  function AfterE2E4(): (m: Squares)
    ensures ValidSquares(m)
  {
    FoolsMateE2E4Moves();
    Relocate(InitialSquares(), E2, E4)
  }

  /** Then G7-G5 moves. */
  lemma FoolsMateG7G5Moves()
    ensures MoveOutcome(AfterE2E4(), BlackColor, G7, G5) == Moved
  {
    assert File(G7) == 6 && Rank(G7) == 6 && File(G5) == 6 && Rank(G5) == 4;
    var m0, m := InitialSquares(), AfterE2E4();
    assert m[G7] == m0[G7] == OpeningSquare(G7);
    assert m[G5] == m0[G5] == OpeningSquare(G5);
    PawnAdvanceMoves(m, BlackColor, G7, G5);
  }

  /** The position after black's G7-G5 from there. */
  function AfterE4G5(): (m: Squares)
    ensures ValidSquares(m)
  {
    FoolsMateG7G5Moves();
    Relocate(AfterE2E4(), G7, G5)
  }

  /** Then white's knight B1-C3 reaches the knight's "TODO". */
  lemma FoolsMateKnightStalls()
    ensures MoveOutcome(AfterE4G5(), WhiteColor, B1, C3) == NotImplemented
  {
    assert File(B1) == 1 && Rank(B1) == 0;
    OpeningLookup(B1);
    assert AfterE4G5()[B1] == AfterE2E4()[B1] == InitialSquares()[B1] == OpeningSquare(B1);
  }

  /** The turn has stayed with white, so black's F7-F5 is refused. */
  lemma FoolsMateBlackOutOfTurn()
    ensures MoveOutcome(AfterE4G5(), WhiteColor, F7, F5) == Refused
  {
    var m := AfterE4G5();
    assert File(F7) == 5 && Rank(F7) == 6;
    OpeningLookup(F7);
    assert m[F7] == AfterE2E4()[F7] == InitialSquares()[F7] == OpeningSquare(F7);
    assert ColorOn(m[F7]) == BlackColor;
    RefusesOutOfTurn(m, WhiteColor, F7, F5);
  }

  /** And white's queen D1-H5 reaches the queen's "TODO". */
  lemma FoolsMateQueenStalls()
    ensures MoveOutcome(AfterE4G5(), WhiteColor, D1, H5) == NotImplemented
  {
    assert File(D1) == 3 && Rank(D1) == 0;
    OpeningLookup(D1);
    assert AfterE4G5()[D1] == AfterE2E4()[D1] == InitialSquares()[D1] == OpeningSquare(D1);
  }

  /** `game`: its name, board and players are fixed; only the turn changes. */
  class Game {
    const name: string
    const board: Board
    const white: Player
    const black: Player
    var turn: Player

    ghost predicate Valid()
      reads this, board
    {
      && board.Valid()
      && white.color == WhiteColor && black.color == BlackColor
      && board.whitePlayer == white && board.blackPlayer == black
      && (turn == white || turn == black)
    }

    /** The body of `NewGame` once the players are known to be right: a
        fresh board in the opening position, white to move. */
    constructor (name: string, black: Player, white: Player)
      requires white.color == WhiteColor && black.color == BlackColor
      ensures Valid() && fresh(board)
      ensures this.name == name && this.white == white && this.black == black
      ensures turn == white && board.squares == InitialSquares()
    {
      this.name := name;
      this.white := white;
      this.black := black;
      this.turn := white;
      this.board := new Board(white, black);
    }

    /** `changeTurn`. */
    method ChangeTurn()
      requires Valid()
      modifies this`turn
      ensures Valid()
      ensures turn == NextTurn(old(turn), white, black) && turn != old(turn)
    {
      NextTurnAlternates(turn, white, black);
      if turn.color == WhiteColor {
        turn := black;
      } else {
        turn := white;
      }
    }

    /** `Move`. The `player` argument is not consulted: the side to move is
        the game's turn. On `Moved` the squares are relocated and the turn
        passes; otherwise nothing changes. */
    method Move(player: Player, from: SquareIdentifier, to: SquareIdentifier) returns (result: MoveResult)
      requires Valid() && IsSquareId(from) && IsSquareId(to)
      modifies this`turn, board`squares
      ensures Valid()
      ensures result == MoveOutcome(old(board.squares), old(turn).color, from, to)
      ensures result == Moved ==>
        board.squares == Relocate(old(board.squares), from, to) && turn == NextTurn(old(turn), white, black)
      ensures result != Moved ==> board.squares == old(board.squares) && turn == old(turn)
    {
      var squareFrom := board.squares[from];
      var squareTo := board.squares[to];
      if squareFrom.empty {
        return Refused;
      }
      var pieceToMove := squareFrom.piece.value;
      if pieceToMove.color != turn.color {
        return Refused;
      }
      var canMove := Check(pieceToMove, board.squares, squareFrom, squareTo, KingScanDepth);
      if canMove == Unimplemented {
        return NotImplemented;
      }
      if canMove == Illegal {
        return Refused;
      }
      if !squareTo.empty {
        if squareTo.piece.value.color == turn.color {
          return Refused;
        }
        var eaten := board.EatPiece(to);
      }
      ghost var before := old(board.squares);
      squareTo := squareTo.(piece := Some(pieceToMove), empty := false);
      squareFrom := squareFrom.(piece := None, empty := true);
      board.squares := board.squares[to := squareTo];
      board.squares := board.squares[from := squareFrom];
      assert board.squares == Relocate(before, from, to);
      ChangeTurn();
      return Moved;
    }
  }

  /** `NewGame`: refuses unless `white` plays white and `black` plays black. */
  method NewGame(name: string, black: Player, white: Player) returns (r: Result<Game, string>)
    ensures r.Failure? <==> white.color != WhiteColor || black.color != BlackColor
    ensures r.Failure? ==> r.error == "Must define black and white players"
    ensures r.Success? ==>
      && fresh(r.value) && fresh(r.value.board) && r.value.Valid()
      && r.value.name == name && r.value.white == white && r.value.black == black
      && r.value.turn == white && r.value.board.squares == InitialSquares()
  {
    if white.color != WhiteColor || black.color != BlackColor {
      return Failure("Must define black and white players");
    }
    var g := new Game(name, black, white);
    return Success(g);
  }
}
