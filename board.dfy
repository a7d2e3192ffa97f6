/** The board of engine/board.go: 64 squares keyed by identifier, the
    standard opening, and `EatPiece`. */
module Boards {
  import opened Optional
  import opened Constants
  import opened Pieces

  /** A player (declared in engine/game.go); the board keeps one per side. */
  datatype Player = Player(name: string, color: Color)

  /** A coordinate: file `x`, rank `y` and the identifier they denote. */
  datatype Coordinate = Coordinate(x: uint8, y: uint8, squareIdentifier: SquareIdentifier)

  /** A square. The source keeps `Empty` beside a nilable `Piece`. */
  datatype Square = Square(empty: bool, piece: Option<Piece>, coordinates: Coordinate, squareIdentifier: SquareIdentifier)

  /** `Squares`: the board's map from identifier to square. */
  type Squares = map<SquareIdentifier, Square>

  /** What Go's zero `Square{}` is: not empty, no piece, coordinates 0,0. */
  const ZeroSquare: Square := Square(false, None, Coordinate(0, 0, 0), 0)

  /** A square as the board builds it: coordinates on the board, both
      identifier fields following the law, and `Empty` exactly when there
      is no piece. */
  predicate WellFormed(sq: Square) {
    && sq.coordinates.x <= 7 && sq.coordinates.y <= 7
    && sq.squareIdentifier == SquareAt(sq.coordinates.x as int, sq.coordinates.y as int)
    && sq.coordinates.squareIdentifier == sq.squareIdentifier
    && (sq.empty <==> sq.piece.None?)
  }

  /** One well-formed square for each of the 64 identifiers, keyed by it. */
  predicate ValidSquares(m: Squares) {
    && (forall id :: id in m <==> IsSquareId(id))
    && (forall id :: id in m ==> WellFormed(m[id]) && m[id].squareIdentifier == id)
  }

  /** The back rank, files A..H. */
  function BackRankPiece(x: int, color: Color): Piece
    requires 0 <= x <= 7
  {
    [NewRook(color), NewKnight(color), NewBishop(color), NewQueen(color),
     NewKing(color), NewBishop(color), NewKnight(color), NewRook(color)][x]
  }

  /** The piece `fillSquares` puts on file `x`, rank `y`. */
  function OpeningPiece(x: int, y: int): Option<Piece>
    requires 0 <= x <= 7 && 0 <= y <= 7
  {
    if y == 0 then Some(BackRankPiece(x, WhiteColor))
    else if y == 1 then Some(NewPawn(WhiteColor))
    else if y == 6 then Some(NewPawn(BlackColor))
    else if y == 7 then Some(BackRankPiece(x, BlackColor))
    else None
  }

  function OpeningSquare(id: SquareIdentifier): (sq: Square)
    requires IsSquareId(id)
  {
    var x, y := File(id), Rank(id);
    var p := OpeningPiece(x, y);
    Square(p.None?, p, Coordinate(x as uint8, y as uint8, id), id)
  }

  /** The squares `fillSquares` assigns: the standard opening. */
  function InitialSquares(): (m: Squares)
    ensures ValidSquares(m)
  {
    map id: SquareIdentifier | IsSquareId(id) :: OpeningSquare(id)
  }

  /** Looking up a square of the opening gives the square `fillSquares`
      builds for it. */
  lemma OpeningLookup(id: SquareIdentifier)
    requires IsSquareId(id)
    ensures id in InitialSquares() && InitialSquares()[id] == OpeningSquare(id)
    ensures InitialSquares()[id].piece == OpeningPiece(File(id), Rank(id))
    ensures InitialSquares()[id].empty <==> 2 <= Rank(id) <= 5
  {
    OpeningPieceLayout(File(id), Rank(id));
  }

  /** The opening, square by square: ranks 1 and 2 white, ranks 7 and 8
      black, ranks 3 to 6 empty; pawns on ranks 2 and 7; the back ranks
      read Rook, Knight, Bishop, Queen, King, Bishop, Knight, Rook. */
  lemma InitialPlacement(x: int, y: int)
    requires 0 <= x <= 7 && 0 <= y <= 7
    ensures var sq := InitialSquares()[SquareAt(x, y)];
      && sq.coordinates == Coordinate(x as uint8, y as uint8, SquareAt(x, y))
      && (y <= 1 ==> !sq.empty && sq.piece.value.color == WhiteColor)
      && (y >= 6 ==> !sq.empty && sq.piece.value.color == BlackColor)
      && (2 <= y <= 5 ==> sq.empty && sq.piece == None)
      && ((y == 1 || y == 6) ==> sq.piece.value.kind == Pawn)
      && ((y == 0 || y == 7) ==>
            sq.piece.value.kind == [Rook, Knight, Bishop, Queen, King, Bishop, Knight, Rook][x])
  {
    var id := SquareAt(x, y);
    FileRankOfSquareAt(x, y);
    assert InitialSquares()[id] == OpeningSquare(id);
    BackRank(x, WhiteColor);
    BackRank(x, BlackColor);
  }

  lemma BackRank(x: int, color: Color)
    requires 0 <= x <= 7
    ensures BackRankPiece(x, color).color == color
    ensures BackRankPiece(x, color).kind == [Rook, Knight, Bishop, Queen, King, Bishop, Knight, Rook][x]
  {
  }

  /** `fillSquares` by coordinates: a piece exactly on ranks 1, 2, 7 and 8,
      white on the first two and black on the last two, pawns exactly on
      ranks 2 and 7. */
  lemma OpeningPieceLayout(x: int, y: int)
    requires 0 <= x <= 7 && 0 <= y <= 7
    ensures OpeningPiece(x, y).Some? <==> y <= 1 || 6 <= y
    ensures OpeningPiece(x, y).Some? ==> OpeningPiece(x, y).value.color in {WhiteColor, BlackColor}
    ensures OpeningPiece(x, y).Some? ==> (OpeningPiece(x, y).value.color == WhiteColor <==> y <= 1)
    ensures OpeningPiece(x, y).Some? ==> (OpeningPiece(x, y).value.kind == Pawn <==> y == 1 || y == 6)
  {
    BackRank(x, WhiteColor);
    BackRank(x, BlackColor);
  }

  /** Who holds a square: the colour of its piece, or None when empty. */
  function Holder(sq: Square): Option<Color> {
    if sq.empty || sq.piece.None? then None else Some(sq.piece.value.color)
  }

  /** The number of squares among identifiers 1..n whose holder is `h`. */
  function Tally(m: Squares, h: Option<Color>, n: nat): nat
    requires ValidSquares(m) && n <= 64
  {
    if n == 0 then 0
    else Tally(m, h, n - 1) + (if Holder(m[n as SquareIdentifier]) == h then 1 else 0)
  }

  /** Replacing one square changes each tally by what left and what came. */
  lemma {:induction false} TallyUpdate(m: Squares, j: SquareIdentifier, sq: Square, h: Option<Color>, n: nat)
    requires ValidSquares(m) && IsSquareId(j) && n <= 64
    requires WellFormed(sq) && sq.squareIdentifier == j
    ensures ValidSquares(m[j := sq])
    ensures Tally(m[j := sq], h, n) + (if j as int <= n && Holder(m[j]) == h then 1 else 0)
         == Tally(m, h, n) + (if j as int <= n && Holder(sq) == h then 1 else 0)
  {
    if n > 0 {
      TallyUpdate(m, j, sq, h, n - 1);
    }
  }

  /** The per-side counts of one file of the opening. */
  function FileShare(h: Option<Color>): nat {
    if h == Some(WhiteColor) || h == Some(BlackColor) then 2
    else if h == None then 4
    else 0
  }

  lemma {:induction false} OpeningFile(f: int, h: Option<Color>)
    requires 0 <= f <= 7
    ensures Tally(InitialSquares(), h, 8 * f + 8) == Tally(InitialSquares(), h, 8 * f) + FileShare(h)
  {
    OpeningStep(f, 0, h); OpeningStep(f, 1, h); OpeningStep(f, 2, h); OpeningStep(f, 3, h);
    OpeningStep(f, 4, h); OpeningStep(f, 5, h); OpeningStep(f, 6, h); OpeningStep(f, 7, h);
  }

  lemma OpeningStep(f: int, r: int, h: Option<Color>)
    requires 0 <= f <= 7 && 0 <= r <= 7
    ensures Tally(InitialSquares(), h, 8 * f + r + 1)
         == Tally(InitialSquares(), h, 8 * f + r) + (if OpeningHolder(r) == h then 1 else 0)
  {
    InitialPlacement(f, r);
    assert (8 * f + r + 1) as SquareIdentifier == SquareAt(f, r);
  }

  /** The holder of rank `r` in the opening, whatever the file. */
  function OpeningHolder(r: int): Option<Color> {
    if r <= 1 then Some(WhiteColor) else if r >= 6 then Some(BlackColor) else None
  }

  /** The opening has 16 white pieces, 16 black pieces and 32 empty squares. */
  lemma {:induction false} OpeningMaterial()
    ensures Tally(InitialSquares(), Some(WhiteColor), 64) == 16
    ensures Tally(InitialSquares(), Some(BlackColor), 64) == 16
    ensures Tally(InitialSquares(), None, 64) == 32
  {
    OpeningTally(Some(WhiteColor));
    OpeningTally(Some(BlackColor));
    OpeningTally(None);
  }

  lemma {:induction false} OpeningTally(h: Option<Color>)
    ensures Tally(InitialSquares(), h, 64) == 8 * FileShare(h)
  {
    var m, s := InitialSquares(), FileShare(h);
    assert Tally(m, h, 0) == 0;
    OpeningFile(0, h);
    assert Tally(m, h, 8) == s;
    OpeningFile(1, h);
    assert Tally(m, h, 16) == 2 * s;
    OpeningFile(2, h);
    assert Tally(m, h, 24) == 3 * s;
    OpeningFile(3, h);
    assert Tally(m, h, 32) == 4 * s;
    OpeningFile(4, h);
    assert Tally(m, h, 40) == 5 * s;
    OpeningFile(5, h);
    assert Tally(m, h, 48) == 6 * s;
    OpeningFile(6, h);
    assert Tally(m, h, 56) == 7 * s;
    OpeningFile(7, h);
  }

  /** The board: the two players and the square map. */
  class Board {
    var whitePlayer: Player
    var blackPlayer: Player
    var squares: Squares

    ghost predicate Valid()
      reads this
    {
      ValidSquares(squares)
    }

    /** `NewBoard`: stores the players unchanged and fills the squares. */
    constructor (white: Player, black: Player)
      ensures Valid()
      ensures whitePlayer == white && blackPlayer == black
      ensures squares == InitialSquares()
    {
      blackPlayer := black;
      whitePlayer := white;
      squares := map[];
      new;
      FillSquares();
    }

    /** `fillSquares`: replaces every square with the standard opening. */
    method FillSquares()
      modifies this`squares
      ensures Valid()
      ensures squares == InitialSquares()
    {
      squares := InitialSquares();
    }

    /** `EatPiece`: empties square `loc` and returns what was on it; its
        coordinates and identifier stay and no other square changes. An
        identifier the map lacks reads as Go's zero square, which is then
        stored under that key. */
    method EatPiece(loc: SquareIdentifier) returns (piece: Option<Piece>)
      requires Valid()
      modifies this`squares
      ensures IsSquareId(loc) ==> Valid()
      ensures IsSquareId(loc) ==> piece == old(squares)[loc].piece
      ensures IsSquareId(loc) ==>
        squares == old(squares)[loc := old(squares)[loc].(empty := true, piece := None)]
      ensures !IsSquareId(loc) ==> piece == None
      ensures !IsSquareId(loc) ==> squares == old(squares)[loc := ZeroSquare.(empty := true)]
    {
      var square := if loc in squares then squares[loc] else ZeroSquare;
      piece := square.piece;
      square := square.(piece := None);
      square := square.(empty := true);
      squares := squares[loc := square];
    }
  }
}
