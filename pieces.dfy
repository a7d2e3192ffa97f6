/** Piece values of engine/pieces.go: the six kinds, their constructors,
    `Identifier`, `Color` and the two-character `String` code. The movement
    rules (`CanMove`) are in module Rules. */
module Pieces {
  import opened Constants

  /** The six Go structs that implement `Piece`. */
  datatype Kind = Pawn | Bishop | Knight | Rook | Queen | King

  /** A piece: its kind and the embedded `piece{pieceIdentifier, color}`.
      `Color()` is the field `color`. */
  datatype Piece = Piece(kind: Kind, color: Color)

  /** `Identifier()`: the kind's `PieceIdentifier`, never the reserved 0. */
  function Identifier(p: Piece): (id: PieceIdentifier)
    ensures PawnIdentifier <= id <= KingIdentifier
  {
    match p.kind
    case Pawn => PawnIdentifier
    case Bishop => BishopIdentifier
    case Knight => KnightIdentifier
    case Rook => RookIdentifier
    case Queen => QueenIdentifier
    case King => KingIdentifier
  }

  /** Distinct kinds have distinct identifiers. */
  lemma IdentifierInjective(p: Piece, q: Piece)
    requires Identifier(p) == Identifier(q)
    ensures p.kind == q.kind
  {
  }

  function NewPawn(color: Color): (p: Piece)
    ensures Identifier(p) == PawnIdentifier && p.color == color
  {
    Piece(Pawn, color)
  }

  function NewKing(color: Color): (p: Piece)
    ensures Identifier(p) == KingIdentifier && p.color == color
  {
    Piece(King, color)
  }

  function NewQueen(color: Color): (p: Piece)
    ensures Identifier(p) == QueenIdentifier && p.color == color
  {
    Piece(Queen, color)
  }

  function NewRook(color: Color): (p: Piece)
    ensures Identifier(p) == RookIdentifier && p.color == color
  {
    Piece(Rook, color)
  }

  function NewBishop(color: Color): (p: Piece)
    ensures Identifier(p) == BishopIdentifier && p.color == color
  {
    Piece(Bishop, color)
  }

  function NewKnight(color: Color): (p: Piece)
    ensures Identifier(p) == KnightIdentifier && p.color == color
  {
    Piece(Knight, color)
  }

  /** The kind letter of `String()`; the knight's lower-case `k` keeps it
      apart from the king. */
  function KindLetter(k: Kind): char {
    match k
    case Pawn => 'P'
    case Bishop => 'B'
    case Knight => 'k'
    case Rook => 'R'
    case Queen => 'Q'
    case King => 'K'
  }

  /** `String()`: "W" for a white piece and "B" for any other colour,
      followed by the kind letter: P, B, k, R, Q or K. */
  function String(p: Piece): (s: string)
    ensures |s| == 2
    ensures s[0] == 'W' <==> p.color == WhiteColor
    ensures s[0] == 'B' <==> p.color != WhiteColor
    ensures s[1] == 'P' <==> p.kind == Pawn
    ensures s[1] == 'B' <==> p.kind == Bishop
    ensures s[1] == 'k' <==> p.kind == Knight
    ensures s[1] == 'R' <==> p.kind == Rook
    ensures s[1] == 'Q' <==> p.kind == Queen
    ensures s[1] == 'K' <==> p.kind == King
  {
    [if p.color == WhiteColor then 'W' else 'B', KindLetter(p.kind)]
  }

  /** On pieces of the two real colours the code determines the piece. */
  lemma StringInjective(p: Piece, q: Piece)
    requires p.color in {WhiteColor, BlackColor} && q.color in {WhiteColor, BlackColor}
    requires String(p) == String(q)
    ensures p == q
  {
    assert String(p)[1] == String(q)[1];
  }
}
