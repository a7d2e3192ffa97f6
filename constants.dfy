/** The enumerations of engine/constants.go and the square-identifier law
    that engine/board.go's coordinate table fixes for them. */
module Constants {

  /** Go's `uint8`, the width of every enumeration and coordinate. */
  newtype uint8 = x: int | 0 <= x < 256

  /** `Color uint8`; 0 is reserved and names no colour. */
  newtype Color = c: int | 0 <= c < 256

  const BlackColor: Color := 1
  const WhiteColor: Color := 2

  /** `PieceIdentifier uint8`; 0 is reserved. */
  newtype PieceIdentifier = p: int | 0 <= p < 256

  const PawnIdentifier: PieceIdentifier := 1
  const BishopIdentifier: PieceIdentifier := 2
  const KnightIdentifier: PieceIdentifier := 3
  const RookIdentifier: PieceIdentifier := 4
  const QueenIdentifier: PieceIdentifier := 5
  const KingIdentifier: PieceIdentifier := 6

  /** `SquareIdentifier uint8`; 0 is the invalid sentinel, A1..H8 are 1..64,
      file-major and rank-minor. */
  newtype SquareIdentifier = s: int | 0 <= s < 256

  const A1: SquareIdentifier := 1
  const A2: SquareIdentifier := 2
  const A3: SquareIdentifier := 3
  const A4: SquareIdentifier := 4
  const A5: SquareIdentifier := 5
  const A6: SquareIdentifier := 6
  const A7: SquareIdentifier := 7
  const A8: SquareIdentifier := 8
  const B1: SquareIdentifier := 9
  const B2: SquareIdentifier := 10
  const B3: SquareIdentifier := 11
  const B4: SquareIdentifier := 12
  const B5: SquareIdentifier := 13
  const B6: SquareIdentifier := 14
  const B7: SquareIdentifier := 15
  const B8: SquareIdentifier := 16
  const C1: SquareIdentifier := 17
  const C2: SquareIdentifier := 18
  const C3: SquareIdentifier := 19
  const C4: SquareIdentifier := 20
  const C5: SquareIdentifier := 21
  const C6: SquareIdentifier := 22
  const C7: SquareIdentifier := 23
  const C8: SquareIdentifier := 24
  const D1: SquareIdentifier := 25
  const D2: SquareIdentifier := 26
  const D3: SquareIdentifier := 27
  const D4: SquareIdentifier := 28
  const D5: SquareIdentifier := 29
  const D6: SquareIdentifier := 30
  const D7: SquareIdentifier := 31
  const D8: SquareIdentifier := 32
  const E1: SquareIdentifier := 33
  const E2: SquareIdentifier := 34
  const E3: SquareIdentifier := 35
  const E4: SquareIdentifier := 36
  const E5: SquareIdentifier := 37
  const E6: SquareIdentifier := 38
  const E7: SquareIdentifier := 39
  const E8: SquareIdentifier := 40
  const F1: SquareIdentifier := 41
  const F2: SquareIdentifier := 42
  const F3: SquareIdentifier := 43
  const F4: SquareIdentifier := 44
  const F5: SquareIdentifier := 45
  const F6: SquareIdentifier := 46
  const F7: SquareIdentifier := 47
  const F8: SquareIdentifier := 48
  const G1: SquareIdentifier := 49
  const G2: SquareIdentifier := 50
  const G3: SquareIdentifier := 51
  const G4: SquareIdentifier := 52
  const G5: SquareIdentifier := 53
  const G6: SquareIdentifier := 54
  const G7: SquareIdentifier := 55
  const G8: SquareIdentifier := 56
  const H1: SquareIdentifier := 57
  const H2: SquareIdentifier := 58
  const H3: SquareIdentifier := 59
  const H4: SquareIdentifier := 60
  const H5: SquareIdentifier := 61
  const H6: SquareIdentifier := 62
  const H7: SquareIdentifier := 63
  const H8: SquareIdentifier := 64

  /** The 64 identifiers that name a square. */
  predicate IsSquareId(id: SquareIdentifier) {
    1 <= id <= 64
  }

  /** The identifier of the square on file `x` (A = 0) and rank `y`
      (rank 1 = 0): `8 * x + y + 1`. */
  function SquareAt(x: int, y: int): (id: SquareIdentifier)
    requires 0 <= x <= 7 && 0 <= y <= 7
    ensures IsSquareId(id)
  {
    (8 * x + y + 1) as SquareIdentifier
  }

  /** The file (0..7) of a square identifier. */
  function File(id: SquareIdentifier): (x: int)
    requires IsSquareId(id)
    ensures 0 <= x <= 7
  {
    (id as int - 1) / 8
  }

  /** The rank (0..7) of a square identifier. */
  function Rank(id: SquareIdentifier): (y: int)
    requires IsSquareId(id)
    ensures 0 <= y <= 7
  {
    (id as int - 1) % 8
  }

  /** `File` and `Rank` read back the coordinates `SquareAt` encodes ... */
  lemma FileRankOfSquareAt(x: int, y: int)
    requires 0 <= x <= 7 && 0 <= y <= 7
    ensures File(SquareAt(x, y)) == x && Rank(SquareAt(x, y)) == y
  {
  }

  /** ... and every square identifier is reached by the coordinates it
      encodes, so `SquareAt` is a bijection from [0,7]x[0,7] onto 1..64. */
  lemma SquareAtCovers(id: SquareIdentifier)
    requires IsSquareId(id)
    ensures SquareAt(File(id), Rank(id)) == id
  {
  }

  lemma SquareAtInjective(x: int, y: int, x': int, y': int)
    requires 0 <= x <= 7 && 0 <= y <= 7 && 0 <= x' <= 7 && 0 <= y' <= 7
    requires SquareAt(x, y) == SquareAt(x', y')
    ensures x == x' && y == y'
  {
    FileRankOfSquareAt(x, y);
    FileRankOfSquareAt(x', y');
  }

  /** The name of a square's constant: file letter then rank digit. */
  function SquareName(id: SquareIdentifier): (s: string)
    requires IsSquareId(id)
    ensures |s| == 2 && 'A' <= s[0] <= 'H' && '1' <= s[1] <= '8'
  {
    [('A' as int + File(id)) as char, ('1' as int + Rank(id)) as char]
  }

  /** Parses a square name: a recognised name gives its identifier and
      `true`, anything else the sentinel 0 and `false`. */
  function StringToSquareIdentifier(s: string): (r: (SquareIdentifier, bool))
    ensures r.1 <==> IsSquareId(r.0)
    ensures !r.1 ==> r.0 == 0
  {
    if |s| == 2 && 'A' <= s[0] <= 'H' && '1' <= s[1] <= '8' then
      (SquareAt(s[0] as int - 'A' as int, s[1] as int - '1' as int), true)
    else
      (0, false)
  }

  /** Parsing a square's name gives back that square. */
  lemma NameParses(id: SquareIdentifier)
    requires IsSquareId(id)
    ensures StringToSquareIdentifier(SquareName(id)) == (id, true)
  {
    var s := SquareName(id);
    assert s[0] as int - 'A' as int == File(id);
    assert s[1] as int - '1' as int == Rank(id);
    SquareAtCovers(id);
  }

  /** A string is accepted exactly when it is the name of the square it
      parses to. */
  lemma {:induction false} ParsedIsName(s: string)
    requires StringToSquareIdentifier(s).1
    ensures SquareName(StringToSquareIdentifier(s).0) == s
  {
    var id := StringToSquareIdentifier(s).0;
    FileRankOfSquareAt(s[0] as int - 'A' as int, s[1] as int - '1' as int);
    assert File(id) == s[0] as int - 'A' as int;
    assert Rank(id) == s[1] as int - '1' as int;
    assert SquareName(id)[0] == s[0] && SquareName(id)[1] == s[1];
  }

  /** The two probes of constants_test.go. */
  lemma ParsesTestProbes()
    ensures StringToSquareIdentifier("A1") == (A1, true)
    ensures StringToSquareIdentifier("sss") == (0, false)
  {
    var a1 := "A1";
    assert |a1| == 2 && a1[0] == 'A' && a1[1] == '1';
    assert a1[0] as int - 'A' as int == 0 && a1[1] as int - '1' as int == 0;
    assert |"sss"| == 3;
  }

  /** A spot check of seven of the 64 named constants (the four corners and
      the kings' squares) against the law `id = 8 * file + rank + 1`. */
  lemma NamedSquaresFollowLaw()
    ensures A1 == SquareAt(0, 0) && A8 == SquareAt(0, 7)
    ensures B1 == SquareAt(1, 0) && E1 == SquareAt(4, 0) && E8 == SquareAt(4, 7)
    ensures H1 == SquareAt(7, 0) && H8 == SquareAt(7, 7)
  {
  }
}
