/** The `CanMove` rules of engine/pieces.go. A rule reads the board's squares
    and two squares of it; its answer is three-valued because the queen,
    bishop and knight rules panic with "TODO" and the king's scan can recurse
    without end. */
module Rules {
  import opened Optional
  import opened Constants
  import opened Pieces
  import opened Boards

  /** `Legal` and `Illegal` are the Go rule's `true` and `false`;
      `Unimplemented` is a rule that gives no answer: a "TODO" panic, or a
      king scan cut off at the depth bound. */
  datatype Verdict = Legal | Illegal | Unimplemented

  function FromBool(b: bool): Verdict {
    if b then Legal else Illegal
  }

  /** A square's file and rank as integers. The source computes on `uint8`,
      where `0 - 1` wraps to 255; on a well-formed square that value, like
      the integer -1, equals no coordinate, so the integer reading agrees. */
  function X(sq: Square): int {
    sq.coordinates.x as int
  }

  function Y(sq: Square): int {
    sq.coordinates.y as int
  }

  /** The colour of the piece on an occupied square. */
  function ColorOn(sq: Square): Color
    requires sq.piece.Some?
  {
    sq.piece.value.color
  }

  // ---------------------------------------------------------------- pawn

  /** The pawn rule. White moves up the ranks, black down; a black or white
      piece's colour is read from `from`, and a colour that is neither is
      refused. The first clause of each side is the opening double step as
      written: any empty square of the same file at least two ranks up for
      white, and any empty square of the same file from rank 5 to rank 8 for
      black; no square in between is looked at. */
  function PawnCanMove(from: Square, to: Square): (r: bool)
    requires WellFormed(from) && WellFormed(to)
    ensures r ==> !from.empty && from.piece.value.kind == Pawn
    ensures r ==> to.empty || ColorOn(to) != ColorOn(from)
    ensures r && to.empty ==> X(to) == X(from)
    ensures r && !to.empty ==> X(to) != X(from) && Y(to) == Y(from) + Forward(ColorOn(from))
  {
    if from.empty then false
    else if Identifier(from.piece.value) != PawnIdentifier then false
    else
      var mine := ColorOn(from);
      var fx, fy, tx, ty := X(from), Y(from), X(to), Y(to);
      if mine == WhiteColor then
        (fy == 1 && fx == tx && ty >= fy + 2 && to.empty)
        || (to.empty && fy + 1 == ty && fx == tx)
        || (fy + 1 == ty && (fx - 1 == tx || fx + 1 == tx) && !to.empty && ColorOn(to) != mine)
      else if mine == BlackColor then
        (fy == 6 && fx == tx && ty >= fy - 2 && to.empty)
        || (to.empty && fy - 1 == ty && fx == tx)
        || (fy - 1 == ty && (fx - 1 == tx || fx + 1 == tx) && !to.empty && ColorOn(to) != mine)
      else false
  }

  /** The squares a pawn's opening step reaches, as the source accepts them. */
  predicate DoubleStepZone(from: Square, to: Square)
    requires from.piece.Some?
  {
    if ColorOn(from) == WhiteColor then Y(from) == 1 && Y(to) >= 3
    else Y(from) == 6 && Y(to) >= 4
  }

  function Forward(c: Color): int {
    if c == WhiteColor then 1 else -1
  }

  /** The pawn rule by destination: onto an empty square only along the file
      (one rank forward, or the opening step), onto an occupied square only
      one rank forward on a neighbouring file and only onto the other
      colour. */
  lemma PawnRule(from: Square, to: Square)
    requires WellFormed(from) && WellFormed(to)
    ensures PawnCanMove(from, to) <==>
      && !from.empty && from.piece.value.kind == Pawn
      && ColorOn(from) in {WhiteColor, BlackColor}
      && (to.empty ==>
            X(to) == X(from) && (Y(to) == Y(from) + Forward(ColorOn(from)) || DoubleStepZone(from, to)))
      && (!to.empty ==>
            && (X(to) == X(from) + 1 || X(to) == X(from) - 1)
            && Y(to) == Y(from) + Forward(ColorOn(from))
            && ColorOn(to) != ColorOn(from))
  {
  }

  /** White pawns only move up the board; black pawns only move down it,
      except that the opening clause also lets a black pawn on rank 7 step
      back onto an empty rank-8 square of its file. */
  lemma PawnDirection(from: Square, to: Square)
    requires WellFormed(from) && WellFormed(to)
    requires from.squareIdentifier != to.squareIdentifier
    requires PawnCanMove(from, to)
    ensures ColorOn(from) == WhiteColor ==> Y(to) > Y(from)
    ensures ColorOn(from) == BlackColor ==> Y(to) < Y(from) || (Y(from) == 6 && Y(to) == 7)
  {
    var fy, ty := Y(from), Y(to);
    if ColorOn(from) == WhiteColor {
      assert (fy == 1 && ty >= fy + 2) || fy + 1 == ty;
    } else {
      assert ColorOn(from) == BlackColor;
      assert X(from) == X(to) && ty == fy ==> from.squareIdentifier == to.squareIdentifier;
    }
  }

  /** The backward step the black opening clause admits. */
  lemma BlackPawnStepsBack(from: Square, to: Square)
    requires WellFormed(from) && WellFormed(to)
    requires from.piece == Some(Piece(Pawn, BlackColor)) && Y(from) == 6
    requires to.empty && X(to) == X(from) && Y(to) == 7
    ensures PawnCanMove(from, to) && Y(to) > Y(from)
  {
  }

  // ---------------------------------------------------------------- rook

  /** A file (fixed x) or a rank (fixed y) of the board. */
  datatype Line = FileLine(x: int) | RankLine(y: int)

  predicate OnBoard(line: Line) {
    match line
    case FileLine(x) => 0 <= x <= 7
    case RankLine(y) => 0 <= y <= 7
  }

  /** The square at position `k` along a line. */
  function OnLine(line: Line, k: int): SquareIdentifier
    requires OnBoard(line) && 0 <= k <= 7
  {
    match line
    case FileLine(x) => SquareAt(x, k)
    case RankLine(y) => SquareAt(k, y)
  }

  /** The rook's walk `for i := start; i != target; i += step`, stopping at
      the first occupied square: true exactly when every square from `start`
      up to but not including `target` is empty. */
  function ClearWalk(m: Squares, line: Line, start: int, target: int, step: int): (r: bool)
    requires ValidSquares(m) && OnBoard(line) && 0 <= start <= 7 && 0 <= target <= 7
    requires (step == 1 && start <= target) || (step == -1 && target <= start)
    ensures r <==> forall k :: (start <= k < target || target < k <= start) ==> m[OnLine(line, k)].empty
    decreases (target - start) * step
  {
    if start == target then true
    else if !m[OnLine(line, start)].empty then false
    else ClearWalk(m, line, start + step, target, step)
  }

  /** `summ` in the source: the direction from `a` towards `b`. */
  function Step(a: int, b: int): int {
    if a > b then -1 else 1
  }

  /** The rook rule: along a file or a rank, not onto its own colour, and
      through empty squares only. */
  function RookCanMove(m: Squares, from: Square, to: Square): (r: bool)
    requires ValidSquares(m) && WellFormed(from) && WellFormed(to)
    ensures r ==> !from.empty && (X(from) == X(to)) != (Y(from) == Y(to))
    ensures r ==> to.empty || ColorOn(to) != ColorOn(from)
  {
    if from.empty then false
    else
      var fx, fy, tx, ty := X(from), Y(from), X(to), Y(to);
      if fx == tx && fy != ty then
        if !to.empty && ColorOn(to) == ColorOn(from) then false
        else ClearWalk(m, FileLine(fx), fy + Step(fy, ty), ty, Step(fy, ty))
      else if fy == ty && fx != tx then
        if !to.empty && ColorOn(to) == ColorOn(from) then false
        else ClearWalk(m, RankLine(fy), fx + Step(fx, tx), tx, Step(fx, tx))
      else false
  }

  predicate Between(a: int, k: int, b: int) {
    a < k < b || b < k < a
  }

  /** Every square strictly between `from` and `to` on their common file
      (or, when the files differ, their common rank) is empty. */
  ghost predicate PathClear(m: Squares, from: Square, to: Square)
    requires ValidSquares(m) && WellFormed(from) && WellFormed(to)
  {
    if X(from) == X(to) then
      forall k :: Between(Y(from), k, Y(to)) ==> m[SquareAt(X(from), k)].empty
    else
      forall k :: Between(X(from), k, X(to)) ==> m[SquareAt(k, Y(from))].empty
  }

  /** A rook may move exactly when exactly one of file and rank changes, the
      destination holds no piece of the mover's colour, and every square
      strictly between is empty. */
  lemma RookRule(m: Squares, from: Square, to: Square)
    requires ValidSquares(m) && WellFormed(from) && WellFormed(to)
    ensures RookCanMove(m, from, to) <==>
      && !from.empty
      && ((X(from) == X(to)) != (Y(from) == Y(to)))
      && (to.empty || ColorOn(to) != ColorOn(from))
      && PathClear(m, from, to)
  {
    if !from.empty && !(!to.empty && ColorOn(to) == ColorOn(from)) {
      if X(from) == X(to) && Y(from) != Y(to) {
        RookAlongFile(m, from, to);
      } else if Y(from) == Y(to) && X(from) != X(to) {
        RookAlongRank(m, from, to);
      }
    }
  }

  lemma RookAlongFile(m: Squares, from: Square, to: Square)
    requires ValidSquares(m) && WellFormed(from) && WellFormed(to)
    requires X(from) == X(to) && Y(from) != Y(to)
    ensures var s := Step(Y(from), Y(to));
      ClearWalk(m, FileLine(X(from)), Y(from) + s, Y(to), s) <==> PathClear(m, from, to)
  {
    var fx, fy, ty := X(from), Y(from), Y(to);
    var s := Step(fy, ty);
    forall k ensures (fy + s <= k < ty || ty < k <= fy + s) <==> Between(fy, k, ty) { }
    forall k | 0 <= k <= 7 ensures OnLine(FileLine(fx), k) == SquareAt(fx, k) { }
  }

  lemma RookAlongRank(m: Squares, from: Square, to: Square)
    requires ValidSquares(m) && WellFormed(from) && WellFormed(to)
    requires Y(from) == Y(to) && X(from) != X(to)
    ensures var s := Step(X(from), X(to));
      ClearWalk(m, RankLine(Y(from)), X(from) + s, X(to), s) <==> PathClear(m, from, to)
  {
    var fx, fy, tx := X(from), Y(from), X(to);
    var s := Step(fx, tx);
    forall k ensures (fx + s <= k < tx || tx < k <= fx + s) <==> Between(fx, k, tx) { }
    forall k | 0 <= k <= 7 ensures OnLine(RankLine(fy), k) == SquareAt(k, fy) { }
  }

  // ---------------------------------------------------------------- king

  /** The king's own test: one file and one rank away (diagonal steps only,
      as written), onto an empty square or a piece of the other colour. */
  predicate KingStep(from: Square, to: Square)
    requires from.piece.Some? && WellFormed(to)
    ensures KingStep(from, to) ==> X(to) != X(from) && Y(to) != Y(from)
    ensures KingStep(from, to) ==> to.empty || ColorOn(to) != ColorOn(from)
  {
    && (X(to) == X(from) + 1 || X(to) == X(from) - 1)
    && (Y(to) == Y(from) + 1 || Y(to) == Y(from) - 1)
    && (to.empty || (!to.empty && ColorOn(to) != ColorOn(from)))
  }

  /** What the scan over the board has met: a piece whose rule lets it reach
      the destination, and a piece whose rule gives no verdict. */
  datatype Scan = Scan(attacked: bool, stalled: bool)

  /** The piece on `j` is not of colour `c` and its rule lets it move to `to`. */
  predicate Attacks(m: Squares, c: Color, j: SquareIdentifier, to: Square, fuel: nat)
    requires ValidSquares(m) && WellFormed(to)
    decreases fuel, 2, 0
  {
    && IsSquareId(j) && !m[j].empty && ColorOn(m[j]) != c
    && CanMove(m[j].piece.value, m, m[j], to, fuel) == Legal
  }

  /** The piece on `j` is not of colour `c` and its rule gives no verdict. */
  predicate Stalls(m: Squares, c: Color, j: SquareIdentifier, to: Square, fuel: nat)
    requires ValidSquares(m) && WellFormed(to)
    decreases fuel, 2, 0
  {
    && IsSquareId(j) && !m[j].empty && ColorOn(m[j]) != c
    && CanMove(m[j].piece.value, m, m[j], to, fuel) == Unimplemented
  }

  /** The king's scan over squares `id`..64: asks the rule of every piece not
      of colour `c` whether it can move to `to`. The source walks a Go map,
      whose order is unspecified; the scan's answer depends on no order. */
  function Threats(m: Squares, c: Color, to: Square, fuel: nat, id: SquareIdentifier): (r: Scan)
    requires ValidSquares(m) && WellFormed(to) && 1 <= id <= 65
    ensures r.attacked || r.stalled ==> exists j :: id <= j <= 64 && !m[j].empty && ColorOn(m[j]) != c
    decreases fuel, 3, 65 - id as int
  {
    if id == 65 then Scan(false, false)
    else
      var rest := Threats(m, c, to, fuel, id + 1);
      var sq := m[id];
      if !sq.empty && ColorOn(sq) != c then
        var v := CanMove(sq.piece.value, m, sq, to, fuel);
        Scan(rest.attacked || v == Legal, rest.stalled || v == Unimplemented)
      else
        rest
  }

  /** The scan's answer depends on no order: it reports an attacker exactly
      when some square from `id` on holds one. */
  lemma {:induction false} ThreatsFindAttackers(m: Squares, c: Color, to: Square, fuel: nat, id: SquareIdentifier)
    requires ValidSquares(m) && WellFormed(to) && 1 <= id <= 65
    ensures Threats(m, c, to, fuel, id).attacked <==> exists j :: id <= j <= 64 && Attacks(m, c, j, to, fuel)
    decreases 65 - id as int
  {
    if id < 65 {
      ThreatsFindAttackers(m, c, to, fuel, id + 1);
      var r, rest := Threats(m, c, to, fuel, id), Threats(m, c, to, fuel, id + 1);
      if r.attacked {
        if !rest.attacked {
          assert Attacks(m, c, id, to, fuel);
        }
      } else {
        assert !rest.attacked && !Attacks(m, c, id, to, fuel);
        forall j | id <= j <= 64 ensures !Attacks(m, c, j, to, fuel) {
          if j != id { assert id + 1 <= j; }
        }
      }
    }
  }

  /** Likewise, it reports a rule without a verdict exactly when some square
      from `id` on holds a piece whose rule has none. */
  lemma {:induction false} ThreatsFindStalls(m: Squares, c: Color, to: Square, fuel: nat, id: SquareIdentifier)
    requires ValidSquares(m) && WellFormed(to) && 1 <= id <= 65
    ensures Threats(m, c, to, fuel, id).stalled <==> exists j :: id <= j <= 64 && Stalls(m, c, j, to, fuel)
    decreases 65 - id as int
  {
    if id < 65 {
      ThreatsFindStalls(m, c, to, fuel, id + 1);
      var r, rest := Threats(m, c, to, fuel, id), Threats(m, c, to, fuel, id + 1);
      if r.stalled {
        if !rest.stalled {
          assert Stalls(m, c, id, to, fuel);
        }
      } else {
        assert !rest.stalled && !Stalls(m, c, id, to, fuel);
        forall j | id <= j <= 64 ensures !Stalls(m, c, j, to, fuel) {
          if j != id { assert id + 1 <= j; }
        }
      }
    }
  }

  /** The king rule. `k` is the receiver, whose colour picks the pieces to
      scan. If some scanned piece can reach `to` the answer is `Illegal`
      (the Go loop returns false when it meets that piece first); otherwise
      if some scanned piece gives no verdict there is none (the Go loop
      panics, or recurses for ever, when it meets that piece first);
      otherwise the king's own step test decides. The scan runs with one
      less unit of `fuel`; with none left a king gives no verdict. */
  function KingCanMove(k: Piece, m: Squares, from: Square, to: Square, fuel: nat): (v: Verdict)
    requires ValidSquares(m) && WellFormed(from) && WellFormed(to)
    ensures v == Legal ==> !from.empty && from.piece.value.kind == King && fuel > 0 && KingStep(from, to)
    ensures v == Unimplemented ==> !from.empty && from.piece.value.kind == King
    ensures !from.empty && from.piece.value.kind == King && fuel == 0 ==> v == Unimplemented
    decreases fuel, 0, 0
  {
    if from.empty then Illegal
    else if Identifier(from.piece.value) != KingIdentifier then Illegal
    else if fuel == 0 then Unimplemented
    else
      var scan := Threats(m, k.color, to, fuel - 1, 1);
      if scan.attacked then Illegal
      else if scan.stalled then Unimplemented
      else FromBool(KingStep(from, to))
  }

  // ------------------------------------------------------------ dispatch

  /** `Piece.CanMove`, dispatched on the receiver's kind. The queen, bishop
      and knight rules are "TODO" panics. */
  function CanMove(p: Piece, m: Squares, from: Square, to: Square, fuel: nat): (v: Verdict)
    requires ValidSquares(m) && WellFormed(from) && WellFormed(to)
    ensures v == Legal ==> !from.empty
    ensures v == Legal && p.kind in {Pawn, King} ==> from.piece.value.kind == p.kind
    ensures p.kind in {Queen, Bishop, Knight} ==> v == Unimplemented
    ensures v == Unimplemented ==> p.kind !in {Pawn, Rook}
    decreases fuel, 1, 0
  {
    match p.kind
    case Pawn => FromBool(PawnCanMove(from, to))
    case Rook => FromBool(RookCanMove(m, from, to))
    case King => KingCanMove(p, m, from, to, fuel)
    case Queen => Unimplemented
    case Bishop => Unimplemented
    case Knight => Unimplemented
  }

  // ------------------------------------------------------ the rules as run

  /** The rook's loop over the squares strictly between, one at a time. */
  method WalkLine(m: Squares, line: Line, start: int, target: int, step: int) returns (clear: bool)
    requires ValidSquares(m) && OnBoard(line) && 0 <= start <= 7 && 0 <= target <= 7
    requires (step == 1 && start <= target) || (step == -1 && target <= start)
    ensures clear == ClearWalk(m, line, start, target, step)
  {
    var i := start;
    while i != target
      invariant (step == 1 && start <= i <= target) || (step == -1 && target <= i <= start)
      invariant forall k :: (start <= k < i || i < k <= start) ==> m[OnLine(line, k)].empty
      decreases (target - i) * step
    {
      if !m[OnLine(line, i)].empty {
        return false;
      }
      i := i + step;
    }
    return true;
  }

  /** `rook.CanMove`, with its two loops. */
  method CheckRook(m: Squares, from: Square, to: Square) returns (ok: bool)
    requires ValidSquares(m) && WellFormed(from) && WellFormed(to)
    ensures ok == RookCanMove(m, from, to)
  {
    if from.empty {
      return false;
    }
    var fx, fy, tx, ty := X(from), Y(from), X(to), Y(to);
    if fx == tx && fy != ty {
      if !to.empty && ColorOn(to) == ColorOn(from) {
        return false;
      }
      ok := WalkLine(m, FileLine(fx), fy + Step(fy, ty), ty, Step(fy, ty));
    } else if fy == ty && fx != tx {
      if !to.empty && ColorOn(to) == ColorOn(from) {
        return false;
      }
      ok := WalkLine(m, RankLine(fy), fx + Step(fx, tx), tx, Step(fx, tx));
    } else {
      ok := false;
    }
  }

  /** `king.CanMove`: the loop over the board asks every piece of the other
      colour, stopping at the first one that may reach `to`. In the source a
      piece without a verdict ends the loop with a panic; the model instead
      goes on and lets an attacker met later decide, the answer a map order
      meeting that attacker first would give. */
  method CheckKing(k: Piece, m: Squares, from: Square, to: Square, fuel: nat) returns (v: Verdict)
    requires ValidSquares(m) && WellFormed(from) && WellFormed(to)
    ensures v == KingCanMove(k, m, from, to, fuel)
    decreases fuel, 0
  {
    if from.empty || Identifier(from.piece.value) != KingIdentifier {
      return Illegal;
    }
    if fuel == 0 {
      return Unimplemented;
    }
    var depth: nat := fuel - 1;
    ThreatsFindAttackers(m, k.color, to, depth, 1);
    ThreatsFindStalls(m, k.color, to, depth, 1);
    var stalled := false;
    var id: SquareIdentifier := 1;
    while id <= 64
      invariant 1 <= id <= 65
      invariant forall j :: 1 <= j < id ==> !Attacks(m, k.color, j, to, depth)
      invariant stalled <==> exists j :: 1 <= j < id && Stalls(m, k.color, j, to, depth)
    {
      var sq := m[id];
      if !sq.empty && ColorOn(sq) != k.color {
        var w := Check(sq.piece.value, m, sq, to, depth);
        if w == Legal {
          assert Attacks(m, k.color, id, to, depth);
          return Illegal;
        }
        if w == Unimplemented {
          assert Stalls(m, k.color, id, to, depth);
          stalled := true;
        }
      }
      assert stalled <==> exists j :: 1 <= j <= id && Stalls(m, k.color, j, to, depth);
      id := id + 1;
    }
    if stalled {
      return Unimplemented;
    }
    return FromBool(KingStep(from, to));
  }

  /** `Piece.CanMove` as a call: dispatches on the receiver's kind. */
  method Check(p: Piece, m: Squares, from: Square, to: Square, fuel: nat) returns (v: Verdict)
    requires ValidSquares(m) && WellFormed(from) && WellFormed(to)
    ensures v == CanMove(p, m, from, to, fuel)
    decreases fuel, 1
  {
    match p.kind
    case Pawn =>
      v := FromBool(PawnCanMove(from, to));
    case Rook =>
      var ok := CheckRook(m, from, to);
      v := FromBool(ok);
    case King =>
      v := CheckKing(p, m, from, to, fuel);
    case Queen =>
      v := Unimplemented;
    case Bishop =>
      v := Unimplemented;
    case Knight =>
      v := Unimplemented;
  }

  // ---------------------------------------------------------- properties

  /** A piece on no square moves nowhere: every implemented rule refuses an
      empty origin, and the "TODO" rules give no verdict at all. */
  lemma EmptyOriginRefused(p: Piece, m: Squares, from: Square, to: Square, fuel: nat)
    requires ValidSquares(m) && WellFormed(from) && WellFormed(to)
    requires from.empty
    ensures CanMove(p, m, from, to, fuel) ==
      (if p.kind in {Queen, Bishop, Knight} then Unimplemented else Illegal)
  {
  }

  /** Exactly the queen, bishop and knight rules, and the king's scan, give no
      verdict; the pawn and rook rules always answer. */
  lemma UnimplementedKinds(p: Piece, m: Squares, from: Square, to: Square, fuel: nat)
    requires ValidSquares(m) && WellFormed(from) && WellFormed(to)
    ensures p.kind in {Queen, Bishop, Knight} ==> CanMove(p, m, from, to, fuel) == Unimplemented
    ensures CanMove(p, m, from, to, fuel) == Unimplemented ==> p.kind != Pawn && p.kind != Rook
  {
  }

  /** No rule lets a piece stay where it is. */
  lemma NoStandingStill(p: Piece, m: Squares, sq: Square, fuel: nat)
    requires ValidSquares(m) && WellFormed(sq)
    ensures CanMove(p, m, sq, sq, fuel) != Legal
  {
  }

  /** A move a rule allows starts on an occupied square and never lands on a
      piece of the mover's own colour. */
  lemma LegalNeverOntoOwnPiece(p: Piece, m: Squares, from: Square, to: Square, fuel: nat)
    requires ValidSquares(m) && WellFormed(from) && WellFormed(to)
    requires CanMove(p, m, from, to, fuel) == Legal
    ensures !from.empty
    ensures !to.empty ==> ColorOn(to) != ColorOn(from)
  {
    if p.kind == Rook {
      RookRule(m, from, to);
    }
  }

  /** No piece of a colour other than `c` may move to `to`. */
  predicate Unattacked(m: Squares, c: Color, to: Square, fuel: nat)
    requires ValidSquares(m) && WellFormed(to)
  {
    forall j :: !Attacks(m, c, j, to, fuel)
  }

  /** Some piece of a colour other than `c` has a rule without a verdict. */
  predicate SomeStall(m: Squares, c: Color, to: Square, fuel: nat)
    requires ValidSquares(m) && WellFormed(to)
  {
    exists j :: Stalls(m, c, j, to, fuel)
  }

  /** The king rule with the scan spelled out: a king may move exactly when
      there is depth left, no piece of the other colour may reach `to`, every
      such piece's rule gives a verdict, and the step itself is diagonal onto
      an empty or opposing square. It gives no verdict exactly when the depth
      is spent or, with no attacker, some scanned rule gives none. */
  lemma KingRule(k: Piece, m: Squares, from: Square, to: Square, fuel: nat)
    requires ValidSquares(m) && WellFormed(from) && WellFormed(to)
    ensures KingCanMove(k, m, from, to, fuel) == Legal <==>
      && !from.empty && from.piece.value.kind == King && fuel > 0
      && Unattacked(m, k.color, to, fuel - 1)
      && !SomeStall(m, k.color, to, fuel - 1)
      && KingStep(from, to)
    ensures KingCanMove(k, m, from, to, fuel) == Unimplemented <==>
      && !from.empty && from.piece.value.kind == King
      && (fuel == 0 ||
           (Unattacked(m, k.color, to, fuel - 1) && SomeStall(m, k.color, to, fuel - 1)))
  {
    if fuel > 0 {
      ThreatsFindAttackers(m, k.color, to, fuel - 1, 1);
      ThreatsFindStalls(m, k.color, to, fuel - 1, 1);
    }
  }

  /** A king never moves onto a square some piece of the other colour may
      move to. */
  lemma KingAvoidsAttackedSquare(k: Piece, m: Squares, from: Square, to: Square, fuel: nat, j: SquareIdentifier)
    requires ValidSquares(m) && WellFormed(from) && WellFormed(to) && fuel > 0
    requires Attacks(m, k.color, j, to, fuel - 1)
    ensures KingCanMove(k, m, from, to, fuel) != Legal
  {
    KingRule(k, m, from, to, fuel);
  }

  /** While a queen, bishop or knight of the other colour stands anywhere on
      the board, no king move is allowed: the scan reaches its "TODO". */
  lemma KingBlockedByUnimplementedPiece(k: Piece, m: Squares, from: Square, to: Square, fuel: nat, j: SquareIdentifier)
    requires ValidSquares(m) && WellFormed(from) && WellFormed(to)
    requires IsSquareId(j) && !m[j].empty && ColorOn(m[j]) != k.color
    requires m[j].piece.value.kind in {Queen, Bishop, Knight}
    ensures KingCanMove(k, m, from, to, fuel) != Legal
  {
    if fuel > 0 {
      assert Stalls(m, k.color, j, to, fuel - 1);
      KingRule(k, m, from, to, fuel);
    }
  }

  /** At the depth `Move` runs the rule with (two), a king with the other
      king on `j` moves only where the other king's own scan meets an
      attacker first: some piece not of that king's colour may itself move
      to `to` at depth zero. Otherwise the other king's scan reaches a king
      of the first colour (on `i`), whose rule gives no verdict. */
  lemma KingFacingKingAtScanDepth(k: Piece, m: Squares, from: Square, to: Square, j: SquareIdentifier, i: SquareIdentifier)
    requires ValidSquares(m) && WellFormed(from) && WellFormed(to)
    requires IsSquareId(j) && !m[j].empty
    requires m[j].piece.value.kind == King && ColorOn(m[j]) != k.color
    requires IsSquareId(i) && !m[i].empty
    requires m[i].piece.value.kind == King && ColorOn(m[i]) != ColorOn(m[j])
    ensures KingCanMove(k, m, from, to, 2) == Legal ==> exists a :: Attacks(m, ColorOn(m[j]), a, to, 0)
  {
    if KingCanMove(k, m, from, to, 2) == Legal {
      KingRule(k, m, from, to, 2);
      assert !Attacks(m, k.color, j, to, 1) && !Stalls(m, k.color, j, to, 1);
      var other := m[j].piece.value;
      KingRule(other, m, m[j], to, 1);
      assert Stalls(m, other.color, i, to, 0);
    }
  }
}
