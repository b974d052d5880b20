/**
 * King danger: whether the king of a colour, standing on the square it
 * remembers for itself, is attacked on a given board.
 */
module Danger {
  import opened Pieces
  import opened Boards
  import opened Movement

  /** The first piece met walking from `o` in direction `d`, from distance `k` on. */
  function FirstFrom(b: Board, o: Square, d: Offset, k: nat): Option<Piece>
    decreases 8 - k
  {
    if k > 7 then None
    else
      var s := Shift(o, d, k);
      if !OnBoard(s) then None
      else if s in b then Some(b[s])
      else FirstFrom(b, o, d, k + 1)
  }

  function First(b: Board, o: Square, d: Offset): Option<Piece> {
    FirstFrom(b, o, d, 1)
  }

  /** Piece `p`, if any, is an enemy of `c` of kind `slider` or a queen. */
  predicate SliderEnemy(p: Option<Piece>, c: Colour, slider: Kind) {
    p.Some? && p.value.colour != c && (p.value.kind == slider || p.value.kind == Queen)
  }

  /** Some ray in `ds` first meets an enemy of `c` whose kind is `slider` or a queen. */
  predicate SliderThreat(b: Board, c: Colour, k: Square, ds: seq<Offset>, slider: Kind) {
    SliderThreatFrom(b, c, k, ds, slider, 0)
  }

  /** The same, for the directions `ds[i..]`. */
  predicate SliderThreatFrom(b: Board, c: Colour, k: Square, ds: seq<Offset>, slider: Kind, i: nat)
    decreases |ds| - i
  {
    i < |ds| && (SliderEnemy(First(b, k, ds[i]), c, slider) || SliderThreatFrom(b, c, k, ds, slider, i + 1))
  }

  /** Some on-board offset target of `k` holds an enemy of `c` of kind `kind`. */
  predicate LeapThreat(b: Board, c: Colour, k: Square, offs: seq<Offset>, kind: Kind) {
    LeapThreatFrom(b, c, k, offs, kind, 0)
  }

  /** The same, for the offsets `offs[i..]`. */
  predicate LeapThreatFrom(b: Board, c: Colour, k: Square, offs: seq<Offset>, kind: Kind, i: nat)
    decreases |offs| - i
  {
    i < |offs|
    && ((OnBoard(Shift(k, offs[i], 1)) && HoldsEnemy(b, Shift(k, offs[i], 1), c) && b[Shift(k, offs[i], 1)].kind == kind)
        || LeapThreatFrom(b, c, k, offs, kind, i + 1))
  }

  /**
   * An enemy pawn stands on one of the two squares from which it would
   * capture on `k`: the row above for a White king, the row below for a
   * Black one.
   */
  predicate PawnThreat(b: Board, c: Colour, k: Square) {
    var r := k.row + Forward(c);
    var left := Square(r, k.col - 1);
    var right := Square(r, k.col + 1);
    0 <= r <= 7
    && ((k.col > 0 && HoldsEnemy(b, left, c) && b[left].kind == Pawn)
        || (k.col < 7 && HoldsEnemy(b, right, c) && b[right].kind == Pawn))
  }

  /** The source's `isindanger`: the king of colour `c` on square `k` is attacked. */
  predicate KingInDanger(b: Board, c: Colour, k: Square) {
    SliderThreat(b, c, k, Orthogonals, Rook)
    || SliderThreat(b, c, k, Diagonals, Bishop)
    || LeapThreat(b, c, k, KnightJumps, Knight)
    || LeapThreat(b, c, k, KingSteps, King)
    || PawnThreat(b, c, k)
  }

  /* ---------------------------------------------------------------------
   * King danger agrees with move generation: the king's square is in
   * danger exactly when some enemy piece could move onto it.
   * ------------------------------------------------------------------- */

  /** Some enemy of `c` has square `k` among its pseudo-legal destinations. */
  ghost predicate Attacked(b: Board, c: Colour, k: Square) {
    exists s :: OnBoard(s) && HoldsEnemy(b, s, c) && k in Moves(b, b[s], s)
  }

  lemma {:induction false} FirstFromAt(b: Board, o: Square, d: Offset, k: nat, m: int)
    requires k <= m <= 7 && OnBoard(Shift(o, d, m)) && Shift(o, d, m) in b && OpenPath(b, o, d, k, m)
    ensures FirstFrom(b, o, d, k) == Some(b[Shift(o, d, m)])
    decreases m - k
  {
    if k < m {
      assert OnBoard(Shift(o, d, k)) && Shift(o, d, k) !in b;
      FirstFromAt(b, o, d, k + 1, m);
    }
  }

  lemma {:induction false} FirstFromFound(b: Board, o: Square, d: Offset, k: nat) returns (m: int)
    requires FirstFrom(b, o, d, k).Some?
    ensures k <= m <= 7 && OnBoard(Shift(o, d, m)) && Shift(o, d, m) in b && OpenPath(b, o, d, k, m)
    ensures FirstFrom(b, o, d, k).value == b[Shift(o, d, m)]
    decreases 8 - k
  {
    var t := Shift(o, d, k);
    if t in b {
      m := k;
    } else {
      m := FirstFromFound(b, o, d, k + 1);
    }
  }

  lemma {:induction false} SliderThreatFromWitness(b: Board, c: Colour, k: Square, ds: seq<Offset>, slider: Kind, i: nat)
    ensures SliderThreatFrom(b, c, k, ds, slider, i)
        <==> exists j :: i <= j < |ds| && SliderEnemy(First(b, k, ds[j]), c, slider)
    decreases |ds| - i
  {
    if i < |ds| {
      SliderThreatFromWitness(b, c, k, ds, slider, i + 1);
    }
  }

  lemma SliderThreatWitness(b: Board, c: Colour, k: Square, ds: seq<Offset>, slider: Kind)
    ensures SliderThreat(b, c, k, ds, slider) <==> exists d :: d in ds && SliderEnemy(First(b, k, d), c, slider)
  {
    SliderThreatFromWitness(b, c, k, ds, slider, 0);
    if exists d :: d in ds && SliderEnemy(First(b, k, d), c, slider) {
      var d :| d in ds && SliderEnemy(First(b, k, d), c, slider);
      var j :| 0 <= j < |ds| && ds[j] == d;
    }
  }

  lemma {:induction false} LeapThreatFromWitness(b: Board, c: Colour, k: Square, offs: seq<Offset>, kind: Kind, i: nat)
    ensures LeapThreatFrom(b, c, k, offs, kind, i)
        <==> exists j :: i <= j < |offs| && OnBoard(Shift(k, offs[j], 1)) && HoldsEnemy(b, Shift(k, offs[j], 1), c)
                         && b[Shift(k, offs[j], 1)].kind == kind
    decreases |offs| - i
  {
    if i < |offs| {
      LeapThreatFromWitness(b, c, k, offs, kind, i + 1);
    }
  }

  lemma LeapThreatWitness(b: Board, c: Colour, k: Square, offs: seq<Offset>, kind: Kind)
    ensures LeapThreat(b, c, k, offs, kind)
        <==> exists off :: off in offs && OnBoard(Shift(k, off, 1)) && HoldsEnemy(b, Shift(k, off, 1), c)
                           && b[Shift(k, off, 1)].kind == kind
  {
    LeapThreatFromWitness(b, c, k, offs, kind, 0);
    if exists off :: off in offs && OnBoard(Shift(k, off, 1)) && HoldsEnemy(b, Shift(k, off, 1), c)
                     && b[Shift(k, off, 1)].kind == kind {
      var off :| off in offs && OnBoard(Shift(k, off, 1)) && HoldsEnemy(b, Shift(k, off, 1), c)
                 && b[Shift(k, off, 1)].kind == kind;
      var j :| 0 <= j < |offs| && offs[j] == off;
    }
  }

  lemma ShiftBack(o: Square, d: Offset, m: int, j: int)
    ensures Shift(Shift(o, d, m), Reverse(d), j) == Shift(o, d, m - j)
  {
    assert m * d.dr - j * d.dr == (m - j) * d.dr;
    assert m * d.dc - j * d.dc == (m - j) * d.dc;
  }

  lemma ReverseClosed()
    ensures forall d :: d in Orthogonals ==> Reverse(d) in Orthogonals
    ensures forall d :: d in Diagonals ==> Reverse(d) in Diagonals
    ensures forall d :: d in KnightJumps ==> Reverse(d) in KnightJumps
    ensures forall d :: d in KingSteps ==> Reverse(d) in KingSteps
  {
  }

  /** The first piece seen from `k` along `d` is a slider that sees `k` back along the reverse direction. */
  lemma SeenBack(b: Board, c: Colour, k: Square, d: Offset) returns (s: Square)
    requires OnBoard(k) && Holds(b, k, c) && First(b, k, d).Some? && First(b, k, d).value.colour != c
    ensures OnBoard(s) && s in b && b[s] == First(b, k, d).value
    ensures RayReaches(b, b[s].colour, s, Reverse(d), k)
  {
    var m := FirstFromFound(b, k, d, 1);
    s := Shift(k, d, m);
    ShiftBack(k, d, m, m);
    assert Shift(k, d, 0) == k;
    forall j | 1 <= j < m
      ensures OnBoard(Shift(s, Reverse(d), j)) && Shift(s, Reverse(d), j) !in b
    {
      ShiftBack(k, d, m, j);
      assert 1 <= m - j < m;
    }
    assert OpenPath(b, s, Reverse(d), 1, m);
    assert 1 <= m <= 7 && k == Shift(s, Reverse(d), m) && OnBoard(k) && !Holds(b, k, b[s].colour);
  }

  /** A slider on `s` that reaches an occupied `k` along `d` is the first piece seen from `k` along the reverse of `d`. */
  lemma SeesBack(b: Board, s: Square, d: Offset, k: Square)
    requires OnBoard(s) && s in b && k in b && RayReaches(b, b[s].colour, s, d, k)
    ensures First(b, k, Reverse(d)) == Some(b[s])
  {
    var m :| 1 <= m <= 7 && k == Shift(s, d, m) && OnBoard(k) && OpenPath(b, s, d, 1, m) && !Holds(b, k, b[s].colour);
    var r := Reverse(d);
    ShiftBack(s, d, m, m);
    assert Shift(s, d, 0) == s;
    assert Reverse(r) == d;
    ShiftBack(k, r, m, m);
    assert Shift(k, r, m) == s by {
      assert Shift(Shift(s, d, m), r, m) == s;
    }
    forall j | 1 <= j < m
      ensures OnBoard(Shift(k, r, j)) && Shift(k, r, j) !in b
    {
      ShiftBack(s, d, m, j);
      assert 1 <= m - j < m;
    }
    FirstFromAt(b, k, r, 1, m);
  }

  /**
   * With a piece of colour `c` standing on `k`, the source's `isindanger`
   * for colour `c` at `k` holds exactly when some enemy piece has `k`
   * among its destinations.
   */
  lemma DangerMeansAttacked(b: Board, c: Colour, k: Square)
    requires OnBoard(k) && Holds(b, k, c)
    ensures KingInDanger(b, c, k) <==> Attacked(b, c, k)
  {
    if KingInDanger(b, c, k) {
      DangerIsAttack(b, c, k);
    }
    if Attacked(b, c, k) {
      var s :| OnBoard(s) && HoldsEnemy(b, s, c) && k in Moves(b, b[s], s);
      AttackIsDanger(b, c, k, s);
    }
  }

  /** A piece on `s` whose movement rule reaches `k` makes `k` attacked. */
  lemma AttackedBy(b: Board, c: Colour, k: Square, s: Square)
    requires OnBoard(s) && HoldsEnemy(b, s, c) && Reaches(b, b[s], s, k)
    ensures Attacked(b, c, k)
  {
    MovesMatchRules(b, b[s], s, k);
  }

  lemma SliderDangerIsAttack(b: Board, c: Colour, k: Square, ds: seq<Offset>, slider: Kind)
    requires OnBoard(k) && Holds(b, k, c) && SliderThreat(b, c, k, ds, slider)
    requires (ds == Orthogonals && slider == Rook) || (ds == Diagonals && slider == Bishop)
    ensures Attacked(b, c, k)
  {
    SliderThreatWitness(b, c, k, ds, slider);
    var d :| d in ds && SliderEnemy(First(b, k, d), c, slider);
    var s := SeenBack(b, c, k, d);
    ReverseClosed();
    assert Reverse(d) in ds;
    assert Reverse(d) in Orthogonals + Diagonals;
    AttackedBy(b, c, k, s);
  }

  lemma LeapDangerIsAttack(b: Board, c: Colour, k: Square, offs: seq<Offset>, kind: Kind)
    requires OnBoard(k) && Holds(b, k, c) && LeapThreat(b, c, k, offs, kind)
    requires (offs == KnightJumps && kind == Knight) || (offs == KingSteps && kind == King)
    ensures Attacked(b, c, k)
  {
    LeapThreatWitness(b, c, k, offs, kind);
    var off :| off in offs && OnBoard(Shift(k, off, 1)) && HoldsEnemy(b, Shift(k, off, 1), c)
               && b[Shift(k, off, 1)].kind == kind;
    var s := Shift(k, off, 1);
    ShiftBack(k, off, 1, 1);
    assert Shift(k, off, 0) == k;
    ReverseClosed();
    assert Reverse(off) in offs;
    assert LeapReaches(b, b[s].colour, s, offs, k);
    AttackedBy(b, c, k, s);
  }

  lemma PawnDangerIsAttack(b: Board, c: Colour, k: Square)
    requires OnBoard(k) && Holds(b, k, c) && PawnThreat(b, c, k)
    ensures Attacked(b, c, k)
  {
    var r := k.row + Forward(c);
    var s := if k.col > 0 && HoldsEnemy(b, Square(r, k.col - 1), c) && b[Square(r, k.col - 1)].kind == Pawn
             then Square(r, k.col - 1) else Square(r, k.col + 1);
    assert PawnReaches(b, b[s].colour, s, k);
    AttackedBy(b, c, k, s);
  }

  lemma DangerIsAttack(b: Board, c: Colour, k: Square)
    requires OnBoard(k) && Holds(b, k, c) && KingInDanger(b, c, k)
    ensures Attacked(b, c, k)
  {
    if SliderThreat(b, c, k, Orthogonals, Rook) {
      SliderDangerIsAttack(b, c, k, Orthogonals, Rook);
    } else if SliderThreat(b, c, k, Diagonals, Bishop) {
      SliderDangerIsAttack(b, c, k, Diagonals, Bishop);
    } else if LeapThreat(b, c, k, KnightJumps, Knight) {
      LeapDangerIsAttack(b, c, k, KnightJumps, Knight);
    } else if LeapThreat(b, c, k, KingSteps, King) {
      LeapDangerIsAttack(b, c, k, KingSteps, King);
    } else {
      PawnDangerIsAttack(b, c, k);
    }
  }

  lemma SliderAttackIsDanger(b: Board, c: Colour, k: Square, s: Square, d: Offset, ds: seq<Offset>, slider: Kind)
    requires OnBoard(k) && Holds(b, k, c) && OnBoard(s) && HoldsEnemy(b, s, c)
    requires RayReaches(b, b[s].colour, s, d, k) && d in ds
    requires b[s].kind == slider || b[s].kind == Queen
    requires (ds == Orthogonals && slider == Rook) || (ds == Diagonals && slider == Bishop)
    ensures SliderThreat(b, c, k, ds, slider)
  {
    SeesBack(b, s, d, k);
    ReverseClosed();
    assert Reverse(d) in ds;
    SliderThreatWitness(b, c, k, ds, slider);
  }

  lemma LeapAttackIsDanger(b: Board, c: Colour, k: Square, s: Square, offs: seq<Offset>, kind: Kind)
    requires OnBoard(k) && Holds(b, k, c) && OnBoard(s) && HoldsEnemy(b, s, c) && b[s].kind == kind
    requires LeapReaches(b, b[s].colour, s, offs, k)
    requires (offs == KnightJumps && kind == Knight) || (offs == KingSteps && kind == King)
    ensures LeapThreat(b, c, k, offs, kind)
  {
    var off :| off in offs && k == Shift(s, off, 1) && OnBoard(k) && !Holds(b, k, b[s].colour);
    ShiftBack(s, off, 1, 1);
    assert Shift(s, off, 0) == s;
    assert Shift(k, Reverse(off), 1) == s;
    ReverseClosed();
    assert Reverse(off) in offs;
    LeapThreatWitness(b, c, k, offs, kind);
  }

  lemma AttackIsDanger(b: Board, c: Colour, k: Square, s: Square)
    requires OnBoard(k) && Holds(b, k, c)
    requires OnBoard(s) && HoldsEnemy(b, s, c) && k in Moves(b, b[s], s)
    ensures KingInDanger(b, c, k)
  {
    var p := b[s];
    MovesMatchRules(b, p, s, k);
    match p.kind
    case Rook =>
      var d :| d in Orthogonals && RayReaches(b, p.colour, s, d, k);
      SliderAttackIsDanger(b, c, k, s, d, Orthogonals, Rook);
    case Bishop =>
      var d :| d in Diagonals && RayReaches(b, p.colour, s, d, k);
      SliderAttackIsDanger(b, c, k, s, d, Diagonals, Bishop);
    case Queen =>
      var d :| d in Orthogonals + Diagonals && RayReaches(b, p.colour, s, d, k);
      if d in Orthogonals {
        SliderAttackIsDanger(b, c, k, s, d, Orthogonals, Rook);
      } else {
        SliderAttackIsDanger(b, c, k, s, d, Diagonals, Bishop);
      }
    case Knight =>
      LeapAttackIsDanger(b, c, k, s, KnightJumps, Knight);
    case King =>
      LeapAttackIsDanger(b, c, k, s, KingSteps, King);
    case Pawn =>
      assert PawnThreat(b, c, k);
  }
}
