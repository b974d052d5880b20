/**
 * Pseudo-legal move generation: the destinations each kind of piece may
 * reach from a square, before any self-check filtering. Off-board squares
 * and squares holding a piece of the mover's own colour are never produced.
 */
module Movement {
  import opened Pieces
  import opened Boards

  /**
   * The squares of the ray from `o` in direction `d`, from distance `k` on:
   * empty squares are kept and the walk continues, an own piece ends the
   * ray and is dropped, an enemy piece ends the ray and is kept.
   */
  function RayFrom(b: Board, c: Colour, o: Square, d: Offset, k: nat): (r: seq<Square>)
    decreases 8 - k
  {
    if k > 7 then []
    else
      var s := Shift(o, d, k);
      if !OnBoard(s) then []
      else if s !in b then [s] + RayFrom(b, c, o, d, k + 1)
      else if b[s].colour == c then []
      else [s]
  }

  function Ray(b: Board, c: Colour, o: Square, d: Offset): (r: seq<Square>)
  {
    RayFrom(b, c, o, d, 1)
  }

  /** The rays in directions `ds`, one after the other. */
  function Rays(b: Board, c: Colour, o: Square, ds: seq<Offset>): (r: seq<Square>)
  {
    if ds == [] then [] else Ray(b, c, o, ds[0]) + Rays(b, c, o, ds[1..])
  }

  /** The target of the single offset `off`, kept when it is on the board and holds no own piece. */
  function Hop(b: Board, c: Colour, o: Square, off: Offset): (r: seq<Square>)
  {
    var s := Shift(o, off, 1);
    if OnBoard(s) && !Holds(b, s, c) then [s] else []
  }

  /** Every offset target that lies on the board and holds no own piece, in offset order. */
  function Leaps(b: Board, c: Colour, o: Square, offs: seq<Offset>): (r: seq<Square>)
  {
    LeapsFrom(b, c, o, offs, 0)
  }

  /** The hops of the offsets `offs[i..]`. */
  function LeapsFrom(b: Board, c: Colour, o: Square, offs: seq<Offset>, i: nat): (r: seq<Square>)
    decreases |offs| - i
  {
    if i >= |offs| then [] else Hop(b, c, o, offs[i]) + LeapsFrom(b, c, o, offs, i + 1)
  }

  /**
   * Pawn moves: one step forward onto an empty square, a second step from
   * the starting row when both squares are empty, and each forward diagonal
   * holding an enemy piece. A pawn whose forward square is off the board
   * has no moves.
   */
  function PawnMoves(b: Board, c: Colour, o: Square): (r: seq<Square>)
    requires OnBoard(o)
  {
    var f := Forward(c);
    var ahead := Square(o.row + f, o.col);
    if !OnBoard(ahead) then []
    else
      var twice := Square(o.row + 2 * f, o.col);
      var left := Square(o.row + f, o.col - 1);
      var right := Square(o.row + f, o.col + 1);
      var steps :=
        if ahead in b then []
        else if o.row == StartRow(c) && twice !in b then [ahead, twice]
        else [ahead];
      steps
      + (if o.col > 0 && HoldsEnemy(b, left, c) then [left] else [])
      + (if o.col < 7 && HoldsEnemy(b, right, c) then [right] else [])
  }

  /** The pseudo-legal destinations of piece `p` standing on `o`; the source's `move(board, row, col)`. */
  function Moves(b: Board, p: Piece, o: Square): (r: seq<Square>)
    requires OnBoard(o)
  {
    match p.kind
    case King => Leaps(b, p.colour, o, KingSteps)
    case Knight => Leaps(b, p.colour, o, KnightJumps)
    case Rook => Rays(b, p.colour, o, Orthogonals)
    case Bishop => Rays(b, p.colour, o, Diagonals)
    case Queen => Rays(b, p.colour, o, Orthogonals) + Rays(b, p.colour, o, Diagonals)
    case Pawn => PawnMoves(b, p.colour, o)
  }

  /* ---------------------------------------------------------------------
   * Reference definitions: the movement rules stated square by square.
   * ------------------------------------------------------------------- */

  /** Every square passed over at distances `lo` .. `hi - 1` is on the board and empty. */
  ghost predicate OpenPath(b: Board, o: Square, d: Offset, lo: int, hi: int) {
    forall j :: lo <= j < hi ==> OnBoard(Shift(o, d, j)) && Shift(o, d, j) !in b
  }

  /**
   * A slider of colour `c` on `o` reaches `s` along direction `d`: `s` is
   * some 1 to 7 steps away, every square before it is empty, and `s` does
   * not hold an own piece.
   */
  ghost predicate RayReaches(b: Board, c: Colour, o: Square, d: Offset, s: Square) {
    exists m :: 1 <= m <= 7 && s == Shift(o, d, m) && OnBoard(s) && OpenPath(b, o, d, 1, m) && !Holds(b, s, c)
  }

  /** A leaper of colour `c` on `o` reaches `s` with one of the offsets `offs`. */
  ghost predicate LeapReaches(b: Board, c: Colour, o: Square, offs: seq<Offset>, s: Square) {
    exists off :: off in offs && s == Shift(o, off, 1) && OnBoard(s) && !Holds(b, s, c)
  }

  /** A pawn of colour `c` on `o` reaches `s`: a free step, a free double step from its start row, or a capture. */
  ghost predicate PawnReaches(b: Board, c: Colour, o: Square, s: Square) {
    var f := Forward(c);
    OnBoard(s)
    && ((s == Square(o.row + f, o.col) && s !in b)
        || (o.row == StartRow(c) && s == Square(o.row + 2 * f, o.col) && Square(o.row + f, o.col) !in b && s !in b)
        || (s.row == o.row + f && (s.col == o.col - 1 || s.col == o.col + 1) && HoldsEnemy(b, s, c)))
  }

  /** The movement rule of each kind, as a relation between a start and a destination square. */
  ghost predicate Reaches(b: Board, p: Piece, o: Square, s: Square) {
    match p.kind
    case King => LeapReaches(b, p.colour, o, KingSteps, s)
    case Knight => LeapReaches(b, p.colour, o, KnightJumps, s)
    case Rook => exists d :: d in Orthogonals && RayReaches(b, p.colour, o, d, s)
    case Bishop => exists d :: d in Diagonals && RayReaches(b, p.colour, o, d, s)
    case Queen =>
      (exists d :: d in Orthogonals && RayReaches(b, p.colour, o, d, s))
      || (exists d :: d in Diagonals && RayReaches(b, p.colour, o, d, s))
    case Pawn => PawnReaches(b, p.colour, o, s)
  }

  /* ---------------------------------------------------------------------
   * The generators produce exactly the squares the rules allow.
   * ------------------------------------------------------------------- */

  lemma {:induction false} RayFromMembers(b: Board, c: Colour, o: Square, d: Offset, k: nat, s: Square)
    ensures s in RayFrom(b, c, o, d, k)
        <==> exists m :: k <= m <= 7 && s == Shift(o, d, m) && OnBoard(s) && OpenPath(b, o, d, k, m) && !Holds(b, s, c)
    decreases 8 - k
  {
    var r := RayFrom(b, c, o, d, k);
    if k > 7 {
    } else {
      var t := Shift(o, d, k);
      if !OnBoard(t) {
        forall m | k <= m <= 7 && s == Shift(o, d, m) && OnBoard(s) && OpenPath(b, o, d, k, m)
          ensures false
        {
        }
      } else if t !in b {
        RayFromMembers(b, c, o, d, k + 1, s);
        if s in r {
          if s == t {
            assert OpenPath(b, o, d, k, k);
          } else {
            var m :| k + 1 <= m <= 7 && s == Shift(o, d, m) && OnBoard(s) && OpenPath(b, o, d, k + 1, m) && !Holds(b, s, c);
            assert OpenPath(b, o, d, k, m);
          }
        } else {
          forall m | k <= m <= 7 && s == Shift(o, d, m) && OnBoard(s) && OpenPath(b, o, d, k, m) && !Holds(b, s, c)
            ensures false
          {
            assert m != k;
            assert OpenPath(b, o, d, k + 1, m);
          }
        }
      } else {
        forall m | k <= m <= 7 && s == Shift(o, d, m) && OnBoard(s) && OpenPath(b, o, d, k, m) && !Holds(b, s, c)
          ensures s == t
        {
        }
        if s in r {
          assert OpenPath(b, o, d, k, k);
        }
      }
    }
  }

  /** A ray holds exactly the squares a slider reaches in that direction. */
  lemma RayMembers(b: Board, c: Colour, o: Square, d: Offset, s: Square)
    ensures s in Ray(b, c, o, d) <==> RayReaches(b, c, o, d, s)
  {
    RayFromMembers(b, c, o, d, 1, s);
  }

  /** A concatenation of rays holds exactly the squares of its rays. */
  lemma {:induction false} RaysMembers(b: Board, c: Colour, o: Square, ds: seq<Offset>, s: Square)
    ensures s in Rays(b, c, o, ds) <==> exists d :: d in ds && RayReaches(b, c, o, d, s)
  {
    if ds != [] {
      RayMembers(b, c, o, ds[0], s);
      RaysMembers(b, c, o, ds[1..], s);
      if s in Rays(b, c, o, ds[1..]) {
        var d :| d in ds[1..] && RayReaches(b, c, o, d, s);
        assert d in ds;
      }
      forall d | d in ds && RayReaches(b, c, o, d, s)
        ensures s in Rays(b, c, o, ds)
      {
        if d != ds[0] {
          assert d in ds[1..];
        }
      }
    }
  }

  lemma {:induction false} LeapsFromMembers(b: Board, c: Colour, o: Square, offs: seq<Offset>, i: nat, s: Square)
    ensures s in LeapsFrom(b, c, o, offs, i)
        <==> exists j :: i <= j < |offs| && s == Shift(o, offs[j], 1) && OnBoard(s) && !Holds(b, s, c)
    decreases |offs| - i
  {
    if i < |offs| {
      LeapsFromMembers(b, c, o, offs, i + 1, s);
      if s in LeapsFrom(b, c, o, offs, i + 1) {
        var j :| i + 1 <= j < |offs| && s == Shift(o, offs[j], 1) && OnBoard(s) && !Holds(b, s, c);
      }
    }
  }

  /** The leaps hold exactly the on-board, not-own targets of the offsets. */
  lemma LeapsMembers(b: Board, c: Colour, o: Square, offs: seq<Offset>, s: Square)
    ensures s in Leaps(b, c, o, offs) <==> LeapReaches(b, c, o, offs, s)
  {
    LeapsFromMembers(b, c, o, offs, 0, s);
    if LeapReaches(b, c, o, offs, s) {
      var off :| off in offs && s == Shift(o, off, 1) && OnBoard(s) && !Holds(b, s, c);
      var j :| 0 <= j < |offs| && offs[j] == off;
    }
  }

  lemma PawnMovesMembers(b: Board, c: Colour, o: Square, s: Square)
    requires OnBoard(o)
    ensures s in PawnMoves(b, c, o) <==> PawnReaches(b, c, o, s)
  {
  }

  /** The source's `move` produces exactly the destinations the movement rule of the piece allows. */
  lemma MovesMatchRules(b: Board, p: Piece, o: Square, s: Square)
    requires OnBoard(o)
    ensures s in Moves(b, p, o) <==> Reaches(b, p, o, s)
  {
    match p.kind
    case King => LeapsMembers(b, p.colour, o, KingSteps, s);
    case Knight => LeapsMembers(b, p.colour, o, KnightJumps, s);
    case Rook => RaysMembers(b, p.colour, o, Orthogonals, s);
    case Bishop => RaysMembers(b, p.colour, o, Diagonals, s);
    case Queen =>
      RaysMembers(b, p.colour, o, Orthogonals, s);
      RaysMembers(b, p.colour, o, Diagonals, s);
    case Pawn => PawnMovesMembers(b, p.colour, o, s);
  }

  /** Generated destinations lie on the board and never hold a piece of the mover's colour. */
  lemma MovesStayOnBoard(b: Board, p: Piece, o: Square)
    requires OnBoard(o)
    ensures forall i :: 0 <= i < |Moves(b, p, o)| ==> OnBoard(Moves(b, p, o)[i]) && !Holds(b, Moves(b, p, o)[i], p.colour)
  {
    forall i | 0 <= i < |Moves(b, p, o)|
      ensures OnBoard(Moves(b, p, o)[i]) && !Holds(b, Moves(b, p, o)[i], p.colour)
    {
      MovesMatchRules(b, p, o, Moves(b, p, o)[i]);
    }
  }
}
