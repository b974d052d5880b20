/**
 * Pieces, colours and board coordinates shared by every other module.
 *
 * A square is a (row, column) pair; the playable squares have both
 * coordinates in [0, 7]. Row 7 is White's back rank and row 0 is Black's.
 */
module Pieces {

  /** A value that may be absent: an empty cell, a failed parse, an undefined ratio. */
  datatype Option<T> = None | Some(value: T)

  /** The two sides. The source encodes White as colour 0 and Black as colour 1. */
  datatype Colour = White | Black

  function Opponent(c: Colour): (r: Colour)
    ensures r != c
  {
    if c == White then Black else White
  }

  datatype Kind = King | Queen | Rook | Bishop | Knight | Pawn

  /**
   * A piece as the rules see it. The source's id and image path are
   * pass-through strings the rules never read, so they are not part of the value.
   */
  datatype Piece = Piece(kind: Kind, colour: Colour)

  datatype Square = Square(row: int, col: int)

  predicate OnBoard(s: Square) {
    0 <= s.row <= 7 && 0 <= s.col <= 7
  }

  /** A displacement: a ray direction, a knight jump or a king step. */
  datatype Offset = Offset(dr: int, dc: int)

  /** A coordinate `x` after `k` moves of `delta` each; a zero `delta` leaves it as it is. */
  function Advance(x: int, delta: int, k: int): int {
    if delta == 0 then x else x + k * delta
  }

  /** The square `k` displacements `d` away from `o`. */
  function Shift(o: Square, d: Offset, k: int): Square {
    Square(Advance(o.row, d.dr, k), Advance(o.col, d.dc, k))
  }

  /** A direction of a sliding piece: one of the eight compass steps. */
  predicate IsDirection(d: Offset) {
    -1 <= d.dr <= 1 && -1 <= d.dc <= 1 && (d.dr != 0 || d.dc != 0)
  }

  function Reverse(d: Offset): Offset {
    Offset(-d.dr, -d.dc)
  }

  /** Rook rays, scanned up, down, left, right. */
  const Orthogonals: seq<Offset> := [Offset(-1, 0), Offset(1, 0), Offset(0, -1), Offset(0, 1)]

  /** Bishop rays. */
  const Diagonals: seq<Offset> := [Offset(-1, 1), Offset(-1, -1), Offset(1, -1), Offset(1, 1)]

  /** The eight knight jumps. */
  const KnightJumps: seq<Offset> :=
    [Offset(1, -2), Offset(1, 2), Offset(2, -1), Offset(2, 1),
     Offset(-1, -2), Offset(-1, 2), Offset(-2, -1), Offset(-2, 1)]

  /** The eight king steps. */
  const KingSteps: seq<Offset> :=
    [Offset(0, -1), Offset(0, 1), Offset(1, -1), Offset(1, 0),
     Offset(1, 1), Offset(-1, -1), Offset(-1, 0), Offset(-1, 1)]

  /** The row step of a pawn of colour `c`: White moves toward row 0, Black toward row 7. */
  function Forward(c: Colour): int {
    if c == White then -1 else 1
  }

  /** The row from which a pawn of colour `c` may advance two squares. */
  function StartRow(c: Colour): int {
    if c == White then 6 else 1
  }
}
