/**
 * The board: which piece, if any, stands on each square. Every square of
 * the 8x8 grid is a cell; a cell without a piece is simply absent from the map.
 */
module Boards {
  import opened Pieces

  type Board = map<Square, Piece>

  /** The occupant of square `s`, as the source's `getpiece()` of that cell. */
  function At(b: Board, s: Square): Option<Piece> {
    if s in b then Some(b[s]) else None
  }

  /** Square `s` holds a piece of colour `c`. */
  predicate Holds(b: Board, s: Square, c: Colour) {
    s in b && b[s].colour == c
  }

  /** Square `s` holds a piece that is not of colour `c`. */
  predicate HoldsEnemy(b: Board, s: Square, c: Colour) {
    s in b && b[s].colour != c
  }

  /**
   * The board after the occupant of `from` (possibly nothing) is placed on
   * `to`, overwriting whatever stood there, and `from` is then cleared.
   * This is the simulation step of the legality filter.
   */
  function Relocate(b: Board, from: Square, to: Square): (r: Board)
    ensures At(r, from) == None
    ensures from != to ==> At(r, to) == At(b, from)
    ensures forall s :: s != from && s != to ==> At(r, s) == At(b, s)
  {
    var placed := if from in b then b[to := b[from]] else b - {to};
    placed - {from}
  }

  const EmptyBoard: Board := map[]

  /**
   * The opening position the game builds. Pawns fill rows 1 (Black) and
   * 6 (White); the back ranks hold rook, knight, bishop, king, queen,
   * bishop, knight, rook, so the king stands on column 3 and the queen on
   * column 4.
   */
  const BackRank: seq<Kind> := [Rook, Knight, Bishop, King, Queen, Bishop, Knight, Rook]

  function InitialOccupant(s: Square): Option<Piece> {
    if !OnBoard(s) then None
    else if s.row == 0 then Some(Piece(BackRank[s.col], Black))
    else if s.row == 1 then Some(Piece(Pawn, Black))
    else if s.row == 6 then Some(Piece(Pawn, White))
    else if s.row == 7 then Some(Piece(BackRank[s.col], White))
    else None
  }

  const InitialBoard: Board :=
    map[
      Square(0, 0) := Piece(Rook, Black), Square(0, 1) := Piece(Knight, Black),
      Square(0, 2) := Piece(Bishop, Black), Square(0, 3) := Piece(King, Black),
      Square(0, 4) := Piece(Queen, Black), Square(0, 5) := Piece(Bishop, Black),
      Square(0, 6) := Piece(Knight, Black), Square(0, 7) := Piece(Rook, Black),
      Square(1, 0) := Piece(Pawn, Black), Square(1, 1) := Piece(Pawn, Black),
      Square(1, 2) := Piece(Pawn, Black), Square(1, 3) := Piece(Pawn, Black),
      Square(1, 4) := Piece(Pawn, Black), Square(1, 5) := Piece(Pawn, Black),
      Square(1, 6) := Piece(Pawn, Black), Square(1, 7) := Piece(Pawn, Black),
      Square(6, 0) := Piece(Pawn, White), Square(6, 1) := Piece(Pawn, White),
      Square(6, 2) := Piece(Pawn, White), Square(6, 3) := Piece(Pawn, White),
      Square(6, 4) := Piece(Pawn, White), Square(6, 5) := Piece(Pawn, White),
      Square(6, 6) := Piece(Pawn, White), Square(6, 7) := Piece(Pawn, White),
      Square(7, 0) := Piece(Rook, White), Square(7, 1) := Piece(Knight, White),
      Square(7, 2) := Piece(Bishop, White), Square(7, 3) := Piece(King, White),
      Square(7, 4) := Piece(Queen, White), Square(7, 5) := Piece(Bishop, White),
      Square(7, 6) := Piece(Knight, White), Square(7, 7) := Piece(Rook, White)
    ]

  /**
   * The opening board holds, square by square, the occupant the layout
   * prescribes: the back ranks on rows 0 and 7, pawns on rows 1 and 6, and
   * nothing on any other square.
   */
  lemma InitialLayout(s: Square)
    ensures At(InitialBoard, s) == InitialOccupant(s)
  {
    if OnBoard(s) && (s.row == 0 || s.row == 7) {
      assert s.col in {0, 1, 2, 3, 4, 5, 6, 7};
    }
  }
}
