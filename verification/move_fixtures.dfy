/**
 * Move generation on the positions of the piece tests. Each fixture states
 * the full destination list, in generation order, for one position; the
 * tests compare the same squares as sets.
 */
module MoveFixtures {
  import opened Pieces
  import opened Boards
  import opened Movement

  /* ---------------------------------------------------------------------
   * Unfolding the direction tables one entry at a time.
   * ------------------------------------------------------------------- */

  lemma RaysCons(b: Board, c: Colour, o: Square, d: Offset, ds: seq<Offset>)
    ensures Rays(b, c, o, [d] + ds) == Ray(b, c, o, d) + Rays(b, c, o, ds)
  {
    assert ([d] + ds)[0] == d;
    assert ([d] + ds)[1..] == ds;
  }

  /** A slider's moves over four directions are its four rays, in table order. */
  lemma FourRays(b: Board, c: Colour, o: Square, ds: seq<Offset>)
    requires |ds| == 4
    ensures Rays(b, c, o, ds)
         == Ray(b, c, o, ds[0]) + (Ray(b, c, o, ds[1]) + (Ray(b, c, o, ds[2]) + Ray(b, c, o, ds[3])))
  {
    assert ds == [ds[0]] + ([ds[1]] + ([ds[2]] + ([ds[3]] + [])));
    RaysCons(b, c, o, ds[0], [ds[1]] + ([ds[2]] + ([ds[3]] + [])));
    RaysCons(b, c, o, ds[1], [ds[2]] + ([ds[3]] + []));
    RaysCons(b, c, o, ds[2], [ds[3]] + []);
    RaysCons(b, c, o, ds[3], []);
    assert Ray(b, c, o, ds[3]) + Rays(b, c, o, []) == Ray(b, c, o, ds[3]);
  }

  /** A queen's moves are its rook lines followed by its bishop lines. */
  lemma QueenLines(b: Board, c: Colour, o: Square, straight: seq<Square>, diagonal: seq<Square>, all: seq<Square>)
    requires OnBoard(o)
    requires Rays(b, c, o, Orthogonals) == straight && Rays(b, c, o, Diagonals) == diagonal
    requires straight + diagonal == all
    ensures Moves(b, Piece(Queen, c), o) == all
  {
  }

  /** White pawn on (6, 4), empty board: one and two steps. */
  lemma WhitePawnFromStart()
    ensures Moves(map[], Piece(Pawn, White), Square(6, 4))
         == [Square(5, 4), Square(4, 4)]
  {
  }

  /** Black pawn on (1, 4), empty board: one and two steps. */
  lemma BlackPawnFromStart()
    ensures Moves(map[], Piece(Pawn, Black), Square(1, 4))
         == [Square(2, 4), Square(3, 4)]
  {
  }

  /** White pawn on (4, 0): only the single step. */
  lemma WhitePawnLeftEdge()
    ensures Moves(map[], Piece(Pawn, White), Square(4, 0))
         == [Square(3, 0)]
  {
  }

  /** Black pawn on (4, 0): only the single step. */
  lemma BlackPawnLeftEdge()
    ensures Moves(map[], Piece(Pawn, Black), Square(4, 0))
         == [Square(5, 0)]
  {
  }

  /** White pawn on (4, 7): only the single step. */
  lemma WhitePawnRightEdge()
    ensures Moves(map[], Piece(Pawn, White), Square(4, 7))
         == [Square(3, 7)]
  {
  }

  /** Black pawn on (4, 7): only the single step. */
  lemma BlackPawnRightEdge()
    ensures Moves(map[], Piece(Pawn, Black), Square(4, 7))
         == [Square(5, 7)]
  {
  }

  /** White pawn on row 0 has no moves. */
  lemma WhitePawnAtEnd()
    ensures Moves(map[], Piece(Pawn, White), Square(0, 4))
         == []
  {
  }

  /** A piece on the double-step square leaves only the single step (White). */
  lemma WhitePawnDoubleBlocked()
    ensures Moves(map[Square(4, 4) := Piece(Pawn, Black)], Piece(Pawn, White), Square(6, 4))
         == [Square(5, 4)]
  {
  }

  /** A piece on the double-step square leaves only the single step (Black). */
  lemma BlackPawnDoubleBlocked()
    ensures Moves(map[Square(3, 4) := Piece(Pawn, White)], Piece(Pawn, Black), Square(1, 4))
         == [Square(2, 4)]
  {
  }

  /** Blocked ahead and own pieces on both diagonals: nothing (White). */
  lemma WhitePawnBlocked()
    ensures Moves(map[
           Square(3, 3) := Piece(Pawn, White), Square(3, 4) := Piece(Pawn, Black),
           Square(3, 5) := Piece(Pawn, White)
         ], Piece(Pawn, White), Square(4, 4))
         == []
  {
  }

  /** Blocked ahead and own pieces on both diagonals: nothing (Black). */
  lemma BlackPawnBlocked()
    ensures Moves(map[
           Square(4, 3) := Piece(Pawn, Black), Square(4, 4) := Piece(Pawn, White),
           Square(4, 5) := Piece(Pawn, Black)
         ], Piece(Pawn, Black), Square(3, 4))
         == []
  {
  }

  /** Both forward diagonals hold enemies (White). */
  lemma WhitePawnCaptures()
    ensures Moves(map[Square(3, 3) := Piece(Pawn, Black), Square(3, 5) := Piece(Pawn, Black)], Piece(Pawn, White), Square(4, 4))
         == [Square(3, 4), Square(3, 3), Square(3, 5)]
  {
  }

  /** Both forward diagonals hold enemies (Black). */
  lemma BlackPawnCaptures()
    ensures Moves(map[Square(4, 3) := Piece(Pawn, White), Square(4, 5) := Piece(Pawn, White)], Piece(Pawn, Black), Square(3, 4))
         == [Square(4, 4), Square(4, 3), Square(4, 5)]
  {
  }

  /** Only the left diagonal holds an enemy (White). */
  lemma WhitePawnLeftCapture()
    ensures Moves(map[Square(3, 3) := Piece(Pawn, Black)], Piece(Pawn, White), Square(4, 4))
         == [Square(3, 4), Square(3, 3)]
  {
  }

  /** Only the right diagonal holds an enemy (White). */
  lemma WhitePawnRightCapture()
    ensures Moves(map[Square(3, 5) := Piece(Pawn, Black)], Piece(Pawn, White), Square(4, 4))
         == [Square(3, 4), Square(3, 5)]
  {
  }

  /** Only the left diagonal holds an enemy (Black). */
  lemma BlackPawnLeftCapture()
    ensures Moves(map[Square(5, 3) := Piece(Pawn, White)], Piece(Pawn, Black), Square(4, 4))
         == [Square(5, 4), Square(5, 3)]
  {
  }

  /** Only the right diagonal holds an enemy (Black). */
  lemma BlackPawnRightCapture()
    ensures Moves(map[Square(5, 5) := Piece(Pawn, White)], Piece(Pawn, Black), Square(4, 4))
         == [Square(5, 4), Square(5, 5)]
  {
  }

  /** White pawn on (4, 4), empty board: a single step only. */
  lemma WhitePawnOffStart()
    ensures Moves(map[], Piece(Pawn, White), Square(4, 4))
         == [Square(3, 4)]
  {
  }

  lemma QueenCentreUp()
    ensures Ray(map[], White, Square(3, 3), Offset(-1, 0))
         == [Square(2, 3), Square(1, 3), Square(0, 3)]
  {
  }

  lemma QueenCentreDown()
    ensures Ray(map[], White, Square(3, 3), Offset(1, 0))
         == [Square(4, 3), Square(5, 3), Square(6, 3), Square(7, 3)]
  {
  }

  lemma QueenCentreLeft()
    ensures Ray(map[], White, Square(3, 3), Offset(0, -1))
         == [Square(3, 2), Square(3, 1), Square(3, 0)]
  {
  }

  lemma QueenCentreRight()
    ensures Ray(map[], White, Square(3, 3), Offset(0, 1))
         == [Square(3, 4), Square(3, 5), Square(3, 6), Square(3, 7)]
  {
  }

  lemma QueenCentreStraight()
    ensures Rays(map[], White, Square(3, 3), Orthogonals)
         == [Square(2, 3), Square(1, 3), Square(0, 3), Square(4, 3), Square(5, 3), Square(6, 3),
            Square(7, 3), Square(3, 2), Square(3, 1), Square(3, 0), Square(3, 4), Square(3, 5),
            Square(3, 6), Square(3, 7)]
  {
    FourRays(map[], White, Square(3, 3), Orthogonals);
    QueenCentreUp();
    QueenCentreDown();
    QueenCentreLeft();
    QueenCentreRight();
  }

  lemma QueenCentreUpRight()
    ensures Ray(map[], White, Square(3, 3), Offset(-1, 1))
         == [Square(2, 4), Square(1, 5), Square(0, 6)]
  {
  }

  lemma QueenCentreUpLeft()
    ensures Ray(map[], White, Square(3, 3), Offset(-1, -1))
         == [Square(2, 2), Square(1, 1), Square(0, 0)]
  {
  }

  lemma QueenCentreDownLeft()
    ensures Ray(map[], White, Square(3, 3), Offset(1, -1))
         == [Square(4, 2), Square(5, 1), Square(6, 0)]
  {
  }

  lemma QueenCentreDownRight()
    ensures Ray(map[], White, Square(3, 3), Offset(1, 1))
         == [Square(4, 4), Square(5, 5), Square(6, 6), Square(7, 7)]
  {
  }

  lemma QueenCentreDiagonal()
    ensures Rays(map[], White, Square(3, 3), Diagonals)
         == [Square(2, 4), Square(1, 5), Square(0, 6), Square(2, 2), Square(1, 1), Square(0, 0),
            Square(4, 2), Square(5, 1), Square(6, 0), Square(4, 4), Square(5, 5), Square(6, 6),
            Square(7, 7)]
  {
    FourRays(map[], White, Square(3, 3), Diagonals);
    QueenCentreUpRight();
    QueenCentreUpLeft();
    QueenCentreDownLeft();
    QueenCentreDownRight();
  }

  lemma QueenCentreJoined()
    ensures [Square(2, 3), Square(1, 3), Square(0, 3), Square(4, 3), Square(5, 3), Square(6, 3),
            Square(7, 3), Square(3, 2), Square(3, 1), Square(3, 0), Square(3, 4), Square(3, 5),
            Square(3, 6), Square(3, 7)]
         + [Square(2, 4), Square(1, 5), Square(0, 6), Square(2, 2), Square(1, 1), Square(0, 0),
            Square(4, 2), Square(5, 1), Square(6, 0), Square(4, 4), Square(5, 5), Square(6, 6),
            Square(7, 7)]
        == [Square(2, 3), Square(1, 3), Square(0, 3), Square(4, 3), Square(5, 3), Square(6, 3),
            Square(7, 3), Square(3, 2), Square(3, 1), Square(3, 0), Square(3, 4), Square(3, 5),
            Square(3, 6), Square(3, 7), Square(2, 4), Square(1, 5), Square(0, 6), Square(2, 2),
            Square(1, 1), Square(0, 0), Square(4, 2), Square(5, 1), Square(6, 0), Square(4, 4),
            Square(5, 5), Square(6, 6), Square(7, 7)]
  {
  }

  /** Queen on (3, 3), empty board: the 27 squares of its lines. */
  lemma QueenCentre()
    ensures Moves(map[], Piece(Queen, White), Square(3, 3))
         == [Square(2, 3), Square(1, 3), Square(0, 3), Square(4, 3), Square(5, 3), Square(6, 3),
            Square(7, 3), Square(3, 2), Square(3, 1), Square(3, 0), Square(3, 4), Square(3, 5),
            Square(3, 6), Square(3, 7), Square(2, 4), Square(1, 5), Square(0, 6), Square(2, 2),
            Square(1, 1), Square(0, 0), Square(4, 2), Square(5, 1), Square(6, 0), Square(4, 4),
            Square(5, 5), Square(6, 6), Square(7, 7)]
  {
    QueenCentreStraight();
    QueenCentreDiagonal();
    QueenCentreJoined();
    QueenLines(map[], White, Square(3, 3),
      [Square(2, 3), Square(1, 3), Square(0, 3), Square(4, 3), Square(5, 3), Square(6, 3),
       Square(7, 3), Square(3, 2), Square(3, 1), Square(3, 0), Square(3, 4), Square(3, 5),
       Square(3, 6), Square(3, 7)],
      [Square(2, 4), Square(1, 5), Square(0, 6), Square(2, 2), Square(1, 1), Square(0, 0),
       Square(4, 2), Square(5, 1), Square(6, 0), Square(4, 4), Square(5, 5), Square(6, 6),
       Square(7, 7)],
      [Square(2, 3), Square(1, 3), Square(0, 3), Square(4, 3), Square(5, 3), Square(6, 3),
       Square(7, 3), Square(3, 2), Square(3, 1), Square(3, 0), Square(3, 4), Square(3, 5),
       Square(3, 6), Square(3, 7), Square(2, 4), Square(1, 5), Square(0, 6), Square(2, 2),
       Square(1, 1), Square(0, 0), Square(4, 2), Square(5, 1), Square(6, 0), Square(4, 4),
       Square(5, 5), Square(6, 6), Square(7, 7)]);
  }

  lemma QueenEdgeUp()
    ensures Ray(map[], White, Square(0, 2), Offset(-1, 0))
         == []
  {
  }

  lemma QueenEdgeDown()
    ensures Ray(map[], White, Square(0, 2), Offset(1, 0))
         == [Square(1, 2), Square(2, 2), Square(3, 2), Square(4, 2), Square(5, 2), Square(6, 2),
            Square(7, 2)]
  {
  }

  lemma QueenEdgeLeft()
    ensures Ray(map[], White, Square(0, 2), Offset(0, -1))
         == [Square(0, 1), Square(0, 0)]
  {
  }

  lemma QueenEdgeRight()
    ensures Ray(map[], White, Square(0, 2), Offset(0, 1))
         == [Square(0, 3), Square(0, 4), Square(0, 5), Square(0, 6), Square(0, 7)]
  {
  }

  lemma QueenEdgeStraight()
    ensures Rays(map[], White, Square(0, 2), Orthogonals)
         == [Square(1, 2), Square(2, 2), Square(3, 2), Square(4, 2), Square(5, 2), Square(6, 2),
            Square(7, 2), Square(0, 1), Square(0, 0), Square(0, 3), Square(0, 4), Square(0, 5),
            Square(0, 6), Square(0, 7)]
  {
    FourRays(map[], White, Square(0, 2), Orthogonals);
    QueenEdgeUp();
    QueenEdgeDown();
    QueenEdgeLeft();
    QueenEdgeRight();
  }

  lemma QueenEdgeUpRight()
    ensures Ray(map[], White, Square(0, 2), Offset(-1, 1))
         == []
  {
  }

  lemma QueenEdgeUpLeft()
    ensures Ray(map[], White, Square(0, 2), Offset(-1, -1))
         == []
  {
  }

  lemma QueenEdgeDownLeft()
    ensures Ray(map[], White, Square(0, 2), Offset(1, -1))
         == [Square(1, 1), Square(2, 0)]
  {
  }

  lemma QueenEdgeDownRight()
    ensures Ray(map[], White, Square(0, 2), Offset(1, 1))
         == [Square(1, 3), Square(2, 4), Square(3, 5), Square(4, 6), Square(5, 7)]
  {
  }

  lemma QueenEdgeDiagonal()
    ensures Rays(map[], White, Square(0, 2), Diagonals)
         == [Square(1, 1), Square(2, 0), Square(1, 3), Square(2, 4), Square(3, 5), Square(4, 6),
            Square(5, 7)]
  {
    FourRays(map[], White, Square(0, 2), Diagonals);
    QueenEdgeUpRight();
    QueenEdgeUpLeft();
    QueenEdgeDownLeft();
    QueenEdgeDownRight();
  }

  lemma QueenEdgeJoined()
    ensures [Square(1, 2), Square(2, 2), Square(3, 2), Square(4, 2), Square(5, 2), Square(6, 2),
            Square(7, 2), Square(0, 1), Square(0, 0), Square(0, 3), Square(0, 4), Square(0, 5),
            Square(0, 6), Square(0, 7)]
         + [Square(1, 1), Square(2, 0), Square(1, 3), Square(2, 4), Square(3, 5), Square(4, 6),
            Square(5, 7)]
        == [Square(1, 2), Square(2, 2), Square(3, 2), Square(4, 2), Square(5, 2), Square(6, 2),
            Square(7, 2), Square(0, 1), Square(0, 0), Square(0, 3), Square(0, 4), Square(0, 5),
            Square(0, 6), Square(0, 7), Square(1, 1), Square(2, 0), Square(1, 3), Square(2, 4),
            Square(3, 5), Square(4, 6), Square(5, 7)]
  {
  }

  /** Queen on (0, 2): 21 squares. */
  lemma QueenEdge()
    ensures Moves(map[], Piece(Queen, White), Square(0, 2))
         == [Square(1, 2), Square(2, 2), Square(3, 2), Square(4, 2), Square(5, 2), Square(6, 2),
            Square(7, 2), Square(0, 1), Square(0, 0), Square(0, 3), Square(0, 4), Square(0, 5),
            Square(0, 6), Square(0, 7), Square(1, 1), Square(2, 0), Square(1, 3), Square(2, 4),
            Square(3, 5), Square(4, 6), Square(5, 7)]
  {
    QueenEdgeStraight();
    QueenEdgeDiagonal();
    QueenEdgeJoined();
    QueenLines(map[], White, Square(0, 2),
      [Square(1, 2), Square(2, 2), Square(3, 2), Square(4, 2), Square(5, 2), Square(6, 2),
       Square(7, 2), Square(0, 1), Square(0, 0), Square(0, 3), Square(0, 4), Square(0, 5),
       Square(0, 6), Square(0, 7)],
      [Square(1, 1), Square(2, 0), Square(1, 3), Square(2, 4), Square(3, 5), Square(4, 6),
       Square(5, 7)],
      [Square(1, 2), Square(2, 2), Square(3, 2), Square(4, 2), Square(5, 2), Square(6, 2),
       Square(7, 2), Square(0, 1), Square(0, 0), Square(0, 3), Square(0, 4), Square(0, 5),
       Square(0, 6), Square(0, 7), Square(1, 1), Square(2, 0), Square(1, 3), Square(2, 4),
       Square(3, 5), Square(4, 6), Square(5, 7)]);
  }

  lemma QueenCornerUp()
    ensures Ray(map[], White, Square(7, 0), Offset(-1, 0))
         == [Square(6, 0), Square(5, 0), Square(4, 0), Square(3, 0), Square(2, 0), Square(1, 0),
            Square(0, 0)]
  {
  }

  lemma QueenCornerDown()
    ensures Ray(map[], White, Square(7, 0), Offset(1, 0))
         == []
  {
  }

  lemma QueenCornerLeft()
    ensures Ray(map[], White, Square(7, 0), Offset(0, -1))
         == []
  {
  }

  lemma QueenCornerRight()
    ensures Ray(map[], White, Square(7, 0), Offset(0, 1))
         == [Square(7, 1), Square(7, 2), Square(7, 3), Square(7, 4), Square(7, 5), Square(7, 6),
            Square(7, 7)]
  {
  }

  lemma QueenCornerStraight()
    ensures Rays(map[], White, Square(7, 0), Orthogonals)
         == [Square(6, 0), Square(5, 0), Square(4, 0), Square(3, 0), Square(2, 0), Square(1, 0),
            Square(0, 0), Square(7, 1), Square(7, 2), Square(7, 3), Square(7, 4), Square(7, 5),
            Square(7, 6), Square(7, 7)]
  {
    FourRays(map[], White, Square(7, 0), Orthogonals);
    QueenCornerUp();
    QueenCornerDown();
    QueenCornerLeft();
    QueenCornerRight();
  }

  lemma QueenCornerUpRight()
    ensures Ray(map[], White, Square(7, 0), Offset(-1, 1))
         == [Square(6, 1), Square(5, 2), Square(4, 3), Square(3, 4), Square(2, 5), Square(1, 6),
            Square(0, 7)]
  {
  }

  lemma QueenCornerUpLeft()
    ensures Ray(map[], White, Square(7, 0), Offset(-1, -1))
         == []
  {
  }

  lemma QueenCornerDownLeft()
    ensures Ray(map[], White, Square(7, 0), Offset(1, -1))
         == []
  {
  }

  lemma QueenCornerDownRight()
    ensures Ray(map[], White, Square(7, 0), Offset(1, 1))
         == []
  {
  }

  lemma QueenCornerDiagonal()
    ensures Rays(map[], White, Square(7, 0), Diagonals)
         == [Square(6, 1), Square(5, 2), Square(4, 3), Square(3, 4), Square(2, 5), Square(1, 6),
            Square(0, 7)]
  {
    FourRays(map[], White, Square(7, 0), Diagonals);
    QueenCornerUpRight();
    QueenCornerUpLeft();
    QueenCornerDownLeft();
    QueenCornerDownRight();
  }

  lemma QueenCornerJoined()
    ensures [Square(6, 0), Square(5, 0), Square(4, 0), Square(3, 0), Square(2, 0), Square(1, 0),
            Square(0, 0), Square(7, 1), Square(7, 2), Square(7, 3), Square(7, 4), Square(7, 5),
            Square(7, 6), Square(7, 7)]
         + [Square(6, 1), Square(5, 2), Square(4, 3), Square(3, 4), Square(2, 5), Square(1, 6),
            Square(0, 7)]
        == [Square(6, 0), Square(5, 0), Square(4, 0), Square(3, 0), Square(2, 0), Square(1, 0),
            Square(0, 0), Square(7, 1), Square(7, 2), Square(7, 3), Square(7, 4), Square(7, 5),
            Square(7, 6), Square(7, 7), Square(6, 1), Square(5, 2), Square(4, 3), Square(3, 4),
            Square(2, 5), Square(1, 6), Square(0, 7)]
  {
  }

  /** Queen on (7, 0): 21 squares. */
  lemma QueenCorner()
    ensures Moves(map[], Piece(Queen, White), Square(7, 0))
         == [Square(6, 0), Square(5, 0), Square(4, 0), Square(3, 0), Square(2, 0), Square(1, 0),
            Square(0, 0), Square(7, 1), Square(7, 2), Square(7, 3), Square(7, 4), Square(7, 5),
            Square(7, 6), Square(7, 7), Square(6, 1), Square(5, 2), Square(4, 3), Square(3, 4),
            Square(2, 5), Square(1, 6), Square(0, 7)]
  {
    QueenCornerStraight();
    QueenCornerDiagonal();
    QueenCornerJoined();
    QueenLines(map[], White, Square(7, 0),
      [Square(6, 0), Square(5, 0), Square(4, 0), Square(3, 0), Square(2, 0), Square(1, 0),
       Square(0, 0), Square(7, 1), Square(7, 2), Square(7, 3), Square(7, 4), Square(7, 5),
       Square(7, 6), Square(7, 7)],
      [Square(6, 1), Square(5, 2), Square(4, 3), Square(3, 4), Square(2, 5), Square(1, 6),
       Square(0, 7)],
      [Square(6, 0), Square(5, 0), Square(4, 0), Square(3, 0), Square(2, 0), Square(1, 0),
       Square(0, 0), Square(7, 1), Square(7, 2), Square(7, 3), Square(7, 4), Square(7, 5),
       Square(7, 6), Square(7, 7), Square(6, 1), Square(5, 2), Square(4, 3), Square(3, 4),
       Square(2, 5), Square(1, 6), Square(0, 7)]);
  }

  lemma QueenBlockedUp()
    ensures Ray(map[
           Square(1, 0) := Piece(Pawn, White), Square(1, 2) := Piece(Knight, White),
           Square(2, 2) := Piece(Bishop, White), Square(3, 1) := Piece(Rook, White),
           Square(3, 2) := Piece(Pawn, White)
         ], White, Square(2, 1), Offset(-1, 0))
         == [Square(1, 1), Square(0, 1)]
  {
  }

  lemma QueenBlockedDown()
    ensures Ray(map[
           Square(1, 0) := Piece(Pawn, White), Square(1, 2) := Piece(Knight, White),
           Square(2, 2) := Piece(Bishop, White), Square(3, 1) := Piece(Rook, White),
           Square(3, 2) := Piece(Pawn, White)
         ], White, Square(2, 1), Offset(1, 0))
         == []
  {
  }

  lemma QueenBlockedLeft()
    ensures Ray(map[
           Square(1, 0) := Piece(Pawn, White), Square(1, 2) := Piece(Knight, White),
           Square(2, 2) := Piece(Bishop, White), Square(3, 1) := Piece(Rook, White),
           Square(3, 2) := Piece(Pawn, White)
         ], White, Square(2, 1), Offset(0, -1))
         == [Square(2, 0)]
  {
  }

  lemma QueenBlockedRight()
    ensures Ray(map[
           Square(1, 0) := Piece(Pawn, White), Square(1, 2) := Piece(Knight, White),
           Square(2, 2) := Piece(Bishop, White), Square(3, 1) := Piece(Rook, White),
           Square(3, 2) := Piece(Pawn, White)
         ], White, Square(2, 1), Offset(0, 1))
         == []
  {
  }

  lemma QueenBlockedStraight()
    ensures Rays(map[
           Square(1, 0) := Piece(Pawn, White), Square(1, 2) := Piece(Knight, White),
           Square(2, 2) := Piece(Bishop, White), Square(3, 1) := Piece(Rook, White),
           Square(3, 2) := Piece(Pawn, White)
         ], White, Square(2, 1), Orthogonals)
         == [Square(1, 1), Square(0, 1), Square(2, 0)]
  {
    FourRays(map[
      Square(1, 0) := Piece(Pawn, White), Square(1, 2) := Piece(Knight, White),
      Square(2, 2) := Piece(Bishop, White), Square(3, 1) := Piece(Rook, White),
      Square(3, 2) := Piece(Pawn, White)
    ], White, Square(2, 1), Orthogonals);
    QueenBlockedUp();
    QueenBlockedDown();
    QueenBlockedLeft();
    QueenBlockedRight();
  }

  lemma QueenBlockedUpRight()
    ensures Ray(map[
           Square(1, 0) := Piece(Pawn, White), Square(1, 2) := Piece(Knight, White),
           Square(2, 2) := Piece(Bishop, White), Square(3, 1) := Piece(Rook, White),
           Square(3, 2) := Piece(Pawn, White)
         ], White, Square(2, 1), Offset(-1, 1))
         == []
  {
  }

  lemma QueenBlockedUpLeft()
    ensures Ray(map[
           Square(1, 0) := Piece(Pawn, White), Square(1, 2) := Piece(Knight, White),
           Square(2, 2) := Piece(Bishop, White), Square(3, 1) := Piece(Rook, White),
           Square(3, 2) := Piece(Pawn, White)
         ], White, Square(2, 1), Offset(-1, -1))
         == []
  {
  }

  lemma QueenBlockedDownLeft()
    ensures Ray(map[
           Square(1, 0) := Piece(Pawn, White), Square(1, 2) := Piece(Knight, White),
           Square(2, 2) := Piece(Bishop, White), Square(3, 1) := Piece(Rook, White),
           Square(3, 2) := Piece(Pawn, White)
         ], White, Square(2, 1), Offset(1, -1))
         == [Square(3, 0)]
  {
  }

  lemma QueenBlockedDownRight()
    ensures Ray(map[
           Square(1, 0) := Piece(Pawn, White), Square(1, 2) := Piece(Knight, White),
           Square(2, 2) := Piece(Bishop, White), Square(3, 1) := Piece(Rook, White),
           Square(3, 2) := Piece(Pawn, White)
         ], White, Square(2, 1), Offset(1, 1))
         == []
  {
  }

  lemma QueenBlockedDiagonal()
    ensures Rays(map[
           Square(1, 0) := Piece(Pawn, White), Square(1, 2) := Piece(Knight, White),
           Square(2, 2) := Piece(Bishop, White), Square(3, 1) := Piece(Rook, White),
           Square(3, 2) := Piece(Pawn, White)
         ], White, Square(2, 1), Diagonals)
         == [Square(3, 0)]
  {
    FourRays(map[
      Square(1, 0) := Piece(Pawn, White), Square(1, 2) := Piece(Knight, White),
      Square(2, 2) := Piece(Bishop, White), Square(3, 1) := Piece(Rook, White),
      Square(3, 2) := Piece(Pawn, White)
    ], White, Square(2, 1), Diagonals);
    QueenBlockedUpRight();
    QueenBlockedUpLeft();
    QueenBlockedDownLeft();
    QueenBlockedDownRight();
  }

  lemma QueenBlockedJoined()
    ensures [Square(1, 1), Square(0, 1), Square(2, 0)]
         + [Square(3, 0)]
        == [Square(1, 1), Square(0, 1), Square(2, 0), Square(3, 0)]
  {
  }

  /** Own pieces end rays and are excluded. */
  lemma QueenBlocked()
    ensures Moves(map[
           Square(1, 0) := Piece(Pawn, White), Square(1, 2) := Piece(Knight, White),
           Square(2, 2) := Piece(Bishop, White), Square(3, 1) := Piece(Rook, White),
           Square(3, 2) := Piece(Pawn, White)
         ], Piece(Queen, White), Square(2, 1))
         == [Square(1, 1), Square(0, 1), Square(2, 0), Square(3, 0)]
  {
    QueenBlockedStraight();
    QueenBlockedDiagonal();
    QueenBlockedJoined();
    QueenLines(map[
      Square(1, 0) := Piece(Pawn, White), Square(1, 2) := Piece(Knight, White),
      Square(2, 2) := Piece(Bishop, White), Square(3, 1) := Piece(Rook, White),
      Square(3, 2) := Piece(Pawn, White)
    ], White, Square(2, 1),
      [Square(1, 1), Square(0, 1), Square(2, 0)],
      [Square(3, 0)],
      [Square(1, 1), Square(0, 1), Square(2, 0), Square(3, 0)]);
  }

  lemma QueenSurroundedUp()
    ensures Ray(map[
           Square(3, 0) := Piece(Pawn, White), Square(3, 1) := Piece(Pawn, White),
           Square(3, 2) := Piece(Rook, White), Square(4, 0) := Piece(Bishop, White),
           Square(4, 2) := Piece(Pawn, White), Square(5, 0) := Piece(Pawn, White),
           Square(5, 1) := Piece(Knight, White), Square(5, 2) := Piece(Pawn, White)
         ], White, Square(4, 1), Offset(-1, 0))
         == []
  {
  }

  lemma QueenSurroundedDown()
    ensures Ray(map[
           Square(3, 0) := Piece(Pawn, White), Square(3, 1) := Piece(Pawn, White),
           Square(3, 2) := Piece(Rook, White), Square(4, 0) := Piece(Bishop, White),
           Square(4, 2) := Piece(Pawn, White), Square(5, 0) := Piece(Pawn, White),
           Square(5, 1) := Piece(Knight, White), Square(5, 2) := Piece(Pawn, White)
         ], White, Square(4, 1), Offset(1, 0))
         == []
  {
  }

  lemma QueenSurroundedLeft()
    ensures Ray(map[
           Square(3, 0) := Piece(Pawn, White), Square(3, 1) := Piece(Pawn, White),
           Square(3, 2) := Piece(Rook, White), Square(4, 0) := Piece(Bishop, White),
           Square(4, 2) := Piece(Pawn, White), Square(5, 0) := Piece(Pawn, White),
           Square(5, 1) := Piece(Knight, White), Square(5, 2) := Piece(Pawn, White)
         ], White, Square(4, 1), Offset(0, -1))
         == []
  {
  }

  lemma QueenSurroundedRight()
    ensures Ray(map[
           Square(3, 0) := Piece(Pawn, White), Square(3, 1) := Piece(Pawn, White),
           Square(3, 2) := Piece(Rook, White), Square(4, 0) := Piece(Bishop, White),
           Square(4, 2) := Piece(Pawn, White), Square(5, 0) := Piece(Pawn, White),
           Square(5, 1) := Piece(Knight, White), Square(5, 2) := Piece(Pawn, White)
         ], White, Square(4, 1), Offset(0, 1))
         == []
  {
  }

  lemma QueenSurroundedStraight()
    ensures Rays(map[
           Square(3, 0) := Piece(Pawn, White), Square(3, 1) := Piece(Pawn, White),
           Square(3, 2) := Piece(Rook, White), Square(4, 0) := Piece(Bishop, White),
           Square(4, 2) := Piece(Pawn, White), Square(5, 0) := Piece(Pawn, White),
           Square(5, 1) := Piece(Knight, White), Square(5, 2) := Piece(Pawn, White)
         ], White, Square(4, 1), Orthogonals)
         == []
  {
    FourRays(map[
      Square(3, 0) := Piece(Pawn, White), Square(3, 1) := Piece(Pawn, White),
      Square(3, 2) := Piece(Rook, White), Square(4, 0) := Piece(Bishop, White),
      Square(4, 2) := Piece(Pawn, White), Square(5, 0) := Piece(Pawn, White),
      Square(5, 1) := Piece(Knight, White), Square(5, 2) := Piece(Pawn, White)
    ], White, Square(4, 1), Orthogonals);
    QueenSurroundedUp();
    QueenSurroundedDown();
    QueenSurroundedLeft();
    QueenSurroundedRight();
  }

  lemma QueenSurroundedUpRight()
    ensures Ray(map[
           Square(3, 0) := Piece(Pawn, White), Square(3, 1) := Piece(Pawn, White),
           Square(3, 2) := Piece(Rook, White), Square(4, 0) := Piece(Bishop, White),
           Square(4, 2) := Piece(Pawn, White), Square(5, 0) := Piece(Pawn, White),
           Square(5, 1) := Piece(Knight, White), Square(5, 2) := Piece(Pawn, White)
         ], White, Square(4, 1), Offset(-1, 1))
         == []
  {
  }

  lemma QueenSurroundedUpLeft()
    ensures Ray(map[
           Square(3, 0) := Piece(Pawn, White), Square(3, 1) := Piece(Pawn, White),
           Square(3, 2) := Piece(Rook, White), Square(4, 0) := Piece(Bishop, White),
           Square(4, 2) := Piece(Pawn, White), Square(5, 0) := Piece(Pawn, White),
           Square(5, 1) := Piece(Knight, White), Square(5, 2) := Piece(Pawn, White)
         ], White, Square(4, 1), Offset(-1, -1))
         == []
  {
  }

  lemma QueenSurroundedDownLeft()
    ensures Ray(map[
           Square(3, 0) := Piece(Pawn, White), Square(3, 1) := Piece(Pawn, White),
           Square(3, 2) := Piece(Rook, White), Square(4, 0) := Piece(Bishop, White),
           Square(4, 2) := Piece(Pawn, White), Square(5, 0) := Piece(Pawn, White),
           Square(5, 1) := Piece(Knight, White), Square(5, 2) := Piece(Pawn, White)
         ], White, Square(4, 1), Offset(1, -1))
         == []
  {
  }

  lemma QueenSurroundedDownRight()
    ensures Ray(map[
           Square(3, 0) := Piece(Pawn, White), Square(3, 1) := Piece(Pawn, White),
           Square(3, 2) := Piece(Rook, White), Square(4, 0) := Piece(Bishop, White),
           Square(4, 2) := Piece(Pawn, White), Square(5, 0) := Piece(Pawn, White),
           Square(5, 1) := Piece(Knight, White), Square(5, 2) := Piece(Pawn, White)
         ], White, Square(4, 1), Offset(1, 1))
         == []
  {
  }

  lemma QueenSurroundedDiagonal()
    ensures Rays(map[
           Square(3, 0) := Piece(Pawn, White), Square(3, 1) := Piece(Pawn, White),
           Square(3, 2) := Piece(Rook, White), Square(4, 0) := Piece(Bishop, White),
           Square(4, 2) := Piece(Pawn, White), Square(5, 0) := Piece(Pawn, White),
           Square(5, 1) := Piece(Knight, White), Square(5, 2) := Piece(Pawn, White)
         ], White, Square(4, 1), Diagonals)
         == []
  {
    FourRays(map[
      Square(3, 0) := Piece(Pawn, White), Square(3, 1) := Piece(Pawn, White),
      Square(3, 2) := Piece(Rook, White), Square(4, 0) := Piece(Bishop, White),
      Square(4, 2) := Piece(Pawn, White), Square(5, 0) := Piece(Pawn, White),
      Square(5, 1) := Piece(Knight, White), Square(5, 2) := Piece(Pawn, White)
    ], White, Square(4, 1), Diagonals);
    QueenSurroundedUpRight();
    QueenSurroundedUpLeft();
    QueenSurroundedDownLeft();
    QueenSurroundedDownRight();
  }

  /** Surrounded by own pieces: nothing. */
  lemma QueenSurrounded()
    ensures Moves(map[
           Square(3, 0) := Piece(Pawn, White), Square(3, 1) := Piece(Pawn, White),
           Square(3, 2) := Piece(Rook, White), Square(4, 0) := Piece(Bishop, White),
           Square(4, 2) := Piece(Pawn, White), Square(5, 0) := Piece(Pawn, White),
           Square(5, 1) := Piece(Knight, White), Square(5, 2) := Piece(Pawn, White)
         ], Piece(Queen, White), Square(4, 1))
         == []
  {
    QueenSurroundedStraight();
    QueenSurroundedDiagonal();
  }

  lemma QueenOneCaptureUp()
    ensures Ray(map[Square(3, 1) := Piece(Pawn, Black)], White, Square(3, 3), Offset(-1, 0))
         == [Square(2, 3), Square(1, 3), Square(0, 3)]
  {
  }

  lemma QueenOneCaptureDown()
    ensures Ray(map[Square(3, 1) := Piece(Pawn, Black)], White, Square(3, 3), Offset(1, 0))
         == [Square(4, 3), Square(5, 3), Square(6, 3), Square(7, 3)]
  {
  }

  lemma QueenOneCaptureLeft()
    ensures Ray(map[Square(3, 1) := Piece(Pawn, Black)], White, Square(3, 3), Offset(0, -1))
         == [Square(3, 2), Square(3, 1)]
  {
  }

  lemma QueenOneCaptureRight()
    ensures Ray(map[Square(3, 1) := Piece(Pawn, Black)], White, Square(3, 3), Offset(0, 1))
         == [Square(3, 4), Square(3, 5), Square(3, 6), Square(3, 7)]
  {
  }

  lemma QueenOneCaptureStraight()
    ensures Rays(map[Square(3, 1) := Piece(Pawn, Black)], White, Square(3, 3), Orthogonals)
         == [Square(2, 3), Square(1, 3), Square(0, 3), Square(4, 3), Square(5, 3), Square(6, 3),
            Square(7, 3), Square(3, 2), Square(3, 1), Square(3, 4), Square(3, 5), Square(3, 6),
            Square(3, 7)]
  {
    FourRays(map[Square(3, 1) := Piece(Pawn, Black)], White, Square(3, 3), Orthogonals);
    QueenOneCaptureUp();
    QueenOneCaptureDown();
    QueenOneCaptureLeft();
    QueenOneCaptureRight();
  }

  lemma QueenOneCaptureUpRight()
    ensures Ray(map[Square(3, 1) := Piece(Pawn, Black)], White, Square(3, 3), Offset(-1, 1))
         == [Square(2, 4), Square(1, 5), Square(0, 6)]
  {
  }

  lemma QueenOneCaptureUpLeft()
    ensures Ray(map[Square(3, 1) := Piece(Pawn, Black)], White, Square(3, 3), Offset(-1, -1))
         == [Square(2, 2), Square(1, 1), Square(0, 0)]
  {
  }

  lemma QueenOneCaptureDownLeft()
    ensures Ray(map[Square(3, 1) := Piece(Pawn, Black)], White, Square(3, 3), Offset(1, -1))
         == [Square(4, 2), Square(5, 1), Square(6, 0)]
  {
  }

  lemma QueenOneCaptureDownRight()
    ensures Ray(map[Square(3, 1) := Piece(Pawn, Black)], White, Square(3, 3), Offset(1, 1))
         == [Square(4, 4), Square(5, 5), Square(6, 6), Square(7, 7)]
  {
  }

  lemma QueenOneCaptureDiagonal()
    ensures Rays(map[Square(3, 1) := Piece(Pawn, Black)], White, Square(3, 3), Diagonals)
         == [Square(2, 4), Square(1, 5), Square(0, 6), Square(2, 2), Square(1, 1), Square(0, 0),
            Square(4, 2), Square(5, 1), Square(6, 0), Square(4, 4), Square(5, 5), Square(6, 6),
            Square(7, 7)]
  {
    FourRays(map[Square(3, 1) := Piece(Pawn, Black)], White, Square(3, 3), Diagonals);
    QueenOneCaptureUpRight();
    QueenOneCaptureUpLeft();
    QueenOneCaptureDownLeft();
    QueenOneCaptureDownRight();
  }

  lemma QueenOneCaptureJoined()
    ensures [Square(2, 3), Square(1, 3), Square(0, 3), Square(4, 3), Square(5, 3), Square(6, 3),
            Square(7, 3), Square(3, 2), Square(3, 1), Square(3, 4), Square(3, 5), Square(3, 6),
            Square(3, 7)]
         + [Square(2, 4), Square(1, 5), Square(0, 6), Square(2, 2), Square(1, 1), Square(0, 0),
            Square(4, 2), Square(5, 1), Square(6, 0), Square(4, 4), Square(5, 5), Square(6, 6),
            Square(7, 7)]
        == [Square(2, 3), Square(1, 3), Square(0, 3), Square(4, 3), Square(5, 3), Square(6, 3),
            Square(7, 3), Square(3, 2), Square(3, 1), Square(3, 4), Square(3, 5), Square(3, 6),
            Square(3, 7), Square(2, 4), Square(1, 5), Square(0, 6), Square(2, 2), Square(1, 1),
            Square(0, 0), Square(4, 2), Square(5, 1), Square(6, 0), Square(4, 4), Square(5, 5),
            Square(6, 6), Square(7, 7)]
  {
  }

  /** One enemy on a ray is kept and ends it. */
  lemma QueenOneCapture()
    ensures Moves(map[Square(3, 1) := Piece(Pawn, Black)], Piece(Queen, White), Square(3, 3))
         == [Square(2, 3), Square(1, 3), Square(0, 3), Square(4, 3), Square(5, 3), Square(6, 3),
            Square(7, 3), Square(3, 2), Square(3, 1), Square(3, 4), Square(3, 5), Square(3, 6),
            Square(3, 7), Square(2, 4), Square(1, 5), Square(0, 6), Square(2, 2), Square(1, 1),
            Square(0, 0), Square(4, 2), Square(5, 1), Square(6, 0), Square(4, 4), Square(5, 5),
            Square(6, 6), Square(7, 7)]
  {
    QueenOneCaptureStraight();
    QueenOneCaptureDiagonal();
    QueenOneCaptureJoined();
    QueenLines(map[Square(3, 1) := Piece(Pawn, Black)], White, Square(3, 3),
      [Square(2, 3), Square(1, 3), Square(0, 3), Square(4, 3), Square(5, 3), Square(6, 3),
       Square(7, 3), Square(3, 2), Square(3, 1), Square(3, 4), Square(3, 5), Square(3, 6),
       Square(3, 7)],
      [Square(2, 4), Square(1, 5), Square(0, 6), Square(2, 2), Square(1, 1), Square(0, 0),
       Square(4, 2), Square(5, 1), Square(6, 0), Square(4, 4), Square(5, 5), Square(6, 6),
       Square(7, 7)],
      [Square(2, 3), Square(1, 3), Square(0, 3), Square(4, 3), Square(5, 3), Square(6, 3),
       Square(7, 3), Square(3, 2), Square(3, 1), Square(3, 4), Square(3, 5), Square(3, 6),
       Square(3, 7), Square(2, 4), Square(1, 5), Square(0, 6), Square(2, 2), Square(1, 1),
       Square(0, 0), Square(4, 2), Square(5, 1), Square(6, 0), Square(4, 4), Square(5, 5),
       Square(6, 6), Square(7, 7)]);
  }

  lemma QueenCapturesUp()
    ensures Ray(map[
           Square(0, 0) := Piece(Pawn, Black), Square(1, 5) := Piece(Pawn, Black),
           Square(2, 3) := Piece(Rook, Black), Square(3, 5) := Piece(Bishop, Black),
           Square(4, 4) := Piece(Pawn, Black), Square(5, 1) := Piece(Knight, Black),
           Square(5, 3) := Piece(Knight, Black)
         ], White, Square(3, 3), Offset(-1, 0))
         == [Square(2, 3)]
  {
  }

  lemma QueenCapturesDown()
    ensures Ray(map[
           Square(0, 0) := Piece(Pawn, Black), Square(1, 5) := Piece(Pawn, Black),
           Square(2, 3) := Piece(Rook, Black), Square(3, 5) := Piece(Bishop, Black),
           Square(4, 4) := Piece(Pawn, Black), Square(5, 1) := Piece(Knight, Black),
           Square(5, 3) := Piece(Knight, Black)
         ], White, Square(3, 3), Offset(1, 0))
         == [Square(4, 3), Square(5, 3)]
  {
  }

  lemma QueenCapturesLeft()
    ensures Ray(map[
           Square(0, 0) := Piece(Pawn, Black), Square(1, 5) := Piece(Pawn, Black),
           Square(2, 3) := Piece(Rook, Black), Square(3, 5) := Piece(Bishop, Black),
           Square(4, 4) := Piece(Pawn, Black), Square(5, 1) := Piece(Knight, Black),
           Square(5, 3) := Piece(Knight, Black)
         ], White, Square(3, 3), Offset(0, -1))
         == [Square(3, 2), Square(3, 1), Square(3, 0)]
  {
  }

  lemma QueenCapturesRight()
    ensures Ray(map[
           Square(0, 0) := Piece(Pawn, Black), Square(1, 5) := Piece(Pawn, Black),
           Square(2, 3) := Piece(Rook, Black), Square(3, 5) := Piece(Bishop, Black),
           Square(4, 4) := Piece(Pawn, Black), Square(5, 1) := Piece(Knight, Black),
           Square(5, 3) := Piece(Knight, Black)
         ], White, Square(3, 3), Offset(0, 1))
         == [Square(3, 4), Square(3, 5)]
  {
  }

  lemma QueenCapturesStraight()
    ensures Rays(map[
           Square(0, 0) := Piece(Pawn, Black), Square(1, 5) := Piece(Pawn, Black),
           Square(2, 3) := Piece(Rook, Black), Square(3, 5) := Piece(Bishop, Black),
           Square(4, 4) := Piece(Pawn, Black), Square(5, 1) := Piece(Knight, Black),
           Square(5, 3) := Piece(Knight, Black)
         ], White, Square(3, 3), Orthogonals)
         == [Square(2, 3), Square(4, 3), Square(5, 3), Square(3, 2), Square(3, 1), Square(3, 0),
            Square(3, 4), Square(3, 5)]
  {
    FourRays(map[
      Square(0, 0) := Piece(Pawn, Black), Square(1, 5) := Piece(Pawn, Black),
      Square(2, 3) := Piece(Rook, Black), Square(3, 5) := Piece(Bishop, Black),
      Square(4, 4) := Piece(Pawn, Black), Square(5, 1) := Piece(Knight, Black),
      Square(5, 3) := Piece(Knight, Black)
    ], White, Square(3, 3), Orthogonals);
    QueenCapturesUp();
    QueenCapturesDown();
    QueenCapturesLeft();
    QueenCapturesRight();
  }

  lemma QueenCapturesUpRight()
    ensures Ray(map[
           Square(0, 0) := Piece(Pawn, Black), Square(1, 5) := Piece(Pawn, Black),
           Square(2, 3) := Piece(Rook, Black), Square(3, 5) := Piece(Bishop, Black),
           Square(4, 4) := Piece(Pawn, Black), Square(5, 1) := Piece(Knight, Black),
           Square(5, 3) := Piece(Knight, Black)
         ], White, Square(3, 3), Offset(-1, 1))
         == [Square(2, 4), Square(1, 5)]
  {
  }

  lemma QueenCapturesUpLeft()
    ensures Ray(map[
           Square(0, 0) := Piece(Pawn, Black), Square(1, 5) := Piece(Pawn, Black),
           Square(2, 3) := Piece(Rook, Black), Square(3, 5) := Piece(Bishop, Black),
           Square(4, 4) := Piece(Pawn, Black), Square(5, 1) := Piece(Knight, Black),
           Square(5, 3) := Piece(Knight, Black)
         ], White, Square(3, 3), Offset(-1, -1))
         == [Square(2, 2), Square(1, 1), Square(0, 0)]
  {
  }

  lemma QueenCapturesDownLeft()
    ensures Ray(map[
           Square(0, 0) := Piece(Pawn, Black), Square(1, 5) := Piece(Pawn, Black),
           Square(2, 3) := Piece(Rook, Black), Square(3, 5) := Piece(Bishop, Black),
           Square(4, 4) := Piece(Pawn, Black), Square(5, 1) := Piece(Knight, Black),
           Square(5, 3) := Piece(Knight, Black)
         ], White, Square(3, 3), Offset(1, -1))
         == [Square(4, 2), Square(5, 1)]
  {
  }

  lemma QueenCapturesDownRight()
    ensures Ray(map[
           Square(0, 0) := Piece(Pawn, Black), Square(1, 5) := Piece(Pawn, Black),
           Square(2, 3) := Piece(Rook, Black), Square(3, 5) := Piece(Bishop, Black),
           Square(4, 4) := Piece(Pawn, Black), Square(5, 1) := Piece(Knight, Black),
           Square(5, 3) := Piece(Knight, Black)
         ], White, Square(3, 3), Offset(1, 1))
         == [Square(4, 4)]
  {
  }

  lemma QueenCapturesDiagonal()
    ensures Rays(map[
           Square(0, 0) := Piece(Pawn, Black), Square(1, 5) := Piece(Pawn, Black),
           Square(2, 3) := Piece(Rook, Black), Square(3, 5) := Piece(Bishop, Black),
           Square(4, 4) := Piece(Pawn, Black), Square(5, 1) := Piece(Knight, Black),
           Square(5, 3) := Piece(Knight, Black)
         ], White, Square(3, 3), Diagonals)
         == [Square(2, 4), Square(1, 5), Square(2, 2), Square(1, 1), Square(0, 0), Square(4, 2),
            Square(5, 1), Square(4, 4)]
  {
    FourRays(map[
      Square(0, 0) := Piece(Pawn, Black), Square(1, 5) := Piece(Pawn, Black),
      Square(2, 3) := Piece(Rook, Black), Square(3, 5) := Piece(Bishop, Black),
      Square(4, 4) := Piece(Pawn, Black), Square(5, 1) := Piece(Knight, Black),
      Square(5, 3) := Piece(Knight, Black)
    ], White, Square(3, 3), Diagonals);
    QueenCapturesUpRight();
    QueenCapturesUpLeft();
    QueenCapturesDownLeft();
    QueenCapturesDownRight();
  }

  lemma QueenCapturesJoined()
    ensures [Square(2, 3), Square(4, 3), Square(5, 3), Square(3, 2), Square(3, 1), Square(3, 0),
            Square(3, 4), Square(3, 5)]
         + [Square(2, 4), Square(1, 5), Square(2, 2), Square(1, 1), Square(0, 0), Square(4, 2),
            Square(5, 1), Square(4, 4)]
        == [Square(2, 3), Square(4, 3), Square(5, 3), Square(3, 2), Square(3, 1), Square(3, 0),
            Square(3, 4), Square(3, 5), Square(2, 4), Square(1, 5), Square(2, 2), Square(1, 1),
            Square(0, 0), Square(4, 2), Square(5, 1), Square(4, 4)]
  {
  }

  /** Each ray ends at, and includes, its first enemy. */
  lemma QueenCaptures()
    ensures Moves(map[
           Square(0, 0) := Piece(Pawn, Black), Square(1, 5) := Piece(Pawn, Black),
           Square(2, 3) := Piece(Rook, Black), Square(3, 5) := Piece(Bishop, Black),
           Square(4, 4) := Piece(Pawn, Black), Square(5, 1) := Piece(Knight, Black),
           Square(5, 3) := Piece(Knight, Black)
         ], Piece(Queen, White), Square(3, 3))
         == [Square(2, 3), Square(4, 3), Square(5, 3), Square(3, 2), Square(3, 1), Square(3, 0),
            Square(3, 4), Square(3, 5), Square(2, 4), Square(1, 5), Square(2, 2), Square(1, 1),
            Square(0, 0), Square(4, 2), Square(5, 1), Square(4, 4)]
  {
    QueenCapturesStraight();
    QueenCapturesDiagonal();
    QueenCapturesJoined();
    QueenLines(map[
      Square(0, 0) := Piece(Pawn, Black), Square(1, 5) := Piece(Pawn, Black),
      Square(2, 3) := Piece(Rook, Black), Square(3, 5) := Piece(Bishop, Black),
      Square(4, 4) := Piece(Pawn, Black), Square(5, 1) := Piece(Knight, Black),
      Square(5, 3) := Piece(Knight, Black)
    ], White, Square(3, 3),
      [Square(2, 3), Square(4, 3), Square(5, 3), Square(3, 2), Square(3, 1), Square(3, 0),
       Square(3, 4), Square(3, 5)],
      [Square(2, 4), Square(1, 5), Square(2, 2), Square(1, 1), Square(0, 0), Square(4, 2),
       Square(5, 1), Square(4, 4)],
      [Square(2, 3), Square(4, 3), Square(5, 3), Square(3, 2), Square(3, 1), Square(3, 0),
       Square(3, 4), Square(3, 5), Square(2, 4), Square(1, 5), Square(2, 2), Square(1, 1),
       Square(0, 0), Square(4, 2), Square(5, 1), Square(4, 4)]);
  }

  lemma RookCentreUp()
    ensures Ray(map[], White, Square(4, 4), Offset(-1, 0))
         == [Square(3, 4), Square(2, 4), Square(1, 4), Square(0, 4)]
  {
  }

  lemma RookCentreDown()
    ensures Ray(map[], White, Square(4, 4), Offset(1, 0))
         == [Square(5, 4), Square(6, 4), Square(7, 4)]
  {
  }

  lemma RookCentreLeft()
    ensures Ray(map[], White, Square(4, 4), Offset(0, -1))
         == [Square(4, 3), Square(4, 2), Square(4, 1), Square(4, 0)]
  {
  }

  lemma RookCentreRight()
    ensures Ray(map[], White, Square(4, 4), Offset(0, 1))
         == [Square(4, 5), Square(4, 6), Square(4, 7)]
  {
  }

  /** Rook on (4, 4), empty board: the 14 squares of row 4 and column 4. */
  lemma RookCentre()
    ensures Moves(map[], Piece(Rook, White), Square(4, 4))
         == [Square(3, 4), Square(2, 4), Square(1, 4), Square(0, 4), Square(5, 4), Square(6, 4),
            Square(7, 4), Square(4, 3), Square(4, 2), Square(4, 1), Square(4, 0), Square(4, 5),
            Square(4, 6), Square(4, 7)]
  {
    FourRays(map[], White, Square(4, 4), Orthogonals);
    RookCentreUp();
    RookCentreDown();
    RookCentreLeft();
    RookCentreRight();
  }

  lemma RookBlockedUp()
    ensures Ray(map[
           Square(3, 4) := Piece(Pawn, White), Square(4, 3) := Piece(Pawn, White),
           Square(4, 5) := Piece(Pawn, White), Square(5, 4) := Piece(Pawn, White)
         ], White, Square(4, 4), Offset(-1, 0))
         == []
  {
  }

  lemma RookBlockedDown()
    ensures Ray(map[
           Square(3, 4) := Piece(Pawn, White), Square(4, 3) := Piece(Pawn, White),
           Square(4, 5) := Piece(Pawn, White), Square(5, 4) := Piece(Pawn, White)
         ], White, Square(4, 4), Offset(1, 0))
         == []
  {
  }

  lemma RookBlockedLeft()
    ensures Ray(map[
           Square(3, 4) := Piece(Pawn, White), Square(4, 3) := Piece(Pawn, White),
           Square(4, 5) := Piece(Pawn, White), Square(5, 4) := Piece(Pawn, White)
         ], White, Square(4, 4), Offset(0, -1))
         == []
  {
  }

  lemma RookBlockedRight()
    ensures Ray(map[
           Square(3, 4) := Piece(Pawn, White), Square(4, 3) := Piece(Pawn, White),
           Square(4, 5) := Piece(Pawn, White), Square(5, 4) := Piece(Pawn, White)
         ], White, Square(4, 4), Offset(0, 1))
         == []
  {
  }

  /** Surrounded by own pieces: nothing. */
  lemma RookBlocked()
    ensures Moves(map[
           Square(3, 4) := Piece(Pawn, White), Square(4, 3) := Piece(Pawn, White),
           Square(4, 5) := Piece(Pawn, White), Square(5, 4) := Piece(Pawn, White)
         ], Piece(Rook, White), Square(4, 4))
         == []
  {
    FourRays(map[
      Square(3, 4) := Piece(Pawn, White), Square(4, 3) := Piece(Pawn, White),
      Square(4, 5) := Piece(Pawn, White), Square(5, 4) := Piece(Pawn, White)
    ], White, Square(4, 4), Orthogonals);
    RookBlockedUp();
    RookBlockedDown();
    RookBlockedLeft();
    RookBlockedRight();
  }

  lemma RookCapturesUp()
    ensures Ray(map[
           Square(3, 4) := Piece(Pawn, Black), Square(4, 3) := Piece(Pawn, Black),
           Square(4, 5) := Piece(Pawn, Black), Square(5, 4) := Piece(Pawn, Black)
         ], White, Square(4, 4), Offset(-1, 0))
         == [Square(3, 4)]
  {
  }

  lemma RookCapturesDown()
    ensures Ray(map[
           Square(3, 4) := Piece(Pawn, Black), Square(4, 3) := Piece(Pawn, Black),
           Square(4, 5) := Piece(Pawn, Black), Square(5, 4) := Piece(Pawn, Black)
         ], White, Square(4, 4), Offset(1, 0))
         == [Square(5, 4)]
  {
  }

  lemma RookCapturesLeft()
    ensures Ray(map[
           Square(3, 4) := Piece(Pawn, Black), Square(4, 3) := Piece(Pawn, Black),
           Square(4, 5) := Piece(Pawn, Black), Square(5, 4) := Piece(Pawn, Black)
         ], White, Square(4, 4), Offset(0, -1))
         == [Square(4, 3)]
  {
  }

  lemma RookCapturesRight()
    ensures Ray(map[
           Square(3, 4) := Piece(Pawn, Black), Square(4, 3) := Piece(Pawn, Black),
           Square(4, 5) := Piece(Pawn, Black), Square(5, 4) := Piece(Pawn, Black)
         ], White, Square(4, 4), Offset(0, 1))
         == [Square(4, 5)]
  {
  }

  /** Surrounded by enemies: exactly the four captures. */
  lemma RookCaptures()
    ensures Moves(map[
           Square(3, 4) := Piece(Pawn, Black), Square(4, 3) := Piece(Pawn, Black),
           Square(4, 5) := Piece(Pawn, Black), Square(5, 4) := Piece(Pawn, Black)
         ], Piece(Rook, White), Square(4, 4))
         == [Square(3, 4), Square(5, 4), Square(4, 3), Square(4, 5)]
  {
    FourRays(map[
      Square(3, 4) := Piece(Pawn, Black), Square(4, 3) := Piece(Pawn, Black),
      Square(4, 5) := Piece(Pawn, Black), Square(5, 4) := Piece(Pawn, Black)
    ], White, Square(4, 4), Orthogonals);
    RookCapturesUp();
    RookCapturesDown();
    RookCapturesLeft();
    RookCapturesRight();
  }

  /** Knight on (1, 0), empty board. */
  lemma KnightEdge()
    ensures Moves(map[], Piece(Knight, White), Square(1, 0))
         == [Square(2, 2), Square(3, 1), Square(0, 2)]
  {
  }

  /** Knight on (0, 0) with an own piece on (1, 2): no blocking, own square excluded. */
  lemma KnightOwnPiece()
    ensures Moves(map[Square(1, 2) := Piece(Knight, White)], Piece(Knight, White), Square(0, 0))
         == [Square(2, 1)]
  {
  }

  /** King on (5, 5), empty board: its eight neighbours. */
  lemma KingCentre()
    ensures Moves(map[], Piece(King, White), Square(5, 5))
         == [Square(5, 4), Square(5, 6), Square(6, 4), Square(6, 5), Square(6, 6), Square(4, 4),
            Square(4, 5), Square(4, 6)]
  {
  }

  /** King on (7, 7): three neighbours. */
  lemma KingCorner()
    ensures Moves(map[], Piece(King, White), Square(7, 7))
         == [Square(7, 6), Square(6, 6), Square(6, 7)]
  {
  }

  /** King on (0, 0): three neighbours. */
  lemma KingOtherCorner()
    ensures Moves(map[], Piece(King, White), Square(0, 0))
         == [Square(0, 1), Square(1, 0), Square(1, 1)]
  {
  }

  /** Own neighbour excluded, enemy neighbour kept. */
  lemma KingNeighbours()
    ensures Moves(map[Square(0, 1) := Piece(Pawn, Black), Square(1, 0) := Piece(Pawn, White)], Piece(King, White), Square(0, 0))
         == [Square(0, 1), Square(1, 1)]
  {
  }

}
