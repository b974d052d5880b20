/**
 * King danger on the positions of the king tests: a board holding a single
 * piece (or none) and a king remembered on some square, which itself need
 * not be on the board.
 *
 * Each position is settled threat by threat, and the answers are then
 * combined through `DangerParts`. The finer splits below (`StraightParts`,
 * `KnightParts`, ...) serve the crowded boards of the controller's tests.
 */
module DangerFixtures {
  import opened Pieces
  import opened Boards
  import opened Danger

  /** A king is in danger exactly when one of the five kinds of threat is present. */
  lemma DangerParts(b: Board, c: Colour, k: Square)
    ensures KingInDanger(b, c, k)
        == (SliderThreat(b, c, k, Orthogonals, Rook) || SliderThreat(b, c, k, Diagonals, Bishop)
            || LeapThreat(b, c, k, KnightJumps, Knight) || LeapThreat(b, c, k, KingSteps, King)
            || PawnThreat(b, c, k))
  {
  }

  /** A slider threat along the four rook directions, one direction at a time. */
  lemma StraightParts(b: Board, c: Colour, k: Square, slider: Kind)
    ensures SliderThreat(b, c, k, Orthogonals, slider)
        == (SliderEnemy(First(b, k, Offset(-1, 0)), c, slider) || SliderEnemy(First(b, k, Offset(1, 0)), c, slider)
            || SliderEnemy(First(b, k, Offset(0, -1)), c, slider) || SliderEnemy(First(b, k, Offset(0, 1)), c, slider))
  {
    assert SliderThreatFrom(b, c, k, Orthogonals, slider, 3) == SliderEnemy(First(b, k, Offset(0, 1)), c, slider);
  }

  /** A slider threat along the four bishop directions, one direction at a time. */
  lemma DiagonalParts(b: Board, c: Colour, k: Square, slider: Kind)
    ensures SliderThreat(b, c, k, Diagonals, slider)
        == (SliderEnemy(First(b, k, Offset(-1, 1)), c, slider) || SliderEnemy(First(b, k, Offset(-1, -1)), c, slider)
            || SliderEnemy(First(b, k, Offset(1, -1)), c, slider) || SliderEnemy(First(b, k, Offset(1, 1)), c, slider))
  {
    assert SliderThreatFrom(b, c, k, Diagonals, slider, 3) == SliderEnemy(First(b, k, Offset(1, 1)), c, slider);
  }

  /** An enemy piece of `kind` stands one `off` away from `k`. */
  predicate LeapHit(b: Board, c: Colour, k: Square, off: Offset, kind: Kind) {
    OnBoard(Shift(k, off, 1)) && HoldsEnemy(b, Shift(k, off, 1), c) && b[Shift(k, off, 1)].kind == kind
  }

  lemma {:induction false} LeapThreatFromParts(b: Board, c: Colour, k: Square, offs: seq<Offset>, kind: Kind, i: nat)
    ensures LeapThreatFrom(b, c, k, offs, kind, i) <==> exists j :: i <= j < |offs| && LeapHit(b, c, k, offs[j], kind)
    decreases |offs| - i
  {
    if i < |offs| {
      LeapThreatFromParts(b, c, k, offs, kind, i + 1);
    }
  }

  /** A knight threat, one jump at a time. */
  lemma KnightParts(b: Board, c: Colour, k: Square)
    ensures LeapThreat(b, c, k, KnightJumps, Knight)
        == (LeapHit(b, c, k, Offset(1, -2), Knight) || LeapHit(b, c, k, Offset(1, 2), Knight)
            || LeapHit(b, c, k, Offset(2, -1), Knight) || LeapHit(b, c, k, Offset(2, 1), Knight)
            || LeapHit(b, c, k, Offset(-1, -2), Knight) || LeapHit(b, c, k, Offset(-1, 2), Knight)
            || LeapHit(b, c, k, Offset(-2, -1), Knight) || LeapHit(b, c, k, Offset(-2, 1), Knight))
  {
    LeapThreatFromParts(b, c, k, KnightJumps, Knight, 0);
  }

  /** A king threat, one step at a time. */
  lemma KingStepParts(b: Board, c: Colour, k: Square)
    ensures LeapThreat(b, c, k, KingSteps, King)
        == (LeapHit(b, c, k, Offset(0, -1), King) || LeapHit(b, c, k, Offset(0, 1), King)
            || LeapHit(b, c, k, Offset(1, -1), King) || LeapHit(b, c, k, Offset(1, 0), King)
            || LeapHit(b, c, k, Offset(1, 1), King) || LeapHit(b, c, k, Offset(-1, -1), King)
            || LeapHit(b, c, k, Offset(-1, 0), King) || LeapHit(b, c, k, Offset(-1, 1), King))
  {
    LeapThreatFromParts(b, c, k, KingSteps, King, 0);
  }

  lemma LineDanger1Rook()
    ensures !SliderThreat(map[Square(5, 4) := Piece(Queen, White)], White, Square(3, 4), Orthogonals, Rook)
  {
  }

  lemma LineDanger1Bishop()
    ensures !SliderThreat(map[Square(5, 4) := Piece(Queen, White)], White, Square(3, 4), Diagonals, Bishop)
  {
  }

  lemma LineDanger1Knight()
    ensures !LeapThreat(map[Square(5, 4) := Piece(Queen, White)], White, Square(3, 4), KnightJumps, Knight)
  {
  }

  lemma LineDanger1King()
    ensures !LeapThreat(map[Square(5, 4) := Piece(Queen, White)], White, Square(3, 4), KingSteps, King)
  {
  }

  lemma LineDanger1Pawn()
    ensures !PawnThreat(map[Square(5, 4) := Piece(Queen, White)], White, Square(3, 4))
  {
  }

  /** White queen on (5, 4); White king remembered on (3, 4): safe. */
  lemma LineDanger1()
    ensures !KingInDanger(map[Square(5, 4) := Piece(Queen, White)], White, Square(3, 4))
  {
    LineDanger1Rook();
    LineDanger1Bishop();
    LineDanger1Knight();
    LineDanger1King();
    LineDanger1Pawn();
    DangerParts(map[Square(5, 4) := Piece(Queen, White)], White, Square(3, 4));
  }

  lemma LineDanger2Rook()
    ensures SliderThreat(map[Square(5, 4) := Piece(Queen, Black)], White, Square(3, 4), Orthogonals, Rook)
  {
  }

  /** Black queen on (5, 4); White king remembered on (3, 4): in danger. */
  lemma LineDanger2()
    ensures KingInDanger(map[Square(5, 4) := Piece(Queen, Black)], White, Square(3, 4))
  {
    LineDanger2Rook();
    DangerParts(map[Square(5, 4) := Piece(Queen, Black)], White, Square(3, 4));
  }

  lemma LineDanger3Rook()
    ensures SliderThreat(map[Square(5, 4) := Piece(Rook, Black)], White, Square(3, 4), Orthogonals, Rook)
  {
  }

  /** Black rook on (5, 4); White king remembered on (3, 4): in danger. */
  lemma LineDanger3()
    ensures KingInDanger(map[Square(5, 4) := Piece(Rook, Black)], White, Square(3, 4))
  {
    LineDanger3Rook();
    DangerParts(map[Square(5, 4) := Piece(Rook, Black)], White, Square(3, 4));
  }

  lemma LineDanger4Rook()
    ensures !SliderThreat(map[Square(5, 4) := Piece(Knight, Black)], White, Square(3, 4), Orthogonals, Rook)
  {
  }

  lemma LineDanger4Bishop()
    ensures !SliderThreat(map[Square(5, 4) := Piece(Knight, Black)], White, Square(3, 4), Diagonals, Bishop)
  {
  }

  lemma LineDanger4Knight()
    ensures !LeapThreat(map[Square(5, 4) := Piece(Knight, Black)], White, Square(3, 4), KnightJumps, Knight)
  {
  }

  lemma LineDanger4King()
    ensures !LeapThreat(map[Square(5, 4) := Piece(Knight, Black)], White, Square(3, 4), KingSteps, King)
  {
  }

  lemma LineDanger4Pawn()
    ensures !PawnThreat(map[Square(5, 4) := Piece(Knight, Black)], White, Square(3, 4))
  {
  }

  /** Black knight on (5, 4); White king remembered on (3, 4): safe. */
  lemma LineDanger4()
    ensures !KingInDanger(map[Square(5, 4) := Piece(Knight, Black)], White, Square(3, 4))
  {
    LineDanger4Rook();
    LineDanger4Bishop();
    LineDanger4Knight();
    LineDanger4King();
    LineDanger4Pawn();
    DangerParts(map[Square(5, 4) := Piece(Knight, Black)], White, Square(3, 4));
  }

  lemma LineDanger5Rook()
    ensures !SliderThreat(map[Square(2, 4) := Piece(Queen, White)], White, Square(3, 4), Orthogonals, Rook)
  {
  }

  lemma LineDanger5Bishop()
    ensures !SliderThreat(map[Square(2, 4) := Piece(Queen, White)], White, Square(3, 4), Diagonals, Bishop)
  {
  }

  lemma LineDanger5Knight()
    ensures !LeapThreat(map[Square(2, 4) := Piece(Queen, White)], White, Square(3, 4), KnightJumps, Knight)
  {
  }

  lemma LineDanger5King()
    ensures !LeapThreat(map[Square(2, 4) := Piece(Queen, White)], White, Square(3, 4), KingSteps, King)
  {
  }

  lemma LineDanger5Pawn()
    ensures !PawnThreat(map[Square(2, 4) := Piece(Queen, White)], White, Square(3, 4))
  {
  }

  /** White queen on (2, 4); White king remembered on (3, 4): safe. */
  lemma LineDanger5()
    ensures !KingInDanger(map[Square(2, 4) := Piece(Queen, White)], White, Square(3, 4))
  {
    LineDanger5Rook();
    LineDanger5Bishop();
    LineDanger5Knight();
    LineDanger5King();
    LineDanger5Pawn();
    DangerParts(map[Square(2, 4) := Piece(Queen, White)], White, Square(3, 4));
  }

  lemma LineDanger6Rook()
    ensures SliderThreat(map[Square(2, 4) := Piece(Queen, Black)], White, Square(3, 4), Orthogonals, Rook)
  {
  }

  /** Black queen on (2, 4); White king remembered on (3, 4): in danger. */
  lemma LineDanger6()
    ensures KingInDanger(map[Square(2, 4) := Piece(Queen, Black)], White, Square(3, 4))
  {
    LineDanger6Rook();
    DangerParts(map[Square(2, 4) := Piece(Queen, Black)], White, Square(3, 4));
  }

  lemma LineDanger7Rook()
    ensures SliderThreat(map[Square(2, 4) := Piece(Rook, Black)], White, Square(3, 4), Orthogonals, Rook)
  {
  }

  /** Black rook on (2, 4); White king remembered on (3, 4): in danger. */
  lemma LineDanger7()
    ensures KingInDanger(map[Square(2, 4) := Piece(Rook, Black)], White, Square(3, 4))
  {
    LineDanger7Rook();
    DangerParts(map[Square(2, 4) := Piece(Rook, Black)], White, Square(3, 4));
  }

  lemma LineDanger8Rook()
    ensures !SliderThreat(map[Square(2, 4) := Piece(Knight, Black)], White, Square(3, 4), Orthogonals, Rook)
  {
  }

  lemma LineDanger8Bishop()
    ensures !SliderThreat(map[Square(2, 4) := Piece(Knight, Black)], White, Square(3, 4), Diagonals, Bishop)
  {
  }

  lemma LineDanger8Knight()
    ensures !LeapThreat(map[Square(2, 4) := Piece(Knight, Black)], White, Square(3, 4), KnightJumps, Knight)
  {
  }

  lemma LineDanger8King()
    ensures !LeapThreat(map[Square(2, 4) := Piece(Knight, Black)], White, Square(3, 4), KingSteps, King)
  {
  }

  lemma LineDanger8Pawn()
    ensures !PawnThreat(map[Square(2, 4) := Piece(Knight, Black)], White, Square(3, 4))
  {
  }

  /** Black knight on (2, 4); White king remembered on (3, 4): safe. */
  lemma LineDanger8()
    ensures !KingInDanger(map[Square(2, 4) := Piece(Knight, Black)], White, Square(3, 4))
  {
    LineDanger8Rook();
    LineDanger8Bishop();
    LineDanger8Knight();
    LineDanger8King();
    LineDanger8Pawn();
    DangerParts(map[Square(2, 4) := Piece(Knight, Black)], White, Square(3, 4));
  }

  lemma LineDanger9Rook()
    ensures SliderThreat(map[Square(0, 4) := Piece(Rook, Black)], White, Square(3, 4), Orthogonals, Rook)
  {
  }

  /** Black rook on (0, 4); White king remembered on (3, 4): in danger. */
  lemma LineDanger9()
    ensures KingInDanger(map[Square(0, 4) := Piece(Rook, Black)], White, Square(3, 4))
  {
    LineDanger9Rook();
    DangerParts(map[Square(0, 4) := Piece(Rook, Black)], White, Square(3, 4));
  }

  lemma LineDanger10Rook()
    ensures !SliderThreat(map[Square(3, 6) := Piece(Queen, White)], White, Square(3, 4), Orthogonals, Rook)
  {
  }

  lemma LineDanger10Bishop()
    ensures !SliderThreat(map[Square(3, 6) := Piece(Queen, White)], White, Square(3, 4), Diagonals, Bishop)
  {
  }

  lemma LineDanger10Knight()
    ensures !LeapThreat(map[Square(3, 6) := Piece(Queen, White)], White, Square(3, 4), KnightJumps, Knight)
  {
  }

  lemma LineDanger10King()
    ensures !LeapThreat(map[Square(3, 6) := Piece(Queen, White)], White, Square(3, 4), KingSteps, King)
  {
  }

  lemma LineDanger10Pawn()
    ensures !PawnThreat(map[Square(3, 6) := Piece(Queen, White)], White, Square(3, 4))
  {
  }

  /** White queen on (3, 6); White king remembered on (3, 4): safe. */
  lemma LineDanger10()
    ensures !KingInDanger(map[Square(3, 6) := Piece(Queen, White)], White, Square(3, 4))
  {
    LineDanger10Rook();
    LineDanger10Bishop();
    LineDanger10Knight();
    LineDanger10King();
    LineDanger10Pawn();
    DangerParts(map[Square(3, 6) := Piece(Queen, White)], White, Square(3, 4));
  }

  lemma LineDanger11Rook()
    ensures SliderThreat(map[Square(3, 6) := Piece(Queen, Black)], White, Square(3, 4), Orthogonals, Rook)
  {
  }

  /** Black queen on (3, 6); White king remembered on (3, 4): in danger. */
  lemma LineDanger11()
    ensures KingInDanger(map[Square(3, 6) := Piece(Queen, Black)], White, Square(3, 4))
  {
    LineDanger11Rook();
    DangerParts(map[Square(3, 6) := Piece(Queen, Black)], White, Square(3, 4));
  }

  lemma LineDanger12Rook()
    ensures SliderThreat(map[Square(3, 6) := Piece(Rook, Black)], White, Square(3, 4), Orthogonals, Rook)
  {
  }

  /** Black rook on (3, 6); White king remembered on (3, 4): in danger. */
  lemma LineDanger12()
    ensures KingInDanger(map[Square(3, 6) := Piece(Rook, Black)], White, Square(3, 4))
  {
    LineDanger12Rook();
    DangerParts(map[Square(3, 6) := Piece(Rook, Black)], White, Square(3, 4));
  }

  lemma LineDanger13Rook()
    ensures !SliderThreat(map[Square(3, 6) := Piece(Knight, Black)], White, Square(3, 4), Orthogonals, Rook)
  {
  }

  lemma LineDanger13Bishop()
    ensures !SliderThreat(map[Square(3, 6) := Piece(Knight, Black)], White, Square(3, 4), Diagonals, Bishop)
  {
  }

  lemma LineDanger13Knight()
    ensures !LeapThreat(map[Square(3, 6) := Piece(Knight, Black)], White, Square(3, 4), KnightJumps, Knight)
  {
  }

  lemma LineDanger13King()
    ensures !LeapThreat(map[Square(3, 6) := Piece(Knight, Black)], White, Square(3, 4), KingSteps, King)
  {
  }

  lemma LineDanger13Pawn()
    ensures !PawnThreat(map[Square(3, 6) := Piece(Knight, Black)], White, Square(3, 4))
  {
  }

  /** Black knight on (3, 6); White king remembered on (3, 4): safe. */
  lemma LineDanger13()
    ensures !KingInDanger(map[Square(3, 6) := Piece(Knight, Black)], White, Square(3, 4))
  {
    LineDanger13Rook();
    LineDanger13Bishop();
    LineDanger13Knight();
    LineDanger13King();
    LineDanger13Pawn();
    DangerParts(map[Square(3, 6) := Piece(Knight, Black)], White, Square(3, 4));
  }

  lemma LineDanger14Rook()
    ensures !SliderThreat(map[Square(3, 2) := Piece(Queen, White)], White, Square(3, 4), Orthogonals, Rook)
  {
  }

  lemma LineDanger14Bishop()
    ensures !SliderThreat(map[Square(3, 2) := Piece(Queen, White)], White, Square(3, 4), Diagonals, Bishop)
  {
  }

  lemma LineDanger14Knight()
    ensures !LeapThreat(map[Square(3, 2) := Piece(Queen, White)], White, Square(3, 4), KnightJumps, Knight)
  {
  }

  lemma LineDanger14King()
    ensures !LeapThreat(map[Square(3, 2) := Piece(Queen, White)], White, Square(3, 4), KingSteps, King)
  {
  }

  lemma LineDanger14Pawn()
    ensures !PawnThreat(map[Square(3, 2) := Piece(Queen, White)], White, Square(3, 4))
  {
  }

  /** White queen on (3, 2); White king remembered on (3, 4): safe. */
  lemma LineDanger14()
    ensures !KingInDanger(map[Square(3, 2) := Piece(Queen, White)], White, Square(3, 4))
  {
    LineDanger14Rook();
    LineDanger14Bishop();
    LineDanger14Knight();
    LineDanger14King();
    LineDanger14Pawn();
    DangerParts(map[Square(3, 2) := Piece(Queen, White)], White, Square(3, 4));
  }

  lemma LineDanger15Rook()
    ensures SliderThreat(map[Square(3, 2) := Piece(Queen, Black)], White, Square(3, 4), Orthogonals, Rook)
  {
  }

  /** Black queen on (3, 2); White king remembered on (3, 4): in danger. */
  lemma LineDanger15()
    ensures KingInDanger(map[Square(3, 2) := Piece(Queen, Black)], White, Square(3, 4))
  {
    LineDanger15Rook();
    DangerParts(map[Square(3, 2) := Piece(Queen, Black)], White, Square(3, 4));
  }

  lemma LineDanger16Rook()
    ensures SliderThreat(map[Square(3, 2) := Piece(Rook, Black)], White, Square(3, 4), Orthogonals, Rook)
  {
  }

  /** Black rook on (3, 2); White king remembered on (3, 4): in danger. */
  lemma LineDanger16()
    ensures KingInDanger(map[Square(3, 2) := Piece(Rook, Black)], White, Square(3, 4))
  {
    LineDanger16Rook();
    DangerParts(map[Square(3, 2) := Piece(Rook, Black)], White, Square(3, 4));
  }

  lemma LineDanger17Rook()
    ensures !SliderThreat(map[Square(3, 2) := Piece(Knight, Black)], White, Square(3, 4), Orthogonals, Rook)
  {
  }

  lemma LineDanger17Bishop()
    ensures !SliderThreat(map[Square(3, 2) := Piece(Knight, Black)], White, Square(3, 4), Diagonals, Bishop)
  {
  }

  lemma LineDanger17Knight()
    ensures !LeapThreat(map[Square(3, 2) := Piece(Knight, Black)], White, Square(3, 4), KnightJumps, Knight)
  {
  }

  lemma LineDanger17King()
    ensures !LeapThreat(map[Square(3, 2) := Piece(Knight, Black)], White, Square(3, 4), KingSteps, King)
  {
  }

  lemma LineDanger17Pawn()
    ensures !PawnThreat(map[Square(3, 2) := Piece(Knight, Black)], White, Square(3, 4))
  {
  }

  /** Black knight on (3, 2); White king remembered on (3, 4): safe. */
  lemma LineDanger17()
    ensures !KingInDanger(map[Square(3, 2) := Piece(Knight, Black)], White, Square(3, 4))
  {
    LineDanger17Rook();
    LineDanger17Bishop();
    LineDanger17Knight();
    LineDanger17King();
    LineDanger17Pawn();
    DangerParts(map[Square(3, 2) := Piece(Knight, Black)], White, Square(3, 4));
  }

  lemma LineDanger18Rook()
    ensures SliderThreat(map[Square(3, 0) := Piece(Rook, Black)], White, Square(3, 4), Orthogonals, Rook)
  {
  }

  /** Black rook on (3, 0); White king remembered on (3, 4): in danger. */
  lemma LineDanger18()
    ensures KingInDanger(map[Square(3, 0) := Piece(Rook, Black)], White, Square(3, 4))
  {
    LineDanger18Rook();
    DangerParts(map[Square(3, 0) := Piece(Rook, Black)], White, Square(3, 4));
  }

  lemma DiagonalDanger1Rook()
    ensures !SliderThreat(map[Square(1, 6) := Piece(Queen, White)], White, Square(3, 4), Orthogonals, Rook)
  {
  }

  lemma DiagonalDanger1Bishop()
    ensures !SliderThreat(map[Square(1, 6) := Piece(Queen, White)], White, Square(3, 4), Diagonals, Bishop)
  {
  }

  lemma DiagonalDanger1Knight()
    ensures !LeapThreat(map[Square(1, 6) := Piece(Queen, White)], White, Square(3, 4), KnightJumps, Knight)
  {
  }

  lemma DiagonalDanger1King()
    ensures !LeapThreat(map[Square(1, 6) := Piece(Queen, White)], White, Square(3, 4), KingSteps, King)
  {
  }

  lemma DiagonalDanger1Pawn()
    ensures !PawnThreat(map[Square(1, 6) := Piece(Queen, White)], White, Square(3, 4))
  {
  }

  /** White queen on (1, 6); White king remembered on (3, 4): safe. */
  lemma DiagonalDanger1()
    ensures !KingInDanger(map[Square(1, 6) := Piece(Queen, White)], White, Square(3, 4))
  {
    DiagonalDanger1Rook();
    DiagonalDanger1Bishop();
    DiagonalDanger1Knight();
    DiagonalDanger1King();
    DiagonalDanger1Pawn();
    DangerParts(map[Square(1, 6) := Piece(Queen, White)], White, Square(3, 4));
  }

  lemma DiagonalDanger2Bishop()
    ensures SliderThreat(map[Square(1, 6) := Piece(Queen, Black)], White, Square(3, 4), Diagonals, Bishop)
  {
  }

  /** Black queen on (1, 6); White king remembered on (3, 4): in danger. */
  lemma DiagonalDanger2()
    ensures KingInDanger(map[Square(1, 6) := Piece(Queen, Black)], White, Square(3, 4))
  {
    DiagonalDanger2Bishop();
    DangerParts(map[Square(1, 6) := Piece(Queen, Black)], White, Square(3, 4));
  }

  lemma DiagonalDanger3Bishop()
    ensures SliderThreat(map[Square(1, 6) := Piece(Bishop, Black)], White, Square(3, 4), Diagonals, Bishop)
  {
  }

  /** Black bishop on (1, 6); White king remembered on (3, 4): in danger. */
  lemma DiagonalDanger3()
    ensures KingInDanger(map[Square(1, 6) := Piece(Bishop, Black)], White, Square(3, 4))
  {
    DiagonalDanger3Bishop();
    DangerParts(map[Square(1, 6) := Piece(Bishop, Black)], White, Square(3, 4));
  }

  lemma DiagonalDanger4Rook()
    ensures !SliderThreat(map[Square(1, 6) := Piece(Knight, Black)], White, Square(3, 4), Orthogonals, Rook)
  {
  }

  lemma DiagonalDanger4Bishop()
    ensures !SliderThreat(map[Square(1, 6) := Piece(Knight, Black)], White, Square(3, 4), Diagonals, Bishop)
  {
  }

  lemma DiagonalDanger4Knight()
    ensures !LeapThreat(map[Square(1, 6) := Piece(Knight, Black)], White, Square(3, 4), KnightJumps, Knight)
  {
  }

  lemma DiagonalDanger4King()
    ensures !LeapThreat(map[Square(1, 6) := Piece(Knight, Black)], White, Square(3, 4), KingSteps, King)
  {
  }

  lemma DiagonalDanger4Pawn()
    ensures !PawnThreat(map[Square(1, 6) := Piece(Knight, Black)], White, Square(3, 4))
  {
  }

  /** Black knight on (1, 6); White king remembered on (3, 4): safe. */
  lemma DiagonalDanger4()
    ensures !KingInDanger(map[Square(1, 6) := Piece(Knight, Black)], White, Square(3, 4))
  {
    DiagonalDanger4Rook();
    DiagonalDanger4Bishop();
    DiagonalDanger4Knight();
    DiagonalDanger4King();
    DiagonalDanger4Pawn();
    DangerParts(map[Square(1, 6) := Piece(Knight, Black)], White, Square(3, 4));
  }

  lemma DiagonalDanger5Bishop()
    ensures SliderThreat(map[Square(0, 7) := Piece(Bishop, Black)], White, Square(3, 4), Diagonals, Bishop)
  {
  }

  /** Black bishop on (0, 7); White king remembered on (3, 4): in danger. */
  lemma DiagonalDanger5()
    ensures KingInDanger(map[Square(0, 7) := Piece(Bishop, Black)], White, Square(3, 4))
  {
    DiagonalDanger5Bishop();
    DangerParts(map[Square(0, 7) := Piece(Bishop, Black)], White, Square(3, 4));
  }

  lemma DiagonalDanger6Rook()
    ensures !SliderThreat(map[Square(1, 2) := Piece(Queen, White)], White, Square(3, 4), Orthogonals, Rook)
  {
  }

  lemma DiagonalDanger6Bishop()
    ensures !SliderThreat(map[Square(1, 2) := Piece(Queen, White)], White, Square(3, 4), Diagonals, Bishop)
  {
  }

  lemma DiagonalDanger6Knight()
    ensures !LeapThreat(map[Square(1, 2) := Piece(Queen, White)], White, Square(3, 4), KnightJumps, Knight)
  {
  }

  lemma DiagonalDanger6King()
    ensures !LeapThreat(map[Square(1, 2) := Piece(Queen, White)], White, Square(3, 4), KingSteps, King)
  {
  }

  lemma DiagonalDanger6Pawn()
    ensures !PawnThreat(map[Square(1, 2) := Piece(Queen, White)], White, Square(3, 4))
  {
  }

  /** White queen on (1, 2); White king remembered on (3, 4): safe. */
  lemma DiagonalDanger6()
    ensures !KingInDanger(map[Square(1, 2) := Piece(Queen, White)], White, Square(3, 4))
  {
    DiagonalDanger6Rook();
    DiagonalDanger6Bishop();
    DiagonalDanger6Knight();
    DiagonalDanger6King();
    DiagonalDanger6Pawn();
    DangerParts(map[Square(1, 2) := Piece(Queen, White)], White, Square(3, 4));
  }

  lemma DiagonalDanger7Bishop()
    ensures SliderThreat(map[Square(1, 2) := Piece(Queen, Black)], White, Square(3, 4), Diagonals, Bishop)
  {
  }

  /** Black queen on (1, 2); White king remembered on (3, 4): in danger. */
  lemma DiagonalDanger7()
    ensures KingInDanger(map[Square(1, 2) := Piece(Queen, Black)], White, Square(3, 4))
  {
    DiagonalDanger7Bishop();
    DangerParts(map[Square(1, 2) := Piece(Queen, Black)], White, Square(3, 4));
  }

  lemma DiagonalDanger8Bishop()
    ensures SliderThreat(map[Square(1, 2) := Piece(Bishop, Black)], White, Square(3, 4), Diagonals, Bishop)
  {
  }

  /** Black bishop on (1, 2); White king remembered on (3, 4): in danger. */
  lemma DiagonalDanger8()
    ensures KingInDanger(map[Square(1, 2) := Piece(Bishop, Black)], White, Square(3, 4))
  {
    DiagonalDanger8Bishop();
    DangerParts(map[Square(1, 2) := Piece(Bishop, Black)], White, Square(3, 4));
  }

  lemma DiagonalDanger9Rook()
    ensures !SliderThreat(map[Square(1, 2) := Piece(Knight, Black)], White, Square(3, 4), Orthogonals, Rook)
  {
  }

  lemma DiagonalDanger9Bishop()
    ensures !SliderThreat(map[Square(1, 2) := Piece(Knight, Black)], White, Square(3, 4), Diagonals, Bishop)
  {
  }

  lemma DiagonalDanger9Knight()
    ensures !LeapThreat(map[Square(1, 2) := Piece(Knight, Black)], White, Square(3, 4), KnightJumps, Knight)
  {
  }

  lemma DiagonalDanger9King()
    ensures !LeapThreat(map[Square(1, 2) := Piece(Knight, Black)], White, Square(3, 4), KingSteps, King)
  {
  }

  lemma DiagonalDanger9Pawn()
    ensures !PawnThreat(map[Square(1, 2) := Piece(Knight, Black)], White, Square(3, 4))
  {
  }

  /** Black knight on (1, 2); White king remembered on (3, 4): safe. */
  lemma DiagonalDanger9()
    ensures !KingInDanger(map[Square(1, 2) := Piece(Knight, Black)], White, Square(3, 4))
  {
    DiagonalDanger9Rook();
    DiagonalDanger9Bishop();
    DiagonalDanger9Knight();
    DiagonalDanger9King();
    DiagonalDanger9Pawn();
    DangerParts(map[Square(1, 2) := Piece(Knight, Black)], White, Square(3, 4));
  }

  lemma DiagonalDanger10Bishop()
    ensures SliderThreat(map[Square(0, 0) := Piece(Bishop, Black)], White, Square(4, 4), Diagonals, Bishop)
  {
  }

  /** Black bishop on (0, 0); White king remembered on (4, 4): in danger. */
  lemma DiagonalDanger10()
    ensures KingInDanger(map[Square(0, 0) := Piece(Bishop, Black)], White, Square(4, 4))
  {
    DiagonalDanger10Bishop();
    DangerParts(map[Square(0, 0) := Piece(Bishop, Black)], White, Square(4, 4));
  }

  lemma DiagonalDanger11Rook()
    ensures !SliderThreat(map[Square(5, 6) := Piece(Queen, White)], White, Square(3, 4), Orthogonals, Rook)
  {
  }

  lemma DiagonalDanger11Bishop()
    ensures !SliderThreat(map[Square(5, 6) := Piece(Queen, White)], White, Square(3, 4), Diagonals, Bishop)
  {
  }

  lemma DiagonalDanger11Knight()
    ensures !LeapThreat(map[Square(5, 6) := Piece(Queen, White)], White, Square(3, 4), KnightJumps, Knight)
  {
  }

  lemma DiagonalDanger11King()
    ensures !LeapThreat(map[Square(5, 6) := Piece(Queen, White)], White, Square(3, 4), KingSteps, King)
  {
  }

  lemma DiagonalDanger11Pawn()
    ensures !PawnThreat(map[Square(5, 6) := Piece(Queen, White)], White, Square(3, 4))
  {
  }

  /** White queen on (5, 6); White king remembered on (3, 4): safe. */
  lemma DiagonalDanger11()
    ensures !KingInDanger(map[Square(5, 6) := Piece(Queen, White)], White, Square(3, 4))
  {
    DiagonalDanger11Rook();
    DiagonalDanger11Bishop();
    DiagonalDanger11Knight();
    DiagonalDanger11King();
    DiagonalDanger11Pawn();
    DangerParts(map[Square(5, 6) := Piece(Queen, White)], White, Square(3, 4));
  }

  lemma DiagonalDanger12Bishop()
    ensures SliderThreat(map[Square(5, 6) := Piece(Queen, Black)], White, Square(3, 4), Diagonals, Bishop)
  {
  }

  /** Black queen on (5, 6); White king remembered on (3, 4): in danger. */
  lemma DiagonalDanger12()
    ensures KingInDanger(map[Square(5, 6) := Piece(Queen, Black)], White, Square(3, 4))
  {
    DiagonalDanger12Bishop();
    DangerParts(map[Square(5, 6) := Piece(Queen, Black)], White, Square(3, 4));
  }

  lemma DiagonalDanger13Bishop()
    ensures SliderThreat(map[Square(5, 6) := Piece(Bishop, Black)], White, Square(3, 4), Diagonals, Bishop)
  {
  }

  /** Black bishop on (5, 6); White king remembered on (3, 4): in danger. */
  lemma DiagonalDanger13()
    ensures KingInDanger(map[Square(5, 6) := Piece(Bishop, Black)], White, Square(3, 4))
  {
    DiagonalDanger13Bishop();
    DangerParts(map[Square(5, 6) := Piece(Bishop, Black)], White, Square(3, 4));
  }

  lemma DiagonalDanger14Rook()
    ensures !SliderThreat(map[Square(5, 6) := Piece(Knight, Black)], White, Square(3, 4), Orthogonals, Rook)
  {
  }

  lemma DiagonalDanger14Bishop()
    ensures !SliderThreat(map[Square(5, 6) := Piece(Knight, Black)], White, Square(3, 4), Diagonals, Bishop)
  {
  }

  lemma DiagonalDanger14Knight()
    ensures !LeapThreat(map[Square(5, 6) := Piece(Knight, Black)], White, Square(3, 4), KnightJumps, Knight)
  {
  }

  lemma DiagonalDanger14King()
    ensures !LeapThreat(map[Square(5, 6) := Piece(Knight, Black)], White, Square(3, 4), KingSteps, King)
  {
  }

  lemma DiagonalDanger14Pawn()
    ensures !PawnThreat(map[Square(5, 6) := Piece(Knight, Black)], White, Square(3, 4))
  {
  }

  /** Black knight on (5, 6); White king remembered on (3, 4): safe. */
  lemma DiagonalDanger14()
    ensures !KingInDanger(map[Square(5, 6) := Piece(Knight, Black)], White, Square(3, 4))
  {
    DiagonalDanger14Rook();
    DiagonalDanger14Bishop();
    DiagonalDanger14Knight();
    DiagonalDanger14King();
    DiagonalDanger14Pawn();
    DangerParts(map[Square(5, 6) := Piece(Knight, Black)], White, Square(3, 4));
  }

  lemma DiagonalDanger15Bishop()
    ensures SliderThreat(map[Square(7, 7) := Piece(Bishop, Black)], White, Square(4, 4), Diagonals, Bishop)
  {
  }

  /** Black bishop on (7, 7); White king remembered on (4, 4): in danger. */
  lemma DiagonalDanger15()
    ensures KingInDanger(map[Square(7, 7) := Piece(Bishop, Black)], White, Square(4, 4))
  {
    DiagonalDanger15Bishop();
    DangerParts(map[Square(7, 7) := Piece(Bishop, Black)], White, Square(4, 4));
  }

  lemma DiagonalDanger16Rook()
    ensures !SliderThreat(map[Square(5, 2) := Piece(Queen, White)], White, Square(3, 4), Orthogonals, Rook)
  {
  }

  lemma DiagonalDanger16Bishop()
    ensures !SliderThreat(map[Square(5, 2) := Piece(Queen, White)], White, Square(3, 4), Diagonals, Bishop)
  {
  }

  lemma DiagonalDanger16Knight()
    ensures !LeapThreat(map[Square(5, 2) := Piece(Queen, White)], White, Square(3, 4), KnightJumps, Knight)
  {
  }

  lemma DiagonalDanger16King()
    ensures !LeapThreat(map[Square(5, 2) := Piece(Queen, White)], White, Square(3, 4), KingSteps, King)
  {
  }

  lemma DiagonalDanger16Pawn()
    ensures !PawnThreat(map[Square(5, 2) := Piece(Queen, White)], White, Square(3, 4))
  {
  }

  /** White queen on (5, 2); White king remembered on (3, 4): safe. */
  lemma DiagonalDanger16()
    ensures !KingInDanger(map[Square(5, 2) := Piece(Queen, White)], White, Square(3, 4))
  {
    DiagonalDanger16Rook();
    DiagonalDanger16Bishop();
    DiagonalDanger16Knight();
    DiagonalDanger16King();
    DiagonalDanger16Pawn();
    DangerParts(map[Square(5, 2) := Piece(Queen, White)], White, Square(3, 4));
  }

  lemma DiagonalDanger17Bishop()
    ensures SliderThreat(map[Square(5, 2) := Piece(Queen, Black)], White, Square(3, 4), Diagonals, Bishop)
  {
  }

  /** Black queen on (5, 2); White king remembered on (3, 4): in danger. */
  lemma DiagonalDanger17()
    ensures KingInDanger(map[Square(5, 2) := Piece(Queen, Black)], White, Square(3, 4))
  {
    DiagonalDanger17Bishop();
    DangerParts(map[Square(5, 2) := Piece(Queen, Black)], White, Square(3, 4));
  }

  lemma DiagonalDanger18Bishop()
    ensures SliderThreat(map[Square(5, 2) := Piece(Bishop, Black)], White, Square(3, 4), Diagonals, Bishop)
  {
  }

  /** Black bishop on (5, 2); White king remembered on (3, 4): in danger. */
  lemma DiagonalDanger18()
    ensures KingInDanger(map[Square(5, 2) := Piece(Bishop, Black)], White, Square(3, 4))
  {
    DiagonalDanger18Bishop();
    DangerParts(map[Square(5, 2) := Piece(Bishop, Black)], White, Square(3, 4));
  }

  lemma DiagonalDanger19Rook()
    ensures !SliderThreat(map[Square(5, 2) := Piece(Knight, Black)], White, Square(3, 4), Orthogonals, Rook)
  {
  }

  lemma DiagonalDanger19Bishop()
    ensures !SliderThreat(map[Square(5, 2) := Piece(Knight, Black)], White, Square(3, 4), Diagonals, Bishop)
  {
  }

  lemma DiagonalDanger19Knight()
    ensures !LeapThreat(map[Square(5, 2) := Piece(Knight, Black)], White, Square(3, 4), KnightJumps, Knight)
  {
  }

  lemma DiagonalDanger19King()
    ensures !LeapThreat(map[Square(5, 2) := Piece(Knight, Black)], White, Square(3, 4), KingSteps, King)
  {
  }

  lemma DiagonalDanger19Pawn()
    ensures !PawnThreat(map[Square(5, 2) := Piece(Knight, Black)], White, Square(3, 4))
  {
  }

  /** Black knight on (5, 2); White king remembered on (3, 4): safe. */
  lemma DiagonalDanger19()
    ensures !KingInDanger(map[Square(5, 2) := Piece(Knight, Black)], White, Square(3, 4))
  {
    DiagonalDanger19Rook();
    DiagonalDanger19Bishop();
    DiagonalDanger19Knight();
    DiagonalDanger19King();
    DiagonalDanger19Pawn();
    DangerParts(map[Square(5, 2) := Piece(Knight, Black)], White, Square(3, 4));
  }

  lemma DiagonalDanger20Bishop()
    ensures SliderThreat(map[Square(7, 0) := Piece(Bishop, Black)], White, Square(3, 4), Diagonals, Bishop)
  {
  }

  /** Black bishop on (7, 0); White king remembered on (3, 4): in danger. */
  lemma DiagonalDanger20()
    ensures KingInDanger(map[Square(7, 0) := Piece(Bishop, Black)], White, Square(3, 4))
  {
    DiagonalDanger20Bishop();
    DangerParts(map[Square(7, 0) := Piece(Bishop, Black)], White, Square(3, 4));
  }

  lemma KnightDanger1Rook()
    ensures !SliderThreat(map[Square(2, 2) := Piece(Knight, White)], White, Square(3, 4), Orthogonals, Rook)
  {
  }

  lemma KnightDanger1Bishop()
    ensures !SliderThreat(map[Square(2, 2) := Piece(Knight, White)], White, Square(3, 4), Diagonals, Bishop)
  {
  }

  lemma KnightDanger1Knight()
    ensures !LeapThreat(map[Square(2, 2) := Piece(Knight, White)], White, Square(3, 4), KnightJumps, Knight)
  {
  }

  lemma KnightDanger1King()
    ensures !LeapThreat(map[Square(2, 2) := Piece(Knight, White)], White, Square(3, 4), KingSteps, King)
  {
  }

  lemma KnightDanger1Pawn()
    ensures !PawnThreat(map[Square(2, 2) := Piece(Knight, White)], White, Square(3, 4))
  {
  }

  /** White knight on (2, 2); White king remembered on (3, 4): safe. */
  lemma KnightDanger1()
    ensures !KingInDanger(map[Square(2, 2) := Piece(Knight, White)], White, Square(3, 4))
  {
    KnightDanger1Rook();
    KnightDanger1Bishop();
    KnightDanger1Knight();
    KnightDanger1King();
    KnightDanger1Pawn();
    DangerParts(map[Square(2, 2) := Piece(Knight, White)], White, Square(3, 4));
  }

  lemma KnightDanger2Knight()
    ensures LeapThreat(map[Square(2, 2) := Piece(Knight, Black)], White, Square(3, 4), KnightJumps, Knight)
  {
  }

  /** Black knight on (2, 2); White king remembered on (3, 4): in danger. */
  lemma KnightDanger2()
    ensures KingInDanger(map[Square(2, 2) := Piece(Knight, Black)], White, Square(3, 4))
  {
    KnightDanger2Knight();
    DangerParts(map[Square(2, 2) := Piece(Knight, Black)], White, Square(3, 4));
  }

  lemma KnightDanger3Rook()
    ensures !SliderThreat(map[Square(2, 2) := Piece(Bishop, Black)], White, Square(3, 4), Orthogonals, Rook)
  {
  }

  lemma KnightDanger3Bishop()
    ensures !SliderThreat(map[Square(2, 2) := Piece(Bishop, Black)], White, Square(3, 4), Diagonals, Bishop)
  {
  }

  lemma KnightDanger3Knight()
    ensures !LeapThreat(map[Square(2, 2) := Piece(Bishop, Black)], White, Square(3, 4), KnightJumps, Knight)
  {
  }

  lemma KnightDanger3King()
    ensures !LeapThreat(map[Square(2, 2) := Piece(Bishop, Black)], White, Square(3, 4), KingSteps, King)
  {
  }

  lemma KnightDanger3Pawn()
    ensures !PawnThreat(map[Square(2, 2) := Piece(Bishop, Black)], White, Square(3, 4))
  {
  }

  /** Black bishop on (2, 2); White king remembered on (3, 4): safe. */
  lemma KnightDanger3()
    ensures !KingInDanger(map[Square(2, 2) := Piece(Bishop, Black)], White, Square(3, 4))
  {
    KnightDanger3Rook();
    KnightDanger3Bishop();
    KnightDanger3Knight();
    KnightDanger3King();
    KnightDanger3Pawn();
    DangerParts(map[Square(2, 2) := Piece(Bishop, Black)], White, Square(3, 4));
  }

  lemma KnightDanger4Knight()
    ensures LeapThreat(map[Square(4, 2) := Piece(Knight, Black)], White, Square(3, 4), KnightJumps, Knight)
  {
  }

  /** Black knight on (4, 2); White king remembered on (3, 4): in danger. */
  lemma KnightDanger4()
    ensures KingInDanger(map[Square(4, 2) := Piece(Knight, Black)], White, Square(3, 4))
  {
    KnightDanger4Knight();
    DangerParts(map[Square(4, 2) := Piece(Knight, Black)], White, Square(3, 4));
  }

  lemma KnightDanger5Knight()
    ensures LeapThreat(map[Square(4, 6) := Piece(Knight, Black)], White, Square(3, 4), KnightJumps, Knight)
  {
  }

  /** Black knight on (4, 6); White king remembered on (3, 4): in danger. */
  lemma KnightDanger5()
    ensures KingInDanger(map[Square(4, 6) := Piece(Knight, Black)], White, Square(3, 4))
  {
    KnightDanger5Knight();
    DangerParts(map[Square(4, 6) := Piece(Knight, Black)], White, Square(3, 4));
  }

  lemma KnightDanger6Knight()
    ensures LeapThreat(map[Square(5, 3) := Piece(Knight, Black)], White, Square(3, 4), KnightJumps, Knight)
  {
  }

  /** Black knight on (5, 3); White king remembered on (3, 4): in danger. */
  lemma KnightDanger6()
    ensures KingInDanger(map[Square(5, 3) := Piece(Knight, Black)], White, Square(3, 4))
  {
    KnightDanger6Knight();
    DangerParts(map[Square(5, 3) := Piece(Knight, Black)], White, Square(3, 4));
  }

  lemma KnightDanger7Knight()
    ensures LeapThreat(map[Square(5, 5) := Piece(Knight, Black)], White, Square(3, 4), KnightJumps, Knight)
  {
  }

  /** Black knight on (5, 5); White king remembered on (3, 4): in danger. */
  lemma KnightDanger7()
    ensures KingInDanger(map[Square(5, 5) := Piece(Knight, Black)], White, Square(3, 4))
  {
    KnightDanger7Knight();
    DangerParts(map[Square(5, 5) := Piece(Knight, Black)], White, Square(3, 4));
  }

  lemma KnightDanger8Knight()
    ensures LeapThreat(map[Square(2, 6) := Piece(Knight, Black)], White, Square(3, 4), KnightJumps, Knight)
  {
  }

  /** Black knight on (2, 6); White king remembered on (3, 4): in danger. */
  lemma KnightDanger8()
    ensures KingInDanger(map[Square(2, 6) := Piece(Knight, Black)], White, Square(3, 4))
  {
    KnightDanger8Knight();
    DangerParts(map[Square(2, 6) := Piece(Knight, Black)], White, Square(3, 4));
  }

  lemma KnightDanger9Knight()
    ensures LeapThreat(map[Square(1, 3) := Piece(Knight, Black)], White, Square(3, 4), KnightJumps, Knight)
  {
  }

  /** Black knight on (1, 3); White king remembered on (3, 4): in danger. */
  lemma KnightDanger9()
    ensures KingInDanger(map[Square(1, 3) := Piece(Knight, Black)], White, Square(3, 4))
  {
    KnightDanger9Knight();
    DangerParts(map[Square(1, 3) := Piece(Knight, Black)], White, Square(3, 4));
  }

  lemma KnightDanger10Knight()
    ensures LeapThreat(map[Square(1, 5) := Piece(Knight, Black)], White, Square(3, 4), KnightJumps, Knight)
  {
  }

  /** Black knight on (1, 5); White king remembered on (3, 4): in danger. */
  lemma KnightDanger10()
    ensures KingInDanger(map[Square(1, 5) := Piece(Knight, Black)], White, Square(3, 4))
  {
    KnightDanger10Knight();
    DangerParts(map[Square(1, 5) := Piece(Knight, Black)], White, Square(3, 4));
  }

  lemma KnightDanger11Knight()
    ensures LeapThreat(map[Square(0, 3) := Piece(Knight, Black)], White, Square(1, 1), KnightJumps, Knight)
  {
  }

  /** Black knight on (0, 3); White king remembered on (1, 1): in danger. */
  lemma KnightDanger11()
    ensures KingInDanger(map[Square(0, 3) := Piece(Knight, Black)], White, Square(1, 1))
  {
    KnightDanger11Knight();
    DangerParts(map[Square(0, 3) := Piece(Knight, Black)], White, Square(1, 1));
  }

  lemma KnightDanger12Knight()
    ensures LeapThreat(map[Square(3, 0) := Piece(Knight, Black)], White, Square(1, 1), KnightJumps, Knight)
  {
  }

  /** Black knight on (3, 0); White king remembered on (1, 1): in danger. */
  lemma KnightDanger12()
    ensures KingInDanger(map[Square(3, 0) := Piece(Knight, Black)], White, Square(1, 1))
  {
    KnightDanger12Knight();
    DangerParts(map[Square(3, 0) := Piece(Knight, Black)], White, Square(1, 1));
  }

  lemma KnightDanger13Knight()
    ensures LeapThreat(map[Square(7, 4) := Piece(Knight, Black)], White, Square(6, 6), KnightJumps, Knight)
  {
  }

  /** Black knight on (7, 4); White king remembered on (6, 6): in danger. */
  lemma KnightDanger13()
    ensures KingInDanger(map[Square(7, 4) := Piece(Knight, Black)], White, Square(6, 6))
  {
    KnightDanger13Knight();
    DangerParts(map[Square(7, 4) := Piece(Knight, Black)], White, Square(6, 6));
  }

  lemma KnightDanger14Knight()
    ensures LeapThreat(map[Square(4, 7) := Piece(Knight, Black)], White, Square(6, 6), KnightJumps, Knight)
  {
  }

  /** Black knight on (4, 7); White king remembered on (6, 6): in danger. */
  lemma KnightDanger14()
    ensures KingInDanger(map[Square(4, 7) := Piece(Knight, Black)], White, Square(6, 6))
  {
    KnightDanger14Knight();
    DangerParts(map[Square(4, 7) := Piece(Knight, Black)], White, Square(6, 6));
  }

  lemma KingDanger1Rook()
    ensures !SliderThreat(map[Square(4, 4) := Piece(King, White)], White, Square(3, 4), Orthogonals, Rook)
  {
  }

  lemma KingDanger1Bishop()
    ensures !SliderThreat(map[Square(4, 4) := Piece(King, White)], White, Square(3, 4), Diagonals, Bishop)
  {
  }

  lemma KingDanger1Knight()
    ensures !LeapThreat(map[Square(4, 4) := Piece(King, White)], White, Square(3, 4), KnightJumps, Knight)
  {
  }

  lemma KingDanger1King()
    ensures !LeapThreat(map[Square(4, 4) := Piece(King, White)], White, Square(3, 4), KingSteps, King)
  {
  }

  lemma KingDanger1Pawn()
    ensures !PawnThreat(map[Square(4, 4) := Piece(King, White)], White, Square(3, 4))
  {
  }

  /** White king on (4, 4); White king remembered on (3, 4): safe. */
  lemma KingDanger1()
    ensures !KingInDanger(map[Square(4, 4) := Piece(King, White)], White, Square(3, 4))
  {
    KingDanger1Rook();
    KingDanger1Bishop();
    KingDanger1Knight();
    KingDanger1King();
    KingDanger1Pawn();
    DangerParts(map[Square(4, 4) := Piece(King, White)], White, Square(3, 4));
  }

  lemma KingDanger2King()
    ensures LeapThreat(map[Square(4, 4) := Piece(King, Black)], White, Square(3, 4), KingSteps, King)
  {
  }

  /** Black king on (4, 4); White king remembered on (3, 4): in danger. */
  lemma KingDanger2()
    ensures KingInDanger(map[Square(4, 4) := Piece(King, Black)], White, Square(3, 4))
  {
    KingDanger2King();
    DangerParts(map[Square(4, 4) := Piece(King, Black)], White, Square(3, 4));
  }

  lemma KingDanger3Rook()
    ensures !SliderThreat(map[Square(4, 4) := Piece(Bishop, Black)], White, Square(3, 4), Orthogonals, Rook)
  {
  }

  lemma KingDanger3Bishop()
    ensures !SliderThreat(map[Square(4, 4) := Piece(Bishop, Black)], White, Square(3, 4), Diagonals, Bishop)
  {
  }

  lemma KingDanger3Knight()
    ensures !LeapThreat(map[Square(4, 4) := Piece(Bishop, Black)], White, Square(3, 4), KnightJumps, Knight)
  {
  }

  lemma KingDanger3King()
    ensures !LeapThreat(map[Square(4, 4) := Piece(Bishop, Black)], White, Square(3, 4), KingSteps, King)
  {
  }

  lemma KingDanger3Pawn()
    ensures !PawnThreat(map[Square(4, 4) := Piece(Bishop, Black)], White, Square(3, 4))
  {
  }

  /** Black bishop on (4, 4); White king remembered on (3, 4): safe. */
  lemma KingDanger3()
    ensures !KingInDanger(map[Square(4, 4) := Piece(Bishop, Black)], White, Square(3, 4))
  {
    KingDanger3Rook();
    KingDanger3Bishop();
    KingDanger3Knight();
    KingDanger3King();
    KingDanger3Pawn();
    DangerParts(map[Square(4, 4) := Piece(Bishop, Black)], White, Square(3, 4));
  }

  lemma KingDanger4Rook()
    ensures !SliderThreat(map[], White, Square(0, 0), Orthogonals, Rook)
  {
  }

  lemma KingDanger4Bishop()
    ensures !SliderThreat(map[], White, Square(0, 0), Diagonals, Bishop)
  {
  }

  lemma KingDanger4Knight()
    ensures !LeapThreat(map[], White, Square(0, 0), KnightJumps, Knight)
  {
  }

  lemma KingDanger4King()
    ensures !LeapThreat(map[], White, Square(0, 0), KingSteps, King)
  {
  }

  lemma KingDanger4Pawn()
    ensures !PawnThreat(map[], White, Square(0, 0))
  {
  }

  /** Nothing; White king remembered on (0, 0): safe. */
  lemma KingDanger4()
    ensures !KingInDanger(map[], White, Square(0, 0))
  {
    KingDanger4Rook();
    KingDanger4Bishop();
    KingDanger4Knight();
    KingDanger4King();
    KingDanger4Pawn();
    DangerParts(map[], White, Square(0, 0));
  }

  lemma KingDanger5Rook()
    ensures !SliderThreat(map[], White, Square(7, 7), Orthogonals, Rook)
  {
  }

  lemma KingDanger5Bishop()
    ensures !SliderThreat(map[], White, Square(7, 7), Diagonals, Bishop)
  {
  }

  lemma KingDanger5Knight()
    ensures !LeapThreat(map[], White, Square(7, 7), KnightJumps, Knight)
  {
  }

  lemma KingDanger5King()
    ensures !LeapThreat(map[], White, Square(7, 7), KingSteps, King)
  {
  }

  lemma KingDanger5Pawn()
    ensures !PawnThreat(map[], White, Square(7, 7))
  {
  }

  /** Nothing; White king remembered on (7, 7): safe. */
  lemma KingDanger5()
    ensures !KingInDanger(map[], White, Square(7, 7))
  {
    KingDanger5Rook();
    KingDanger5Bishop();
    KingDanger5Knight();
    KingDanger5King();
    KingDanger5Pawn();
    DangerParts(map[], White, Square(7, 7));
  }

  lemma KingDanger6Rook()
    ensures !SliderThreat(map[], White, Square(0, 7), Orthogonals, Rook)
  {
  }

  lemma KingDanger6Bishop()
    ensures !SliderThreat(map[], White, Square(0, 7), Diagonals, Bishop)
  {
  }

  lemma KingDanger6Knight()
    ensures !LeapThreat(map[], White, Square(0, 7), KnightJumps, Knight)
  {
  }

  lemma KingDanger6King()
    ensures !LeapThreat(map[], White, Square(0, 7), KingSteps, King)
  {
  }

  lemma KingDanger6Pawn()
    ensures !PawnThreat(map[], White, Square(0, 7))
  {
  }

  /** Nothing; White king remembered on (0, 7): safe. */
  lemma KingDanger6()
    ensures !KingInDanger(map[], White, Square(0, 7))
  {
    KingDanger6Rook();
    KingDanger6Bishop();
    KingDanger6Knight();
    KingDanger6King();
    KingDanger6Pawn();
    DangerParts(map[], White, Square(0, 7));
  }

  lemma KingDanger7Rook()
    ensures !SliderThreat(map[], White, Square(7, 0), Orthogonals, Rook)
  {
  }

  lemma KingDanger7Bishop()
    ensures !SliderThreat(map[], White, Square(7, 0), Diagonals, Bishop)
  {
  }

  lemma KingDanger7Knight()
    ensures !LeapThreat(map[], White, Square(7, 0), KnightJumps, Knight)
  {
  }

  lemma KingDanger7King()
    ensures !LeapThreat(map[], White, Square(7, 0), KingSteps, King)
  {
  }

  lemma KingDanger7Pawn()
    ensures !PawnThreat(map[], White, Square(7, 0))
  {
  }

  /** Nothing; White king remembered on (7, 0): safe. */
  lemma KingDanger7()
    ensures !KingInDanger(map[], White, Square(7, 0))
  {
    KingDanger7Rook();
    KingDanger7Bishop();
    KingDanger7Knight();
    KingDanger7King();
    KingDanger7Pawn();
    DangerParts(map[], White, Square(7, 0));
  }

  lemma KingDanger8Rook()
    ensures !SliderThreat(map[], Black, Square(0, 0), Orthogonals, Rook)
  {
  }

  lemma KingDanger8Bishop()
    ensures !SliderThreat(map[], Black, Square(0, 0), Diagonals, Bishop)
  {
  }

  lemma KingDanger8Knight()
    ensures !LeapThreat(map[], Black, Square(0, 0), KnightJumps, Knight)
  {
  }

  lemma KingDanger8King()
    ensures !LeapThreat(map[], Black, Square(0, 0), KingSteps, King)
  {
  }

  lemma KingDanger8Pawn()
    ensures !PawnThreat(map[], Black, Square(0, 0))
  {
  }

  /** Nothing; Black king remembered on (0, 0): safe. */
  lemma KingDanger8()
    ensures !KingInDanger(map[], Black, Square(0, 0))
  {
    KingDanger8Rook();
    KingDanger8Bishop();
    KingDanger8Knight();
    KingDanger8King();
    KingDanger8Pawn();
    DangerParts(map[], Black, Square(0, 0));
  }

  lemma KingDanger9Rook()
    ensures !SliderThreat(map[], Black, Square(7, 7), Orthogonals, Rook)
  {
  }

  lemma KingDanger9Bishop()
    ensures !SliderThreat(map[], Black, Square(7, 7), Diagonals, Bishop)
  {
  }

  lemma KingDanger9Knight()
    ensures !LeapThreat(map[], Black, Square(7, 7), KnightJumps, Knight)
  {
  }

  lemma KingDanger9King()
    ensures !LeapThreat(map[], Black, Square(7, 7), KingSteps, King)
  {
  }

  lemma KingDanger9Pawn()
    ensures !PawnThreat(map[], Black, Square(7, 7))
  {
  }

  /** Nothing; Black king remembered on (7, 7): safe. */
  lemma KingDanger9()
    ensures !KingInDanger(map[], Black, Square(7, 7))
  {
    KingDanger9Rook();
    KingDanger9Bishop();
    KingDanger9Knight();
    KingDanger9King();
    KingDanger9Pawn();
    DangerParts(map[], Black, Square(7, 7));
  }

  lemma KingDanger10Rook()
    ensures !SliderThreat(map[], Black, Square(0, 7), Orthogonals, Rook)
  {
  }

  lemma KingDanger10Bishop()
    ensures !SliderThreat(map[], Black, Square(0, 7), Diagonals, Bishop)
  {
  }

  lemma KingDanger10Knight()
    ensures !LeapThreat(map[], Black, Square(0, 7), KnightJumps, Knight)
  {
  }

  lemma KingDanger10King()
    ensures !LeapThreat(map[], Black, Square(0, 7), KingSteps, King)
  {
  }

  lemma KingDanger10Pawn()
    ensures !PawnThreat(map[], Black, Square(0, 7))
  {
  }

  /** Nothing; Black king remembered on (0, 7): safe. */
  lemma KingDanger10()
    ensures !KingInDanger(map[], Black, Square(0, 7))
  {
    KingDanger10Rook();
    KingDanger10Bishop();
    KingDanger10Knight();
    KingDanger10King();
    KingDanger10Pawn();
    DangerParts(map[], Black, Square(0, 7));
  }

  lemma KingDanger11Rook()
    ensures !SliderThreat(map[], Black, Square(7, 0), Orthogonals, Rook)
  {
  }

  lemma KingDanger11Bishop()
    ensures !SliderThreat(map[], Black, Square(7, 0), Diagonals, Bishop)
  {
  }

  lemma KingDanger11Knight()
    ensures !LeapThreat(map[], Black, Square(7, 0), KnightJumps, Knight)
  {
  }

  lemma KingDanger11King()
    ensures !LeapThreat(map[], Black, Square(7, 0), KingSteps, King)
  {
  }

  lemma KingDanger11Pawn()
    ensures !PawnThreat(map[], Black, Square(7, 0))
  {
  }

  /** Nothing; Black king remembered on (7, 0): safe. */
  lemma KingDanger11()
    ensures !KingInDanger(map[], Black, Square(7, 0))
  {
    KingDanger11Rook();
    KingDanger11Bishop();
    KingDanger11Knight();
    KingDanger11King();
    KingDanger11Pawn();
    DangerParts(map[], Black, Square(7, 0));
  }

  lemma KingDanger12King()
    ensures LeapThreat(map[Square(2, 3) := Piece(King, Black)], White, Square(3, 4), KingSteps, King)
  {
  }

  /** Black king on (2, 3); White king remembered on (3, 4): in danger. */
  lemma KingDanger12()
    ensures KingInDanger(map[Square(2, 3) := Piece(King, Black)], White, Square(3, 4))
  {
    KingDanger12King();
    DangerParts(map[Square(2, 3) := Piece(King, Black)], White, Square(3, 4));
  }

  lemma KingDanger13King()
    ensures LeapThreat(map[Square(2, 4) := Piece(King, Black)], White, Square(3, 4), KingSteps, King)
  {
  }

  /** Black king on (2, 4); White king remembered on (3, 4): in danger. */
  lemma KingDanger13()
    ensures KingInDanger(map[Square(2, 4) := Piece(King, Black)], White, Square(3, 4))
  {
    KingDanger13King();
    DangerParts(map[Square(2, 4) := Piece(King, Black)], White, Square(3, 4));
  }

  lemma KingDanger14King()
    ensures LeapThreat(map[Square(2, 5) := Piece(King, Black)], White, Square(3, 4), KingSteps, King)
  {
  }

  /** Black king on (2, 5); White king remembered on (3, 4): in danger. */
  lemma KingDanger14()
    ensures KingInDanger(map[Square(2, 5) := Piece(King, Black)], White, Square(3, 4))
  {
    KingDanger14King();
    DangerParts(map[Square(2, 5) := Piece(King, Black)], White, Square(3, 4));
  }

  lemma KingDanger15King()
    ensures LeapThreat(map[Square(3, 5) := Piece(King, Black)], White, Square(3, 4), KingSteps, King)
  {
  }

  /** Black king on (3, 5); White king remembered on (3, 4): in danger. */
  lemma KingDanger15()
    ensures KingInDanger(map[Square(3, 5) := Piece(King, Black)], White, Square(3, 4))
  {
    KingDanger15King();
    DangerParts(map[Square(3, 5) := Piece(King, Black)], White, Square(3, 4));
  }

  lemma KingDanger16King()
    ensures LeapThreat(map[Square(4, 5) := Piece(King, Black)], White, Square(3, 4), KingSteps, King)
  {
  }

  /** Black king on (4, 5); White king remembered on (3, 4): in danger. */
  lemma KingDanger16()
    ensures KingInDanger(map[Square(4, 5) := Piece(King, Black)], White, Square(3, 4))
  {
    KingDanger16King();
    DangerParts(map[Square(4, 5) := Piece(King, Black)], White, Square(3, 4));
  }

  lemma KingDanger17King()
    ensures LeapThreat(map[Square(4, 3) := Piece(King, Black)], White, Square(3, 4), KingSteps, King)
  {
  }

  /** Black king on (4, 3); White king remembered on (3, 4): in danger. */
  lemma KingDanger17()
    ensures KingInDanger(map[Square(4, 3) := Piece(King, Black)], White, Square(3, 4))
  {
    KingDanger17King();
    DangerParts(map[Square(4, 3) := Piece(King, Black)], White, Square(3, 4));
  }

  lemma KingDanger18King()
    ensures LeapThreat(map[Square(3, 3) := Piece(King, Black)], White, Square(3, 4), KingSteps, King)
  {
  }

  /** Black king on (3, 3); White king remembered on (3, 4): in danger. */
  lemma KingDanger18()
    ensures KingInDanger(map[Square(3, 3) := Piece(King, Black)], White, Square(3, 4))
  {
    KingDanger18King();
    DangerParts(map[Square(3, 3) := Piece(King, Black)], White, Square(3, 4));
  }

  lemma KingDanger19King()
    ensures LeapThreat(map[Square(1, 0) := Piece(King, Black)], White, Square(0, 0), KingSteps, King)
  {
  }

  /** Black king on (1, 0); White king remembered on (0, 0): in danger. */
  lemma KingDanger19()
    ensures KingInDanger(map[Square(1, 0) := Piece(King, Black)], White, Square(0, 0))
  {
    KingDanger19King();
    DangerParts(map[Square(1, 0) := Piece(King, Black)], White, Square(0, 0));
  }

  lemma KingDanger20King()
    ensures LeapThreat(map[Square(0, 1) := Piece(King, Black)], White, Square(0, 0), KingSteps, King)
  {
  }

  /** Black king on (0, 1); White king remembered on (0, 0): in danger. */
  lemma KingDanger20()
    ensures KingInDanger(map[Square(0, 1) := Piece(King, Black)], White, Square(0, 0))
  {
    KingDanger20King();
    DangerParts(map[Square(0, 1) := Piece(King, Black)], White, Square(0, 0));
  }

  lemma KingDanger21King()
    ensures LeapThreat(map[Square(6, 7) := Piece(King, Black)], White, Square(7, 7), KingSteps, King)
  {
  }

  /** Black king on (6, 7); White king remembered on (7, 7): in danger. */
  lemma KingDanger21()
    ensures KingInDanger(map[Square(6, 7) := Piece(King, Black)], White, Square(7, 7))
  {
    KingDanger21King();
    DangerParts(map[Square(6, 7) := Piece(King, Black)], White, Square(7, 7));
  }

  lemma KingDanger22King()
    ensures LeapThreat(map[Square(7, 6) := Piece(King, Black)], White, Square(7, 7), KingSteps, King)
  {
  }

  /** Black king on (7, 6); White king remembered on (7, 7): in danger. */
  lemma KingDanger22()
    ensures KingInDanger(map[Square(7, 6) := Piece(King, Black)], White, Square(7, 7))
  {
    KingDanger22King();
    DangerParts(map[Square(7, 6) := Piece(King, Black)], White, Square(7, 7));
  }

  lemma PawnDanger1Pawn()
    ensures PawnThreat(map[Square(2, 3) := Piece(Pawn, Black)], White, Square(3, 4))
  {
  }

  /** Black pawn on (2, 3); White king remembered on (3, 4): in danger. */
  lemma PawnDanger1()
    ensures KingInDanger(map[Square(2, 3) := Piece(Pawn, Black)], White, Square(3, 4))
  {
    PawnDanger1Pawn();
    DangerParts(map[Square(2, 3) := Piece(Pawn, Black)], White, Square(3, 4));
  }

  lemma PawnDanger2Pawn()
    ensures PawnThreat(map[Square(2, 5) := Piece(Pawn, Black)], White, Square(3, 4))
  {
  }

  /** Black pawn on (2, 5); White king remembered on (3, 4): in danger. */
  lemma PawnDanger2()
    ensures KingInDanger(map[Square(2, 5) := Piece(Pawn, Black)], White, Square(3, 4))
  {
    PawnDanger2Pawn();
    DangerParts(map[Square(2, 5) := Piece(Pawn, Black)], White, Square(3, 4));
  }

  lemma PawnDanger3Rook()
    ensures !SliderThreat(map[Square(2, 3) := Piece(Pawn, White)], White, Square(3, 4), Orthogonals, Rook)
  {
  }

  lemma PawnDanger3Bishop()
    ensures !SliderThreat(map[Square(2, 3) := Piece(Pawn, White)], White, Square(3, 4), Diagonals, Bishop)
  {
  }

  lemma PawnDanger3Knight()
    ensures !LeapThreat(map[Square(2, 3) := Piece(Pawn, White)], White, Square(3, 4), KnightJumps, Knight)
  {
  }

  lemma PawnDanger3King()
    ensures !LeapThreat(map[Square(2, 3) := Piece(Pawn, White)], White, Square(3, 4), KingSteps, King)
  {
  }

  lemma PawnDanger3Pawn()
    ensures !PawnThreat(map[Square(2, 3) := Piece(Pawn, White)], White, Square(3, 4))
  {
  }

  /** White pawn on (2, 3); White king remembered on (3, 4): safe. */
  lemma PawnDanger3()
    ensures !KingInDanger(map[Square(2, 3) := Piece(Pawn, White)], White, Square(3, 4))
  {
    PawnDanger3Rook();
    PawnDanger3Bishop();
    PawnDanger3Knight();
    PawnDanger3King();
    PawnDanger3Pawn();
    DangerParts(map[Square(2, 3) := Piece(Pawn, White)], White, Square(3, 4));
  }

  lemma PawnDanger4Rook()
    ensures !SliderThreat(map[Square(2, 5) := Piece(Pawn, White)], White, Square(3, 4), Orthogonals, Rook)
  {
  }

  lemma PawnDanger4Bishop()
    ensures !SliderThreat(map[Square(2, 5) := Piece(Pawn, White)], White, Square(3, 4), Diagonals, Bishop)
  {
  }

  lemma PawnDanger4Knight()
    ensures !LeapThreat(map[Square(2, 5) := Piece(Pawn, White)], White, Square(3, 4), KnightJumps, Knight)
  {
  }

  lemma PawnDanger4King()
    ensures !LeapThreat(map[Square(2, 5) := Piece(Pawn, White)], White, Square(3, 4), KingSteps, King)
  {
  }

  lemma PawnDanger4Pawn()
    ensures !PawnThreat(map[Square(2, 5) := Piece(Pawn, White)], White, Square(3, 4))
  {
  }

  /** White pawn on (2, 5); White king remembered on (3, 4): safe. */
  lemma PawnDanger4()
    ensures !KingInDanger(map[Square(2, 5) := Piece(Pawn, White)], White, Square(3, 4))
  {
    PawnDanger4Rook();
    PawnDanger4Bishop();
    PawnDanger4Knight();
    PawnDanger4King();
    PawnDanger4Pawn();
    DangerParts(map[Square(2, 5) := Piece(Pawn, White)], White, Square(3, 4));
  }

  lemma PawnDanger5Rook()
    ensures !SliderThreat(map[Square(2, 3) := Piece(Knight, Black)], White, Square(3, 4), Orthogonals, Rook)
  {
  }

  lemma PawnDanger5Bishop()
    ensures !SliderThreat(map[Square(2, 3) := Piece(Knight, Black)], White, Square(3, 4), Diagonals, Bishop)
  {
  }

  lemma PawnDanger5Knight()
    ensures !LeapThreat(map[Square(2, 3) := Piece(Knight, Black)], White, Square(3, 4), KnightJumps, Knight)
  {
  }

  lemma PawnDanger5King()
    ensures !LeapThreat(map[Square(2, 3) := Piece(Knight, Black)], White, Square(3, 4), KingSteps, King)
  {
  }

  lemma PawnDanger5Pawn()
    ensures !PawnThreat(map[Square(2, 3) := Piece(Knight, Black)], White, Square(3, 4))
  {
  }

  /** Black knight on (2, 3); White king remembered on (3, 4): safe. */
  lemma PawnDanger5()
    ensures !KingInDanger(map[Square(2, 3) := Piece(Knight, Black)], White, Square(3, 4))
  {
    PawnDanger5Rook();
    PawnDanger5Bishop();
    PawnDanger5Knight();
    PawnDanger5King();
    PawnDanger5Pawn();
    DangerParts(map[Square(2, 3) := Piece(Knight, Black)], White, Square(3, 4));
  }

  lemma PawnDanger6Rook()
    ensures !SliderThreat(map[Square(2, 5) := Piece(Knight, Black)], White, Square(3, 4), Orthogonals, Rook)
  {
  }

  lemma PawnDanger6Bishop()
    ensures !SliderThreat(map[Square(2, 5) := Piece(Knight, Black)], White, Square(3, 4), Diagonals, Bishop)
  {
  }

  lemma PawnDanger6Knight()
    ensures !LeapThreat(map[Square(2, 5) := Piece(Knight, Black)], White, Square(3, 4), KnightJumps, Knight)
  {
  }

  lemma PawnDanger6King()
    ensures !LeapThreat(map[Square(2, 5) := Piece(Knight, Black)], White, Square(3, 4), KingSteps, King)
  {
  }

  lemma PawnDanger6Pawn()
    ensures !PawnThreat(map[Square(2, 5) := Piece(Knight, Black)], White, Square(3, 4))
  {
  }

  /** Black knight on (2, 5); White king remembered on (3, 4): safe. */
  lemma PawnDanger6()
    ensures !KingInDanger(map[Square(2, 5) := Piece(Knight, Black)], White, Square(3, 4))
  {
    PawnDanger6Rook();
    PawnDanger6Bishop();
    PawnDanger6Knight();
    PawnDanger6King();
    PawnDanger6Pawn();
    DangerParts(map[Square(2, 5) := Piece(Knight, Black)], White, Square(3, 4));
  }

  lemma PawnDanger7Pawn()
    ensures PawnThreat(map[Square(2, 3) := Piece(Pawn, White)], Black, Square(1, 4))
  {
  }

  /** White pawn on (2, 3); Black king remembered on (1, 4): in danger. */
  lemma PawnDanger7()
    ensures KingInDanger(map[Square(2, 3) := Piece(Pawn, White)], Black, Square(1, 4))
  {
    PawnDanger7Pawn();
    DangerParts(map[Square(2, 3) := Piece(Pawn, White)], Black, Square(1, 4));
  }

  lemma PawnDanger8Pawn()
    ensures PawnThreat(map[Square(2, 5) := Piece(Pawn, White)], Black, Square(1, 4))
  {
  }

  /** White pawn on (2, 5); Black king remembered on (1, 4): in danger. */
  lemma PawnDanger8()
    ensures KingInDanger(map[Square(2, 5) := Piece(Pawn, White)], Black, Square(1, 4))
  {
    PawnDanger8Pawn();
    DangerParts(map[Square(2, 5) := Piece(Pawn, White)], Black, Square(1, 4));
  }

  lemma PawnDanger9Rook()
    ensures !SliderThreat(map[Square(2, 3) := Piece(Pawn, Black)], Black, Square(1, 4), Orthogonals, Rook)
  {
  }

  lemma PawnDanger9Bishop()
    ensures !SliderThreat(map[Square(2, 3) := Piece(Pawn, Black)], Black, Square(1, 4), Diagonals, Bishop)
  {
  }

  lemma PawnDanger9Knight()
    ensures !LeapThreat(map[Square(2, 3) := Piece(Pawn, Black)], Black, Square(1, 4), KnightJumps, Knight)
  {
  }

  lemma PawnDanger9King()
    ensures !LeapThreat(map[Square(2, 3) := Piece(Pawn, Black)], Black, Square(1, 4), KingSteps, King)
  {
  }

  lemma PawnDanger9Pawn()
    ensures !PawnThreat(map[Square(2, 3) := Piece(Pawn, Black)], Black, Square(1, 4))
  {
  }

  /** Black pawn on (2, 3); Black king remembered on (1, 4): safe. */
  lemma PawnDanger9()
    ensures !KingInDanger(map[Square(2, 3) := Piece(Pawn, Black)], Black, Square(1, 4))
  {
    PawnDanger9Rook();
    PawnDanger9Bishop();
    PawnDanger9Knight();
    PawnDanger9King();
    PawnDanger9Pawn();
    DangerParts(map[Square(2, 3) := Piece(Pawn, Black)], Black, Square(1, 4));
  }

  lemma PawnDanger10Rook()
    ensures !SliderThreat(map[Square(2, 5) := Piece(Pawn, Black)], Black, Square(1, 4), Orthogonals, Rook)
  {
  }

  lemma PawnDanger10Bishop()
    ensures !SliderThreat(map[Square(2, 5) := Piece(Pawn, Black)], Black, Square(1, 4), Diagonals, Bishop)
  {
  }

  lemma PawnDanger10Knight()
    ensures !LeapThreat(map[Square(2, 5) := Piece(Pawn, Black)], Black, Square(1, 4), KnightJumps, Knight)
  {
  }

  lemma PawnDanger10King()
    ensures !LeapThreat(map[Square(2, 5) := Piece(Pawn, Black)], Black, Square(1, 4), KingSteps, King)
  {
  }

  lemma PawnDanger10Pawn()
    ensures !PawnThreat(map[Square(2, 5) := Piece(Pawn, Black)], Black, Square(1, 4))
  {
  }

  /** Black pawn on (2, 5); Black king remembered on (1, 4): safe. */
  lemma PawnDanger10()
    ensures !KingInDanger(map[Square(2, 5) := Piece(Pawn, Black)], Black, Square(1, 4))
  {
    PawnDanger10Rook();
    PawnDanger10Bishop();
    PawnDanger10Knight();
    PawnDanger10King();
    PawnDanger10Pawn();
    DangerParts(map[Square(2, 5) := Piece(Pawn, Black)], Black, Square(1, 4));
  }

  lemma PawnDanger11Rook()
    ensures !SliderThreat(map[Square(2, 3) := Piece(Knight, White)], Black, Square(1, 4), Orthogonals, Rook)
  {
  }

  lemma PawnDanger11Bishop()
    ensures !SliderThreat(map[Square(2, 3) := Piece(Knight, White)], Black, Square(1, 4), Diagonals, Bishop)
  {
  }

  lemma PawnDanger11Knight()
    ensures !LeapThreat(map[Square(2, 3) := Piece(Knight, White)], Black, Square(1, 4), KnightJumps, Knight)
  {
  }

  lemma PawnDanger11King()
    ensures !LeapThreat(map[Square(2, 3) := Piece(Knight, White)], Black, Square(1, 4), KingSteps, King)
  {
  }

  lemma PawnDanger11Pawn()
    ensures !PawnThreat(map[Square(2, 3) := Piece(Knight, White)], Black, Square(1, 4))
  {
  }

  /** White knight on (2, 3); Black king remembered on (1, 4): safe. */
  lemma PawnDanger11()
    ensures !KingInDanger(map[Square(2, 3) := Piece(Knight, White)], Black, Square(1, 4))
  {
    PawnDanger11Rook();
    PawnDanger11Bishop();
    PawnDanger11Knight();
    PawnDanger11King();
    PawnDanger11Pawn();
    DangerParts(map[Square(2, 3) := Piece(Knight, White)], Black, Square(1, 4));
  }

  lemma PawnDanger12Rook()
    ensures !SliderThreat(map[Square(2, 5) := Piece(Knight, White)], Black, Square(1, 4), Orthogonals, Rook)
  {
  }

  lemma PawnDanger12Bishop()
    ensures !SliderThreat(map[Square(2, 5) := Piece(Knight, White)], Black, Square(1, 4), Diagonals, Bishop)
  {
  }

  lemma PawnDanger12Knight()
    ensures !LeapThreat(map[Square(2, 5) := Piece(Knight, White)], Black, Square(1, 4), KnightJumps, Knight)
  {
  }

  lemma PawnDanger12King()
    ensures !LeapThreat(map[Square(2, 5) := Piece(Knight, White)], Black, Square(1, 4), KingSteps, King)
  {
  }

  lemma PawnDanger12Pawn()
    ensures !PawnThreat(map[Square(2, 5) := Piece(Knight, White)], Black, Square(1, 4))
  {
  }

  /** White knight on (2, 5); Black king remembered on (1, 4): safe. */
  lemma PawnDanger12()
    ensures !KingInDanger(map[Square(2, 5) := Piece(Knight, White)], Black, Square(1, 4))
  {
    PawnDanger12Rook();
    PawnDanger12Bishop();
    PawnDanger12Knight();
    PawnDanger12King();
    PawnDanger12Pawn();
    DangerParts(map[Square(2, 5) := Piece(Knight, White)], Black, Square(1, 4));
  }

}
