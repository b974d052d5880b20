# Chess rules engine

A Dafny model of the rules core of a two-player Swing chess game. The model
covers the parts the game's unit tests pin down:

- per-piece move generation (`move(board, row, col)`);
- the king-danger scan (`King.isindanger`), run from the square the king
  remembers for itself;
- the legality filter and self-check test (`filterdestination`,
  `willkingbeindanger`);
- the checkmate detector (`checkmate(c)`);
- the board cell with its display flags and label;
- the per-turn countdown's reset and tick;
- a player's game counters and win percentage.

Every piece of state is an immutable value. Every operation is a pure
function, except the checkmate scan, which is a method with loops.

## Layout

| file | module | contents |
|---|---|---|
| pieces.dfy | `Pieces` | colours, kinds, pieces, squares, ray directions and jump offsets, `Option` |
| boards.dfy | `Boards` | the board as a map from occupied squares to pieces, the simulation step `Relocate`, the opening position |
| movement.dfy | `Movement` | move generation per kind, plus a square-by-square reference definition of each movement rule proved equal to it |
| danger.dfy | `Danger` | `isindanger`, proved equivalent to "some enemy piece has the king's square among its moves" |
| legality.dfy | `Legality` | the game state, `willkingbeindanger`, `filterdestination`, `checkmate` and the checkmate scan |
| move_fixtures.dfy | `MoveFixtures` | the move lists of the piece tests' positions |
| danger_fixtures.dfy | `DangerFixtures` | every parameterised king-danger case of the king tests |
| legality_fixtures.dfy | `LegalityFixtures` | the filter, self-check and checkmate positions of the game tests |
| numerals.dfy | `Numerals` | decimal text of integers and its reading back |
| cells.dfy | `Cells` | the board cell: flags, copy, piece removal, label |
| clock.dfy | `Clock` | the countdown: reset, tick, runs of ticks, "m:ss" labels |
| players.dfy | `Players` | games played and won, win percentage |

## Modelling decisions

- **Colours and directions.** Colour 0 is `White` and colour 1 is `Black`.
  White's back rank is row 7 and White pawns move toward row 0. Black's back
  rank is row 0 and Black pawns move toward row 7.
- **Board.** A board is a `map<Square, Piece>` holding the occupied squares
  only. An empty cell is a square that is not in the map.
- **Move order.** `Moves` lists destinations in a fixed generation order:
  - rook rays up, down, left, right;
  - bishop rays in the order of `Diagonals`;
  - a queen's rook rays, then its bishop rays;
  - knight and king targets in the order of their offset tables.

  The tests compare destination *sets*, so the order inside one piece's list
  is a modelling choice. What matters is membership: `MovesMatchRules` proves
  it for every board.
- **Remembered king squares.** The game remembers each king's square
  (`Game.whiteKing`, `Game.blackKing`), as the source's static king references
  do. `isindanger` scans from that remembered square, whatever stands there
  on the board.
- **Which king the filter guards.** The filter and the self-check test guard
  the king of the side being asked about. A moved king is checked on its new
  square. Any other move is checked against the remembered square.
- **Checkmate.** `checkmate(c)` is true when no piece of colour `c` has a
  filtered destination. It does not ask whether the king is attacked right
  now. So a stalemated side is reported as mated: see
  `LegalityFixtures.StalemateCountsAsMate`. This follows the code, whose
  own test of the stalemate position is disabled with the note "checkmate
  returns true on stalemate end game". The game's design intends `false`
  there; the model keeps the code's answer.
- **Opening layout.** The opening position has the king on column 3 and the
  queen on column 4 of both back ranks. This follows the code, whose layout
  test (expecting the queen on column 3) is disabled with the note that king
  and queen are misplaced.
- **Win percentage with no games.** `winpercent` on a player with no games
  divides by zero. The model returns `None` there.
- **Clock ticks.** A tick with time left shows the remaining seconds and
  counts one down. A tick with none left shows "Time's up!" and resets to
  60 seconds. The label text is kept apart from the tick (`Display`,
  `Text`), so the runs of ticks and their labels are stated separately.

## Model

| member | source | states |
|---|---|---|
| Boards.Relocate | src/test/java/chess/MainTest.java:68-90 | The simulated board: the moved square is emptied, the target holds the moved occupant, and every other square keeps its occupant. |
| Boards.InitialLayout | src/test/java/chess/MainTest.java:36-61 | The opening board holds the back ranks on rows 0 and 7 (king on column 3, queen on column 4, as the code places them), pawns on rows 1 and 6, and nothing elsewhere. |
| Movement.RayMembers | src/test/java/pieces/RookTest.java:44-96 | A ray holds exactly the squares a slider reaches in that direction: on the board, every square before it empty, and not holding an own piece. |
| Movement.RaysMembers | src/test/java/pieces/QueenTest.java:123-219 | A list of rays holds exactly the squares reached along one of its directions. |
| Movement.LeapsMembers | src/test/java/pieces/KnightTest.java:32-52 | The knight and king targets are exactly the on-board offset squares not holding an own piece; nothing between blocks them. |
| Movement.PawnMovesMembers | src/test/java/pieces/PawnTest.java:61-289 | A pawn reaches exactly: the free square ahead, the free double step from its start row over a free square, and each forward diagonal holding an enemy. |
| Movement.MovesMatchRules | src/test/java/pieces/QueenTest.java:30-63 | For every kind, board and start square, `move` produces exactly the destinations that kind's movement rule allows. |
| Movement.MovesStayOnBoard | src/test/java/pieces/QueenTest.java:65-121 | Every generated destination is on the board and holds no piece of the mover's colour. |
| Danger.DangerMeansAttacked | src/test/java/pieces/KingTest.java:114-123 | For a piece of colour c on square k, `isindanger` holds exactly when some enemy piece has k among its moves. |
| Legality.ExposesMeansAttacked | src/test/java/chess/MainTest.java:68-90 | When the moved piece is not a king and the guarded king still stands on its remembered square, the move exposes it exactly when some enemy piece has that square among its moves on the board after the move. |
| Legality.KingMoveExposesMeansAttacked | src/test/java/chess/MainTest.java:137-155 | A king that moves is exposed exactly when some enemy piece has its new square among its moves on the board after the move. |
| Legality.WillKingBeInDangerMeansAttacked | src/test/java/chess/MainTest.java:68-90 | For a piece of the side to move, `willkingbeindanger` holds exactly when, after the move, an enemy piece reaches that side's king: the moved king on its new square, or otherwise the king on its remembered square. |
| Danger.DangerIsAttack | src/test/java/pieces/KingTest.java:125-304 | Every threat `isindanger` reports (line, diagonal, knight, adjacent king, colour-correct pawn) is a real enemy move onto the king's square. |
| Danger.AttackIsDanger | src/test/java/pieces/KingTest.java:125-304 | Every enemy move onto the king's square is reported by `isindanger`. |
| Legality.SafeMembers | src/test/java/chess/MainTest.java:96-155 | The filter keeps a candidate exactly when it is among the inputs and its move leaves the guarded king unattacked. |
| Legality.SafeIsSubsequence | src/test/java/chess/MainTest.java:96-103 | The filter's result is a subsequence of its input: order is preserved. |
| Legality.SafeUnchanged | src/test/java/chess/MainTest.java:96-103 | The filter returns its input unchanged exactly when no candidate exposes the king. |
| Legality.SafeIdempotent | src/test/java/chess/MainTest.java:96-155 | Filtering an already filtered list removes nothing. |
| Legality.FilterDestinationMembers | src/test/java/chess/MainTest.java:92-155 | `filterdestination` keeps a candidate exactly when `willkingbeindanger` is false for it, and keeps the input order. |
| Legality.CheckmateMeansNoLegalMove | src/test/java/chess/MainTest.java:157-221 | `checkmate(c)` holds exactly when no square holding a piece of colour c has a filtered destination; whether the king is attacked is not consulted. |
| Legality.LegalMoveRefutesCheckmate | src/test/java/chess/MainTest.java:163-167 | One piece of colour c with a move that keeps its king safe makes that move legal and `checkmate(c)` false. |
| Legality.CheckmateScan | src/test/java/chess/MainTest.java:157-221 | The row-by-row scan answers true exactly when no piece of colour c has a legal move. |
| MoveFixtures.WhitePawnFromStart | src/test/java/pieces/PawnTest.java:61-69 | White pawn on (6, 4), empty board: one and two steps. |
| MoveFixtures.BlackPawnFromStart | src/test/java/pieces/PawnTest.java:74-82 | Black pawn on (1, 4), empty board: one and two steps. |
| MoveFixtures.WhitePawnLeftEdge | src/test/java/pieces/PawnTest.java:87-94 | White pawn on (4, 0): only the single step. |
| MoveFixtures.BlackPawnLeftEdge | src/test/java/pieces/PawnTest.java:99-106 | Black pawn on (4, 0): only the single step. |
| MoveFixtures.WhitePawnRightEdge | src/test/java/pieces/PawnTest.java:111-118 | White pawn on (4, 7): only the single step. |
| MoveFixtures.BlackPawnRightEdge | src/test/java/pieces/PawnTest.java:123-130 | Black pawn on (4, 7): only the single step. |
| MoveFixtures.WhitePawnAtEnd | src/test/java/pieces/PawnTest.java:135-139 | White pawn on row 0 has no moves. |
| MoveFixtures.WhitePawnDoubleBlocked | src/test/java/pieces/PawnTest.java:154-162 | A piece on the double-step square leaves only the single step (White). |
| MoveFixtures.BlackPawnDoubleBlocked | src/test/java/pieces/PawnTest.java:167-175 | A piece on the double-step square leaves only the single step (Black). |
| MoveFixtures.WhitePawnBlocked | src/test/java/pieces/PawnTest.java:180-187 | Blocked ahead and own pieces on both diagonals: nothing (White). |
| MoveFixtures.BlackPawnBlocked | src/test/java/pieces/PawnTest.java:192-199 | Blocked ahead and own pieces on both diagonals: nothing (Black). |
| MoveFixtures.WhitePawnCaptures | src/test/java/pieces/PawnTest.java:204-215 | Both forward diagonals hold enemies (White). |
| MoveFixtures.BlackPawnCaptures | src/test/java/pieces/PawnTest.java:220-232 | Both forward diagonals hold enemies (Black). |
| MoveFixtures.WhitePawnLeftCapture | src/test/java/pieces/PawnTest.java:237-246 | Only the left diagonal holds an enemy (White). |
| MoveFixtures.WhitePawnRightCapture | src/test/java/pieces/PawnTest.java:251-261 | Only the right diagonal holds an enemy (White). |
| MoveFixtures.BlackPawnLeftCapture | src/test/java/pieces/PawnTest.java:266-275 | Only the left diagonal holds an enemy (Black). |
| MoveFixtures.BlackPawnRightCapture | src/test/java/pieces/PawnTest.java:280-289 | Only the right diagonal holds an enemy (Black). |
| MoveFixtures.WhitePawnOffStart | src/test/java/pieces/PawnTest.java:294-302 | White pawn on (4, 4), empty board: a single step only. |
| MoveFixtures.QueenCentre | src/test/java/pieces/QueenTest.java:30-63 | Queen on (3, 3), empty board: the 27 squares of its lines. |
| MoveFixtures.QueenEdge | src/test/java/pieces/QueenTest.java:65-92 | Queen on (0, 2): 21 squares. |
| MoveFixtures.QueenCorner | src/test/java/pieces/QueenTest.java:94-121 | Queen on (7, 0): 21 squares. |
| MoveFixtures.QueenBlocked | src/test/java/pieces/QueenTest.java:123-138 | Own pieces end rays and are excluded. |
| MoveFixtures.QueenSurrounded | src/test/java/pieces/QueenTest.java:140-152 | Surrounded by own pieces: nothing. |
| MoveFixtures.QueenOneCapture | src/test/java/pieces/QueenTest.java:154-187 | One enemy on a ray is kept and ends it. |
| MoveFixtures.QueenCaptures | src/test/java/pieces/QueenTest.java:189-219 | Each ray ends at, and includes, its first enemy. |
| MoveFixtures.RookCentre | src/test/java/pieces/RookTest.java:44-64 | Rook on (4, 4), empty board: the 14 squares of row 4 and column 4. |
| MoveFixtures.RookBlocked | src/test/java/pieces/RookTest.java:69-77 | Surrounded by own pieces: nothing. |
| MoveFixtures.RookCaptures | src/test/java/pieces/RookTest.java:82-96 | Surrounded by enemies: exactly the four captures. |
| MoveFixtures.KnightEdge | src/test/java/pieces/KnightTest.java:32-40 | Knight on (1, 0), empty board. |
| MoveFixtures.KnightOwnPiece | src/test/java/pieces/KnightTest.java:42-52 | Knight on (0, 0) with an own piece on (1, 2): no blocking, own square excluded. |
| MoveFixtures.KingCentre | src/test/java/pieces/KingTest.java:50-63 | King on (5, 5), empty board: its eight neighbours. |
| MoveFixtures.KingCorner | src/test/java/pieces/KingTest.java:65-73 | King on (7, 7): three neighbours. |
| MoveFixtures.KingOtherCorner | src/test/java/pieces/KingTest.java:76-84 | King on (0, 0): three neighbours. |
| MoveFixtures.KingNeighbours | src/test/java/pieces/KingTest.java:86-100 | Own neighbour excluded, enemy neighbour kept. |
| DangerFixtures.LineDanger1 | src/test/java/pieces/KingTest.java:134 | White queen on (5, 4); White king remembered on (3, 4): safe. |
| DangerFixtures.LineDanger2 | src/test/java/pieces/KingTest.java:135 | Black queen on (5, 4); White king remembered on (3, 4): in danger. |
| DangerFixtures.LineDanger3 | src/test/java/pieces/KingTest.java:136 | Black rook on (5, 4); White king remembered on (3, 4): in danger. |
| DangerFixtures.LineDanger4 | src/test/java/pieces/KingTest.java:137 | Black knight on (5, 4); White king remembered on (3, 4): safe. |
| DangerFixtures.LineDanger5 | src/test/java/pieces/KingTest.java:139 | White queen on (2, 4); White king remembered on (3, 4): safe. |
| DangerFixtures.LineDanger6 | src/test/java/pieces/KingTest.java:140 | Black queen on (2, 4); White king remembered on (3, 4): in danger. |
| DangerFixtures.LineDanger7 | src/test/java/pieces/KingTest.java:141 | Black rook on (2, 4); White king remembered on (3, 4): in danger. |
| DangerFixtures.LineDanger8 | src/test/java/pieces/KingTest.java:142 | Black knight on (2, 4); White king remembered on (3, 4): safe. |
| DangerFixtures.LineDanger9 | src/test/java/pieces/KingTest.java:144 | Black rook on (0, 4); White king remembered on (3, 4): in danger. |
| DangerFixtures.LineDanger10 | src/test/java/pieces/KingTest.java:146 | White queen on (3, 6); White king remembered on (3, 4): safe. |
| DangerFixtures.LineDanger11 | src/test/java/pieces/KingTest.java:147 | Black queen on (3, 6); White king remembered on (3, 4): in danger. |
| DangerFixtures.LineDanger12 | src/test/java/pieces/KingTest.java:148 | Black rook on (3, 6); White king remembered on (3, 4): in danger. |
| DangerFixtures.LineDanger13 | src/test/java/pieces/KingTest.java:149 | Black knight on (3, 6); White king remembered on (3, 4): safe. |
| DangerFixtures.LineDanger14 | src/test/java/pieces/KingTest.java:151 | White queen on (3, 2); White king remembered on (3, 4): safe. |
| DangerFixtures.LineDanger15 | src/test/java/pieces/KingTest.java:152 | Black queen on (3, 2); White king remembered on (3, 4): in danger. |
| DangerFixtures.LineDanger16 | src/test/java/pieces/KingTest.java:153 | Black rook on (3, 2); White king remembered on (3, 4): in danger. |
| DangerFixtures.LineDanger17 | src/test/java/pieces/KingTest.java:154 | Black knight on (3, 2); White king remembered on (3, 4): safe. |
| DangerFixtures.LineDanger18 | src/test/java/pieces/KingTest.java:156 | Black rook on (3, 0); White king remembered on (3, 4): in danger. |
| DangerFixtures.DiagonalDanger1 | src/test/java/pieces/KingTest.java:170 | White queen on (1, 6); White king remembered on (3, 4): safe. |
| DangerFixtures.DiagonalDanger2 | src/test/java/pieces/KingTest.java:171 | Black queen on (1, 6); White king remembered on (3, 4): in danger. |
| DangerFixtures.DiagonalDanger3 | src/test/java/pieces/KingTest.java:172 | Black bishop on (1, 6); White king remembered on (3, 4): in danger. |
| DangerFixtures.DiagonalDanger4 | src/test/java/pieces/KingTest.java:173 | Black knight on (1, 6); White king remembered on (3, 4): safe. |
| DangerFixtures.DiagonalDanger5 | src/test/java/pieces/KingTest.java:175 | Black bishop on (0, 7); White king remembered on (3, 4): in danger. |
| DangerFixtures.DiagonalDanger6 | src/test/java/pieces/KingTest.java:177 | White queen on (1, 2); White king remembered on (3, 4): safe. |
| DangerFixtures.DiagonalDanger7 | src/test/java/pieces/KingTest.java:178 | Black queen on (1, 2); White king remembered on (3, 4): in danger. |
| DangerFixtures.DiagonalDanger8 | src/test/java/pieces/KingTest.java:179 | Black bishop on (1, 2); White king remembered on (3, 4): in danger. |
| DangerFixtures.DiagonalDanger9 | src/test/java/pieces/KingTest.java:180 | Black knight on (1, 2); White king remembered on (3, 4): safe. |
| DangerFixtures.DiagonalDanger10 | src/test/java/pieces/KingTest.java:182 | Black bishop on (0, 0); White king remembered on (4, 4): in danger. |
| DangerFixtures.DiagonalDanger11 | src/test/java/pieces/KingTest.java:184 | White queen on (5, 6); White king remembered on (3, 4): safe. |
| DangerFixtures.DiagonalDanger12 | src/test/java/pieces/KingTest.java:185 | Black queen on (5, 6); White king remembered on (3, 4): in danger. |
| DangerFixtures.DiagonalDanger13 | src/test/java/pieces/KingTest.java:186 | Black bishop on (5, 6); White king remembered on (3, 4): in danger. |
| DangerFixtures.DiagonalDanger14 | src/test/java/pieces/KingTest.java:187 | Black knight on (5, 6); White king remembered on (3, 4): safe. |
| DangerFixtures.DiagonalDanger15 | src/test/java/pieces/KingTest.java:189 | Black bishop on (7, 7); White king remembered on (4, 4): in danger. |
| DangerFixtures.DiagonalDanger16 | src/test/java/pieces/KingTest.java:191 | White queen on (5, 2); White king remembered on (3, 4): safe. |
| DangerFixtures.DiagonalDanger17 | src/test/java/pieces/KingTest.java:192 | Black queen on (5, 2); White king remembered on (3, 4): in danger. |
| DangerFixtures.DiagonalDanger18 | src/test/java/pieces/KingTest.java:193 | Black bishop on (5, 2); White king remembered on (3, 4): in danger. |
| DangerFixtures.DiagonalDanger19 | src/test/java/pieces/KingTest.java:194 | Black knight on (5, 2); White king remembered on (3, 4): safe. |
| DangerFixtures.DiagonalDanger20 | src/test/java/pieces/KingTest.java:196 | Black bishop on (7, 0); White king remembered on (3, 4): in danger. |
| DangerFixtures.KnightDanger1 | src/test/java/pieces/KingTest.java:211 | White knight on (2, 2); White king remembered on (3, 4): safe. |
| DangerFixtures.KnightDanger2 | src/test/java/pieces/KingTest.java:213 | Black knight on (2, 2); White king remembered on (3, 4): in danger. |
| DangerFixtures.KnightDanger3 | src/test/java/pieces/KingTest.java:215 | Black bishop on (2, 2); White king remembered on (3, 4): safe. |
| DangerFixtures.KnightDanger4 | src/test/java/pieces/KingTest.java:217 | Black knight on (4, 2); White king remembered on (3, 4): in danger. |
| DangerFixtures.KnightDanger5 | src/test/java/pieces/KingTest.java:218 | Black knight on (4, 6); White king remembered on (3, 4): in danger. |
| DangerFixtures.KnightDanger6 | src/test/java/pieces/KingTest.java:219 | Black knight on (5, 3); White king remembered on (3, 4): in danger. |
| DangerFixtures.KnightDanger7 | src/test/java/pieces/KingTest.java:220 | Black knight on (5, 5); White king remembered on (3, 4): in danger. |
| DangerFixtures.KnightDanger8 | src/test/java/pieces/KingTest.java:222 | Black knight on (2, 6); White king remembered on (3, 4): in danger. |
| DangerFixtures.KnightDanger9 | src/test/java/pieces/KingTest.java:223 | Black knight on (1, 3); White king remembered on (3, 4): in danger. |
| DangerFixtures.KnightDanger10 | src/test/java/pieces/KingTest.java:224 | Black knight on (1, 5); White king remembered on (3, 4): in danger. |
| DangerFixtures.KnightDanger11 | src/test/java/pieces/KingTest.java:225 | Black knight on (0, 3); White king remembered on (1, 1): in danger. |
| DangerFixtures.KnightDanger12 | src/test/java/pieces/KingTest.java:226 | Black knight on (3, 0); White king remembered on (1, 1): in danger. |
| DangerFixtures.KnightDanger13 | src/test/java/pieces/KingTest.java:227 | Black knight on (7, 4); White king remembered on (6, 6): in danger. |
| DangerFixtures.KnightDanger14 | src/test/java/pieces/KingTest.java:228 | Black knight on (4, 7); White king remembered on (6, 6): in danger. |
| DangerFixtures.KingDanger1 | src/test/java/pieces/KingTest.java:249 | White king on (4, 4); White king remembered on (3, 4): safe. |
| DangerFixtures.KingDanger2 | src/test/java/pieces/KingTest.java:251 | Black king on (4, 4); White king remembered on (3, 4): in danger. |
| DangerFixtures.KingDanger3 | src/test/java/pieces/KingTest.java:253 | Black bishop on (4, 4); White king remembered on (3, 4): safe. |
| DangerFixtures.KingDanger4 | src/test/java/pieces/KingTest.java:255 | Nothing; White king remembered on (0, 0): safe. |
| DangerFixtures.KingDanger5 | src/test/java/pieces/KingTest.java:256 | Nothing; White king remembered on (7, 7): safe. |
| DangerFixtures.KingDanger6 | src/test/java/pieces/KingTest.java:257 | Nothing; White king remembered on (0, 7): safe. |
| DangerFixtures.KingDanger7 | src/test/java/pieces/KingTest.java:258 | Nothing; White king remembered on (7, 0): safe. |
| DangerFixtures.KingDanger8 | src/test/java/pieces/KingTest.java:259 | Nothing; Black king remembered on (0, 0): safe. |
| DangerFixtures.KingDanger9 | src/test/java/pieces/KingTest.java:260 | Nothing; Black king remembered on (7, 7): safe. |
| DangerFixtures.KingDanger10 | src/test/java/pieces/KingTest.java:261 | Nothing; Black king remembered on (0, 7): safe. |
| DangerFixtures.KingDanger11 | src/test/java/pieces/KingTest.java:262 | Nothing; Black king remembered on (7, 0): safe. |
| DangerFixtures.KingDanger12 | src/test/java/pieces/KingTest.java:264 | Black king on (2, 3); White king remembered on (3, 4): in danger. |
| DangerFixtures.KingDanger13 | src/test/java/pieces/KingTest.java:265 | Black king on (2, 4); White king remembered on (3, 4): in danger. |
| DangerFixtures.KingDanger14 | src/test/java/pieces/KingTest.java:266 | Black king on (2, 5); White king remembered on (3, 4): in danger. |
| DangerFixtures.KingDanger15 | src/test/java/pieces/KingTest.java:267 | Black king on (3, 5); White king remembered on (3, 4): in danger. |
| DangerFixtures.KingDanger16 | src/test/java/pieces/KingTest.java:268 | Black king on (4, 5); White king remembered on (3, 4): in danger. |
| DangerFixtures.KingDanger17 | src/test/java/pieces/KingTest.java:269 | Black king on (4, 3); White king remembered on (3, 4): in danger. |
| DangerFixtures.KingDanger18 | src/test/java/pieces/KingTest.java:270 | Black king on (3, 3); White king remembered on (3, 4): in danger. |
| DangerFixtures.KingDanger19 | src/test/java/pieces/KingTest.java:271 | Black king on (1, 0); White king remembered on (0, 0): in danger. |
| DangerFixtures.KingDanger20 | src/test/java/pieces/KingTest.java:272 | Black king on (0, 1); White king remembered on (0, 0): in danger. |
| DangerFixtures.KingDanger21 | src/test/java/pieces/KingTest.java:273 | Black king on (6, 7); White king remembered on (7, 7): in danger. |
| DangerFixtures.KingDanger22 | src/test/java/pieces/KingTest.java:274 | Black king on (7, 6); White king remembered on (7, 7): in danger. |
| DangerFixtures.PawnDanger1 | src/test/java/pieces/KingTest.java:290 | Black pawn on (2, 3); White king remembered on (3, 4): in danger. |
| DangerFixtures.PawnDanger2 | src/test/java/pieces/KingTest.java:291 | Black pawn on (2, 5); White king remembered on (3, 4): in danger. |
| DangerFixtures.PawnDanger3 | src/test/java/pieces/KingTest.java:292 | White pawn on (2, 3); White king remembered on (3, 4): safe. |
| DangerFixtures.PawnDanger4 | src/test/java/pieces/KingTest.java:293 | White pawn on (2, 5); White king remembered on (3, 4): safe. |
| DangerFixtures.PawnDanger5 | src/test/java/pieces/KingTest.java:294 | Black knight on (2, 3); White king remembered on (3, 4): safe. |
| DangerFixtures.PawnDanger6 | src/test/java/pieces/KingTest.java:295 | Black knight on (2, 5); White king remembered on (3, 4): safe. |
| DangerFixtures.PawnDanger7 | src/test/java/pieces/KingTest.java:297 | White pawn on (2, 3); Black king remembered on (1, 4): in danger. |
| DangerFixtures.PawnDanger8 | src/test/java/pieces/KingTest.java:298 | White pawn on (2, 5); Black king remembered on (1, 4): in danger. |
| DangerFixtures.PawnDanger9 | src/test/java/pieces/KingTest.java:299 | Black pawn on (2, 3); Black king remembered on (1, 4): safe. |
| DangerFixtures.PawnDanger10 | src/test/java/pieces/KingTest.java:300 | Black pawn on (2, 5); Black king remembered on (1, 4): safe. |
| DangerFixtures.PawnDanger11 | src/test/java/pieces/KingTest.java:301 | White knight on (2, 3); Black king remembered on (1, 4): safe. |
| DangerFixtures.PawnDanger12 | src/test/java/pieces/KingTest.java:302 | White knight on (2, 5); Black king remembered on (1, 4): safe. |
| LegalityFixtures.OpeningPawnStepIsSafe | src/test/java/chess/MainTest.java:68-71 | From the opening position, the pawn step (6, 2) -> (6, 3) leaves the White king safe. |
| LegalityFixtures.RookMoveChecksKing | src/test/java/chess/MainTest.java:73-80 | A Black rook moved onto the White king's rank puts that king in danger. |
| LegalityFixtures.KnightMoveDiscoversCheck | src/test/java/chess/MainTest.java:82-90 | Moving the White knight off the back rank opens the Black rook's line to the White king. |
| LegalityFixtures.OpeningPawnKeepsBoth | src/test/java/chess/MainTest.java:96-103 | Both pawn moves from (6, 0) in the opening position are kept, in order. |
| LegalityFixtures.PinnedKnightKeepsNone | src/test/java/chess/MainTest.java:105-120 | A knight pinned to its king by a rook keeps none of its moves, the capture included. |
| LegalityFixtures.PinnedBishopKeepsCapture | src/test/java/chess/MainTest.java:122-135 | A bishop pinned along a diagonal keeps only the capture of the pinning bishop. |
| LegalityFixtures.KingAvoidsRookRank | src/test/java/chess/MainTest.java:137-155 | A king next to a rook's rank keeps only the squares the rook does not reach. |
| LegalityFixtures.OpeningIsNoMate | src/test/java/chess/MainTest.java:163-167 | Neither side is mated in the opening position. |
| LegalityFixtures.BackRankMate | src/test/java/chess/MainTest.java:182-195 | A rook on the back rank mates the Black king behind its own pawns; White is not mated. |
| LegalityFixtures.AnderssenMate | src/test/java/chess/MainTest.java:197-208 | Anderssen's mate: rook and pawn, supported by the king, mate Black; White is not mated. |
| LegalityFixtures.DamianoMate | src/test/java/chess/MainTest.java:210-221 | Damiano's bishop mate: the queen, guarded by the bishop, mates Black; White is not mated. |
| LegalityFixtures.StalemateCountsAsMate | src/test/java/chess/MainTest.java:169-180 | A stalemated Black king is not in danger, yet no Black move is legal, so it is reported as mated. |
| Numerals.NatText | src/test/java/chess/TimeTest.java:44-63 | The decimal text of a count: non-empty, digits only, no leading zero, and a single digit exactly below ten. |
| Numerals.NatTextValue | src/test/java/chess/TimeTest.java:44-63 | The digits of a count's text denote that count. |
| Numerals.IntTextRoundTrip | src/test/java/chess/CellTest.java:29-32 | Reading back the decimal text of any int gives that int. |
| Numerals.IntTextInjective | src/test/java/chess/CellTest.java:29-32 | Different ints have different decimal texts. |
| Cells.NewCell | src/test/java/chess/CellTest.java:17-24 | A new cell has the given position and piece and every flag down. |
| Cells.CopyOf | src/test/java/chess/CellTest.java:37-60 | The copy constructor keeps position and piece (present or not) and starts with its flags down. |
| Cells.RemovePiece | src/test/java/chess/CellTest.java:65-78 | `removePiece` empties the cell, whatever it held, and changes nothing else. |
| Cells.SetPiece | src/test/java/chess/MainTest.java:75-77 | `setPiece` puts the piece in the cell and changes nothing else. |
| Cells.Select | src/test/java/chess/CellTest.java:83-87 | `select` raises the selected flag and changes nothing else. |
| Cells.Deselect | src/test/java/chess/CellTest.java:92-97 | `deselect` lowers the selected flag and changes nothing else. |
| Cells.SetPossibleDestination | src/test/java/chess/CellTest.java:102-106 | `setpossibledestination` raises its flag and changes nothing else. |
| Cells.RemovePossibleDestination | src/test/java/chess/CellTest.java:111-116 | `removepossibledestination` lowers its flag and changes nothing else. |
| Cells.SetCheck | src/test/java/chess/CellTest.java:121-125 | `setcheck` raises the check flag whether or not the cell holds a king, and changes nothing else. |
| Cells.RemoveCheck | src/test/java/chess/CellTest.java:130-146 | `removecheck` lowers the check flag and changes nothing else. |
| Cells.Label | src/test/java/chess/CellTest.java:29-32 | `toString` is bracketed text of at least six characters. |
| Cells.LabelRoundTrip | src/test/java/chess/CellTest.java:29-32 | Reading a cell's "(row, col)" label back gives its row and column. |
| Cells.ParseLabelParts | src/test/java/chess/CellTest.java:29-32 | A bracketed "a, b" with no comma in a reads as the pair of a and b read as ints, and is rejected when either does not read. |
| Cells.LabelsIdentifyPositions | src/test/java/chess/CellTest.java:29-32 | Two cells have the same label exactly when they stand on the same position. |
| Cells.SelectionToggles | src/test/java/chess/CellTest.java:92-97 | Deselecting undoes a selection and selecting undoes a deselection; each is idempotent. |
| Cells.DestinationToggles | src/test/java/chess/CellTest.java:111-116 | Removing the destination flag undoes setting it, and the reverse. |
| Cells.CheckToggles | src/test/java/chess/CellTest.java:130-146 | Removing the check flag undoes setting it, and the reverse. |
| Cells.FlagsCommute | src/test/java/chess/CellTest.java:83-146 | The flags are independent: switching one never disturbs another, in either order, nor does removing the piece. |
| Cells.CopyKeepsPosition | src/test/java/chess/CellTest.java:37-60 | A copy has its source's label, equals its source as a value exactly when the source's flags are all down, and copying twice is copying once. |
| Cells.LabelOfFourFour | src/test/java/chess/CellTest.java:29-32 | Cell (4, 4) holding a White pawn is labelled "(4, 4)". |
| Cells.RemovingEmpties | src/test/java/chess/CellTest.java:65-78 | Removing the pawn from (4, 4) or the king from (2, 3) leaves the cell empty. |
| Cells.CheckOnPawnCell | src/test/java/chess/CellTest.java:140-146 | On a cell holding no king, `setcheck` raises the flag and `removecheck` then lowers it. |
| Clock.Reset | src/test/java/chess/TimeTest.java:37-42 | `reset` restores the full 60 seconds, whatever was left. |
| Clock.Step | src/test/java/chess/TimeTest.java:44-82 | A tick with r > 0 seconds left shows r and leaves r - 1; a tick with none left shows the time-out notice and leaves 60. |
| Clock.ClockTextRoundTrip | src/test/java/chess/TimeTest.java:52-82 | Reading an "m:ss" label back gives the remaining seconds; seconds below ten are padded to two digits. |
| Clock.ClockTextInjective | src/test/java/chess/TimeTest.java:52-82 | Different remaining times show different labels. |
| Clock.PaddedSecondsReads | src/test/java/chess/TimeTest.java:69-82 | The seconds part is always two digits and reads back as the seconds. |
| Clock.RunSplits | src/test/java/chess/TimeTest.java:52-63 | n ticks followed by m ticks are n + m ticks: the shown values concatenate. |
| Clock.CountsDown | src/test/java/chess/TimeTest.java:52-63 | From s seconds, the i-th of n <= s ticks shows s - i, and n ticks leave s - n. |
| Clock.CountsDownToTimesUp | src/test/java/chess/TimeTest.java:69-82 | From s seconds the clock shows s down to 1, then the time-out notice, and is back at 60. |
| Clock.ResetFromOneSecond | src/test/java/chess/TimeTest.java:37-42 | Resetting with one second left gives 60. |
| Clock.FirstTick | src/test/java/chess/TimeTest.java:44-50 | The first tick of a full clock writes "1:00" and leaves 59. |
| Clock.FiveTicks | src/test/java/chess/TimeTest.java:52-63 | Five ticks of a full clock show 60, 59, 58, 57, 56 and leave 55. |
| Clock.FiveTicksLabels | src/test/java/chess/TimeTest.java:57-61 | Those five ticks write "1:00", "0:59", "0:58", "0:57", "0:56". |
| Clock.RunsOut | src/test/java/chess/TimeTest.java:69-82 | Six ticks from 5 seconds show 5 down to 1, then the time-out notice, and leave 60. |
| Clock.RunsOutLabels | src/test/java/chess/TimeTest.java:75-80 | Those six ticks write "0:05" to "0:01", then "Time's up!". |
| Players.NewPlayer | src/test/java/chess/PlayerTest.java:44 | A new player has played and won nothing. |
| Players.UpdateGamesPlayed | src/test/java/chess/PlayerTest.java:69-80 | `updateGamesPlayed` adds one game played and changes nothing else. |
| Players.UpdateGamesWon | src/test/java/chess/PlayerTest.java:69-80 | `updateGamesWon` adds one game won and changes nothing else. |
| Players.WinPercent | src/test/java/chess/PlayerTest.java:63-93 | `winpercent` is undefined exactly when no game was played; otherwise it is the whole percentage rounded down: q * played <= 100 * won < (q + 1) * played. |
| Players.Quotient | src/test/java/chess/PlayerTest.java:69-93 | Whole division of non-negative ints: the quotient times the divisor is at most the dividend, and one more is too much. |
| Players.PercentInRange | src/test/java/chess/PlayerTest.java:82-93 | With no more wins than games the percentage lies in 0 to 100, and is 100 exactly when every game was won. |
| Players.PercentMonotone | src/test/java/chess/PlayerTest.java:69-93 | For the same number of games, more wins never give a lower percentage. |
| Players.LossNeverRaisesPercent | src/test/java/chess/PlayerTest.java:69-80 | Recording a game without a win never raises the percentage. |
| Players.WinNeverLowersPercent | src/test/java/chess/PlayerTest.java:69-93 | Recording a won game never lowers the percentage. |
| Players.UpdatesCommute | src/test/java/chess/PlayerTest.java:69-80 | Recording a game and recording a win give the same record in either order. |
| Players.HalfWon | src/test/java/chess/PlayerTest.java:69-80 | Played, won, played, played, won, played: 4 played, 2 won, 50 per cent. |
| Players.AllWon | src/test/java/chess/PlayerTest.java:82-93 | Three games played and three won: 100 per cent. |
| Players.FreshPlayerHasNoPercent | src/test/java/chess/PlayerTest.java:63-67 | A fresh player has no percentage: the division by zero. |

## Left out

- The Swing interface (windows, buttons, mouse and keyboard handling) is not modelled. It only drives the engine.
- Player persistence (`fetch_players`, `Update_Player`) is not modelled: it is object-stream file I/O.
- The Swing timer is not modelled: its real-time scheduling, its one-second initial delay, and the turn change the game makes when time runs out. Only `reset` and the tick transition are modelled.
- The bishop's own test asserts nothing. The bishop's rays are the `Diagonals` rays, which the queen and king-danger positions exercise.
- En passant is not modelled. Only a disabled test describes it.
- Movement.PawnMoves: a Black pawn on row 7 gets no moves here. The source tests for row 8 instead of row 7, so there it fails with an index error. This cannot happen in play, because the game promotes a pawn as soon as it reaches its last row.
- Clock.Reset: the allowance is fixed at the 60 seconds the timer tests use. The game's time slider, which sets it, belongs to the interface and is not modelled.
- Castling, promotion and the rule that kings may not stand side by side are not modelled. No enabled test exercises them.
- Executing a chosen move is not modelled: the capture, the automatic queen promotion, the king-reference update and the turn flip. No enabled test states them.
- Piece ids and image paths are not modelled. The rules never read them, so a piece is just its kind and colour, and a piece's `getcopy` is the same value.
- Re-calling `move` replaces the previous result rather than adding to it. This needs no statement here: `Moves` is a pure function with no remembered list.
- Cells.CopyOf: the copy constructor's object identity is not modelled. The source's copy is a distinct object, never equal to its original. Here cells are values, and a copy equals its original exactly when the original's flags are all down (`Cells.CopyKeepsPosition`).
- Legality.Exposes: it requires both remembered king squares to be on the board (`Ready`). The source would fail with an index error otherwise.
- Legality.Exposes: a remembered square with no king on it is not treated as an error. The scan runs from the remembered square whatever stands there.
- Players.UpdateGamesPlayed: Java's 32-bit `int` wrap-around after 2^31 - 1 games is not modelled. The counters are unbounded naturals.
- Players.UpdateGamesWon: likewise, the count of wins is unbounded.
- Players.WinPercent: the overflow of `100 * won` for more than about 21 million wins is not modelled. The percentage is computed exactly.
- Clock.Step: the label is shown through the `Display` value and its text `Clock.Text`. The clock does not call into a label object.
