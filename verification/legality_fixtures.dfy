/**
 * The controller's positions from its tests: kings in danger after a
 * simulated move, filtered destination lists and checkmate verdicts.
 *
 * Each verdict is assembled from small facts (one simulated board, one
 * direction, one candidate) joined by the lemmas at the top of the module.
 */
module LegalityFixtures {
  import opened Pieces
  import opened Boards
  import opened Movement
  import opened Danger
  import opened Legality
  import opened DangerFixtures

  /** A moved piece that is not a king leaves the remembered king of `side` to be judged. */
  lemma ExposesGuarded(g: Game, side: Colour, from: Square, to: Square, after: Board)
    requires Ready(g) && OnBoard(to)
    requires from !in g.board || g.board[from].kind != King
    requires Relocate(g.board, from, to) == after
    ensures Exposes(g, side, from, to) == KingInDanger(after, side, KingSquare(g, side))
  {
  }

  /** A moved king is judged on its new square. */
  lemma ExposesKing(g: Game, side: Colour, from: Square, to: Square, after: Board, c: Colour)
    requires Ready(g) && OnBoard(to)
    requires from in g.board && g.board[from] == Piece(King, c)
    requires Relocate(g.board, from, to) == after
    ensures Exposes(g, side, from, to) == KingInDanger(after, c, to)
  {
  }

  lemma SafeNil(g: Game, side: Colour, from: Square)
    requires Ready(g)
    ensures Safe(g, side, from, []) == []
  {
  }

  /** A safe candidate is kept in front of what the rest keeps. */
  lemma SafeKeep(g: Game, side: Colour, from: Square, x: Square, rest: seq<Square>, kept: seq<Square>)
    requires Ready(g) && OnBoard(x) && AllOnBoard(rest)
    requires !Exposes(g, side, from, x) && Safe(g, side, from, rest) == kept
    ensures AllOnBoard([x] + rest) && Safe(g, side, from, [x] + rest) == [x] + kept
  {
    assert ([x] + rest)[1..] == rest;
  }

  /** An exposing candidate is dropped. */
  lemma SafeDrop(g: Game, side: Colour, from: Square, x: Square, rest: seq<Square>, kept: seq<Square>)
    requires Ready(g) && OnBoard(x) && AllOnBoard(rest)
    requires Exposes(g, side, from, x) && Safe(g, side, from, rest) == kept
    ensures AllOnBoard([x] + rest) && Safe(g, side, from, [x] + rest) == kept
  {
    assert ([x] + rest)[1..] == rest;
  }

  const Opening: Game := Game(InitialBoard, White, Square(7, 3), Square(0, 3))

  const RookCheck: Game := Game(map[Square(3, 3) := Piece(Rook, Black), Square(7, 6) := Piece(King, White)], White, Square(7, 6), Square(0, 3))

  const Discovered: Game := Game(map[
      Square(7, 0) := Piece(Rook, Black), Square(7, 4) := Piece(Knight, White),
      Square(7, 6) := Piece(King, White)
    ], White, Square(7, 6), Square(0, 3))

  const PinnedKnight: Game := Game(map[
      Square(6, 6) := Piece(Bishop, Black), Square(7, 0) := Piece(Rook, Black),
      Square(7, 4) := Piece(Knight, White), Square(7, 6) := Piece(King, White)
    ], White, Square(7, 6), Square(0, 3))

  const PinnedBishop: Game := Game(map[
      Square(5, 4) := Piece(Bishop, Black), Square(6, 5) := Piece(Bishop, White),
      Square(7, 6) := Piece(King, White)
    ], White, Square(7, 6), Square(0, 3))

  const KingBeside: Game := Game(map[Square(6, 3) := Piece(Rook, Black), Square(7, 6) := Piece(King, White)], White, Square(7, 6), Square(0, 3))

  const BackRank: Game := Game(map[
      Square(0, 0) := Piece(Rook, White), Square(0, 6) := Piece(King, Black),
      Square(1, 5) := Piece(Pawn, Black), Square(1, 6) := Piece(Pawn, Black),
      Square(1, 7) := Piece(Pawn, Black), Square(7, 6) := Piece(King, White)
    ], White, Square(7, 6), Square(0, 6))

  const Anderssen: Game := Game(map[
      Square(0, 6) := Piece(King, Black), Square(0, 7) := Piece(Rook, White),
      Square(1, 6) := Piece(Pawn, White), Square(2, 5) := Piece(King, White)
    ], White, Square(2, 5), Square(0, 6))

  const Damiano: Game := Game(map[
      Square(0, 6) := Piece(King, Black), Square(1, 6) := Piece(Queen, White),
      Square(2, 5) := Piece(Bishop, White), Square(7, 1) := Piece(King, White)
    ], White, Square(7, 1), Square(0, 6))

  const Stalemate: Game := Game(map[
      Square(0, 3) := Piece(King, Black), Square(1, 3) := Piece(Pawn, White),
      Square(2, 3) := Piece(King, White)
    ], White, Square(2, 3), Square(0, 3))

  lemma OpeningMove6263()
    ensures Relocate(Opening.board, Square(6, 2), Square(6, 3)) == map[
      Square(0, 0) := Piece(Rook, Black), Square(0, 1) := Piece(Knight, Black),
      Square(0, 2) := Piece(Bishop, Black), Square(0, 3) := Piece(King, Black),
      Square(0, 4) := Piece(Queen, Black), Square(0, 5) := Piece(Bishop, Black),
      Square(0, 6) := Piece(Knight, Black), Square(0, 7) := Piece(Rook, Black),
      Square(1, 0) := Piece(Pawn, Black), Square(1, 1) := Piece(Pawn, Black),
      Square(1, 2) := Piece(Pawn, Black), Square(1, 3) := Piece(Pawn, Black),
      Square(1, 4) := Piece(Pawn, Black), Square(1, 5) := Piece(Pawn, Black),
      Square(1, 6) := Piece(Pawn, Black), Square(1, 7) := Piece(Pawn, Black),
      Square(6, 0) := Piece(Pawn, White), Square(6, 1) := Piece(Pawn, White),
      Square(6, 3) := Piece(Pawn, White), Square(6, 4) := Piece(Pawn, White),
      Square(6, 5) := Piece(Pawn, White), Square(6, 6) := Piece(Pawn, White),
      Square(6, 7) := Piece(Pawn, White), Square(7, 0) := Piece(Rook, White),
      Square(7, 1) := Piece(Knight, White), Square(7, 2) := Piece(Bishop, White),
      Square(7, 3) := Piece(King, White), Square(7, 4) := Piece(Queen, White),
      Square(7, 5) := Piece(Bishop, White), Square(7, 6) := Piece(Knight, White),
      Square(7, 7) := Piece(Rook, White)
    ]
  {
  }

  lemma OpeningReady()
    ensures Ready(Opening) && Opening.turn == White
    ensures KingSquare(Opening, White) == Square(7, 3) && KingSquare(Opening, Black) == Square(0, 3)
  {
  }

  lemma OpeningAt62()
    ensures Square(6, 2) in Opening.board && Opening.board[Square(6, 2)] == Piece(Pawn, White)
  {
  }

  lemma OpeningMove6263WhiteLine0()
    ensures First(map[
      Square(0, 0) := Piece(Rook, Black), Square(0, 1) := Piece(Knight, Black),
      Square(0, 2) := Piece(Bishop, Black), Square(0, 3) := Piece(King, Black),
      Square(0, 4) := Piece(Queen, Black), Square(0, 5) := Piece(Bishop, Black),
      Square(0, 6) := Piece(Knight, Black), Square(0, 7) := Piece(Rook, Black),
      Square(1, 0) := Piece(Pawn, Black), Square(1, 1) := Piece(Pawn, Black),
      Square(1, 2) := Piece(Pawn, Black), Square(1, 3) := Piece(Pawn, Black),
      Square(1, 4) := Piece(Pawn, Black), Square(1, 5) := Piece(Pawn, Black),
      Square(1, 6) := Piece(Pawn, Black), Square(1, 7) := Piece(Pawn, Black),
      Square(6, 0) := Piece(Pawn, White), Square(6, 1) := Piece(Pawn, White),
      Square(6, 3) := Piece(Pawn, White), Square(6, 4) := Piece(Pawn, White),
      Square(6, 5) := Piece(Pawn, White), Square(6, 6) := Piece(Pawn, White),
      Square(6, 7) := Piece(Pawn, White), Square(7, 0) := Piece(Rook, White),
      Square(7, 1) := Piece(Knight, White), Square(7, 2) := Piece(Bishop, White),
      Square(7, 3) := Piece(King, White), Square(7, 4) := Piece(Queen, White),
      Square(7, 5) := Piece(Bishop, White), Square(7, 6) := Piece(Knight, White),
      Square(7, 7) := Piece(Rook, White)
    ], Square(7, 3), Offset(-1, 0)) == Some(Piece(Pawn, White))
  {
  }

  lemma OpeningMove6263WhiteLine1()
    ensures First(map[
      Square(0, 0) := Piece(Rook, Black), Square(0, 1) := Piece(Knight, Black),
      Square(0, 2) := Piece(Bishop, Black), Square(0, 3) := Piece(King, Black),
      Square(0, 4) := Piece(Queen, Black), Square(0, 5) := Piece(Bishop, Black),
      Square(0, 6) := Piece(Knight, Black), Square(0, 7) := Piece(Rook, Black),
      Square(1, 0) := Piece(Pawn, Black), Square(1, 1) := Piece(Pawn, Black),
      Square(1, 2) := Piece(Pawn, Black), Square(1, 3) := Piece(Pawn, Black),
      Square(1, 4) := Piece(Pawn, Black), Square(1, 5) := Piece(Pawn, Black),
      Square(1, 6) := Piece(Pawn, Black), Square(1, 7) := Piece(Pawn, Black),
      Square(6, 0) := Piece(Pawn, White), Square(6, 1) := Piece(Pawn, White),
      Square(6, 3) := Piece(Pawn, White), Square(6, 4) := Piece(Pawn, White),
      Square(6, 5) := Piece(Pawn, White), Square(6, 6) := Piece(Pawn, White),
      Square(6, 7) := Piece(Pawn, White), Square(7, 0) := Piece(Rook, White),
      Square(7, 1) := Piece(Knight, White), Square(7, 2) := Piece(Bishop, White),
      Square(7, 3) := Piece(King, White), Square(7, 4) := Piece(Queen, White),
      Square(7, 5) := Piece(Bishop, White), Square(7, 6) := Piece(Knight, White),
      Square(7, 7) := Piece(Rook, White)
    ], Square(7, 3), Offset(1, 0)) == None
  {
  }

  lemma OpeningMove6263WhiteLine2()
    ensures First(map[
      Square(0, 0) := Piece(Rook, Black), Square(0, 1) := Piece(Knight, Black),
      Square(0, 2) := Piece(Bishop, Black), Square(0, 3) := Piece(King, Black),
      Square(0, 4) := Piece(Queen, Black), Square(0, 5) := Piece(Bishop, Black),
      Square(0, 6) := Piece(Knight, Black), Square(0, 7) := Piece(Rook, Black),
      Square(1, 0) := Piece(Pawn, Black), Square(1, 1) := Piece(Pawn, Black),
      Square(1, 2) := Piece(Pawn, Black), Square(1, 3) := Piece(Pawn, Black),
      Square(1, 4) := Piece(Pawn, Black), Square(1, 5) := Piece(Pawn, Black),
      Square(1, 6) := Piece(Pawn, Black), Square(1, 7) := Piece(Pawn, Black),
      Square(6, 0) := Piece(Pawn, White), Square(6, 1) := Piece(Pawn, White),
      Square(6, 3) := Piece(Pawn, White), Square(6, 4) := Piece(Pawn, White),
      Square(6, 5) := Piece(Pawn, White), Square(6, 6) := Piece(Pawn, White),
      Square(6, 7) := Piece(Pawn, White), Square(7, 0) := Piece(Rook, White),
      Square(7, 1) := Piece(Knight, White), Square(7, 2) := Piece(Bishop, White),
      Square(7, 3) := Piece(King, White), Square(7, 4) := Piece(Queen, White),
      Square(7, 5) := Piece(Bishop, White), Square(7, 6) := Piece(Knight, White),
      Square(7, 7) := Piece(Rook, White)
    ], Square(7, 3), Offset(0, -1)) == Some(Piece(Bishop, White))
  {
  }

  lemma OpeningMove6263WhiteLine3()
    ensures First(map[
      Square(0, 0) := Piece(Rook, Black), Square(0, 1) := Piece(Knight, Black),
      Square(0, 2) := Piece(Bishop, Black), Square(0, 3) := Piece(King, Black),
      Square(0, 4) := Piece(Queen, Black), Square(0, 5) := Piece(Bishop, Black),
      Square(0, 6) := Piece(Knight, Black), Square(0, 7) := Piece(Rook, Black),
      Square(1, 0) := Piece(Pawn, Black), Square(1, 1) := Piece(Pawn, Black),
      Square(1, 2) := Piece(Pawn, Black), Square(1, 3) := Piece(Pawn, Black),
      Square(1, 4) := Piece(Pawn, Black), Square(1, 5) := Piece(Pawn, Black),
      Square(1, 6) := Piece(Pawn, Black), Square(1, 7) := Piece(Pawn, Black),
      Square(6, 0) := Piece(Pawn, White), Square(6, 1) := Piece(Pawn, White),
      Square(6, 3) := Piece(Pawn, White), Square(6, 4) := Piece(Pawn, White),
      Square(6, 5) := Piece(Pawn, White), Square(6, 6) := Piece(Pawn, White),
      Square(6, 7) := Piece(Pawn, White), Square(7, 0) := Piece(Rook, White),
      Square(7, 1) := Piece(Knight, White), Square(7, 2) := Piece(Bishop, White),
      Square(7, 3) := Piece(King, White), Square(7, 4) := Piece(Queen, White),
      Square(7, 5) := Piece(Bishop, White), Square(7, 6) := Piece(Knight, White),
      Square(7, 7) := Piece(Rook, White)
    ], Square(7, 3), Offset(0, 1)) == Some(Piece(Queen, White))
  {
  }

  lemma OpeningMove6263WhiteDiagonal0()
    ensures First(map[
      Square(0, 0) := Piece(Rook, Black), Square(0, 1) := Piece(Knight, Black),
      Square(0, 2) := Piece(Bishop, Black), Square(0, 3) := Piece(King, Black),
      Square(0, 4) := Piece(Queen, Black), Square(0, 5) := Piece(Bishop, Black),
      Square(0, 6) := Piece(Knight, Black), Square(0, 7) := Piece(Rook, Black),
      Square(1, 0) := Piece(Pawn, Black), Square(1, 1) := Piece(Pawn, Black),
      Square(1, 2) := Piece(Pawn, Black), Square(1, 3) := Piece(Pawn, Black),
      Square(1, 4) := Piece(Pawn, Black), Square(1, 5) := Piece(Pawn, Black),
      Square(1, 6) := Piece(Pawn, Black), Square(1, 7) := Piece(Pawn, Black),
      Square(6, 0) := Piece(Pawn, White), Square(6, 1) := Piece(Pawn, White),
      Square(6, 3) := Piece(Pawn, White), Square(6, 4) := Piece(Pawn, White),
      Square(6, 5) := Piece(Pawn, White), Square(6, 6) := Piece(Pawn, White),
      Square(6, 7) := Piece(Pawn, White), Square(7, 0) := Piece(Rook, White),
      Square(7, 1) := Piece(Knight, White), Square(7, 2) := Piece(Bishop, White),
      Square(7, 3) := Piece(King, White), Square(7, 4) := Piece(Queen, White),
      Square(7, 5) := Piece(Bishop, White), Square(7, 6) := Piece(Knight, White),
      Square(7, 7) := Piece(Rook, White)
    ], Square(7, 3), Offset(-1, 1)) == Some(Piece(Pawn, White))
  {
  }

  lemma OpeningMove6263WhiteDiagonal1()
    ensures First(map[
      Square(0, 0) := Piece(Rook, Black), Square(0, 1) := Piece(Knight, Black),
      Square(0, 2) := Piece(Bishop, Black), Square(0, 3) := Piece(King, Black),
      Square(0, 4) := Piece(Queen, Black), Square(0, 5) := Piece(Bishop, Black),
      Square(0, 6) := Piece(Knight, Black), Square(0, 7) := Piece(Rook, Black),
      Square(1, 0) := Piece(Pawn, Black), Square(1, 1) := Piece(Pawn, Black),
      Square(1, 2) := Piece(Pawn, Black), Square(1, 3) := Piece(Pawn, Black),
      Square(1, 4) := Piece(Pawn, Black), Square(1, 5) := Piece(Pawn, Black),
      Square(1, 6) := Piece(Pawn, Black), Square(1, 7) := Piece(Pawn, Black),
      Square(6, 0) := Piece(Pawn, White), Square(6, 1) := Piece(Pawn, White),
      Square(6, 3) := Piece(Pawn, White), Square(6, 4) := Piece(Pawn, White),
      Square(6, 5) := Piece(Pawn, White), Square(6, 6) := Piece(Pawn, White),
      Square(6, 7) := Piece(Pawn, White), Square(7, 0) := Piece(Rook, White),
      Square(7, 1) := Piece(Knight, White), Square(7, 2) := Piece(Bishop, White),
      Square(7, 3) := Piece(King, White), Square(7, 4) := Piece(Queen, White),
      Square(7, 5) := Piece(Bishop, White), Square(7, 6) := Piece(Knight, White),
      Square(7, 7) := Piece(Rook, White)
    ], Square(7, 3), Offset(-1, -1)) == None
  {
  }

  lemma OpeningMove6263WhiteDiagonal2()
    ensures First(map[
      Square(0, 0) := Piece(Rook, Black), Square(0, 1) := Piece(Knight, Black),
      Square(0, 2) := Piece(Bishop, Black), Square(0, 3) := Piece(King, Black),
      Square(0, 4) := Piece(Queen, Black), Square(0, 5) := Piece(Bishop, Black),
      Square(0, 6) := Piece(Knight, Black), Square(0, 7) := Piece(Rook, Black),
      Square(1, 0) := Piece(Pawn, Black), Square(1, 1) := Piece(Pawn, Black),
      Square(1, 2) := Piece(Pawn, Black), Square(1, 3) := Piece(Pawn, Black),
      Square(1, 4) := Piece(Pawn, Black), Square(1, 5) := Piece(Pawn, Black),
      Square(1, 6) := Piece(Pawn, Black), Square(1, 7) := Piece(Pawn, Black),
      Square(6, 0) := Piece(Pawn, White), Square(6, 1) := Piece(Pawn, White),
      Square(6, 3) := Piece(Pawn, White), Square(6, 4) := Piece(Pawn, White),
      Square(6, 5) := Piece(Pawn, White), Square(6, 6) := Piece(Pawn, White),
      Square(6, 7) := Piece(Pawn, White), Square(7, 0) := Piece(Rook, White),
      Square(7, 1) := Piece(Knight, White), Square(7, 2) := Piece(Bishop, White),
      Square(7, 3) := Piece(King, White), Square(7, 4) := Piece(Queen, White),
      Square(7, 5) := Piece(Bishop, White), Square(7, 6) := Piece(Knight, White),
      Square(7, 7) := Piece(Rook, White)
    ], Square(7, 3), Offset(1, -1)) == None
  {
  }

  lemma OpeningMove6263WhiteDiagonal3()
    ensures First(map[
      Square(0, 0) := Piece(Rook, Black), Square(0, 1) := Piece(Knight, Black),
      Square(0, 2) := Piece(Bishop, Black), Square(0, 3) := Piece(King, Black),
      Square(0, 4) := Piece(Queen, Black), Square(0, 5) := Piece(Bishop, Black),
      Square(0, 6) := Piece(Knight, Black), Square(0, 7) := Piece(Rook, Black),
      Square(1, 0) := Piece(Pawn, Black), Square(1, 1) := Piece(Pawn, Black),
      Square(1, 2) := Piece(Pawn, Black), Square(1, 3) := Piece(Pawn, Black),
      Square(1, 4) := Piece(Pawn, Black), Square(1, 5) := Piece(Pawn, Black),
      Square(1, 6) := Piece(Pawn, Black), Square(1, 7) := Piece(Pawn, Black),
      Square(6, 0) := Piece(Pawn, White), Square(6, 1) := Piece(Pawn, White),
      Square(6, 3) := Piece(Pawn, White), Square(6, 4) := Piece(Pawn, White),
      Square(6, 5) := Piece(Pawn, White), Square(6, 6) := Piece(Pawn, White),
      Square(6, 7) := Piece(Pawn, White), Square(7, 0) := Piece(Rook, White),
      Square(7, 1) := Piece(Knight, White), Square(7, 2) := Piece(Bishop, White),
      Square(7, 3) := Piece(King, White), Square(7, 4) := Piece(Queen, White),
      Square(7, 5) := Piece(Bishop, White), Square(7, 6) := Piece(Knight, White),
      Square(7, 7) := Piece(Rook, White)
    ], Square(7, 3), Offset(1, 1)) == None
  {
  }

  lemma OpeningMove6263WhiteKnight0()
    ensures !LeapHit(map[
      Square(0, 0) := Piece(Rook, Black), Square(0, 1) := Piece(Knight, Black),
      Square(0, 2) := Piece(Bishop, Black), Square(0, 3) := Piece(King, Black),
      Square(0, 4) := Piece(Queen, Black), Square(0, 5) := Piece(Bishop, Black),
      Square(0, 6) := Piece(Knight, Black), Square(0, 7) := Piece(Rook, Black),
      Square(1, 0) := Piece(Pawn, Black), Square(1, 1) := Piece(Pawn, Black),
      Square(1, 2) := Piece(Pawn, Black), Square(1, 3) := Piece(Pawn, Black),
      Square(1, 4) := Piece(Pawn, Black), Square(1, 5) := Piece(Pawn, Black),
      Square(1, 6) := Piece(Pawn, Black), Square(1, 7) := Piece(Pawn, Black),
      Square(6, 0) := Piece(Pawn, White), Square(6, 1) := Piece(Pawn, White),
      Square(6, 3) := Piece(Pawn, White), Square(6, 4) := Piece(Pawn, White),
      Square(6, 5) := Piece(Pawn, White), Square(6, 6) := Piece(Pawn, White),
      Square(6, 7) := Piece(Pawn, White), Square(7, 0) := Piece(Rook, White),
      Square(7, 1) := Piece(Knight, White), Square(7, 2) := Piece(Bishop, White),
      Square(7, 3) := Piece(King, White), Square(7, 4) := Piece(Queen, White),
      Square(7, 5) := Piece(Bishop, White), Square(7, 6) := Piece(Knight, White),
      Square(7, 7) := Piece(Rook, White)
    ], White, Square(7, 3), Offset(1, -2), Knight)
  {
  }

  lemma OpeningMove6263WhiteKnight1()
    ensures !LeapHit(map[
      Square(0, 0) := Piece(Rook, Black), Square(0, 1) := Piece(Knight, Black),
      Square(0, 2) := Piece(Bishop, Black), Square(0, 3) := Piece(King, Black),
      Square(0, 4) := Piece(Queen, Black), Square(0, 5) := Piece(Bishop, Black),
      Square(0, 6) := Piece(Knight, Black), Square(0, 7) := Piece(Rook, Black),
      Square(1, 0) := Piece(Pawn, Black), Square(1, 1) := Piece(Pawn, Black),
      Square(1, 2) := Piece(Pawn, Black), Square(1, 3) := Piece(Pawn, Black),
      Square(1, 4) := Piece(Pawn, Black), Square(1, 5) := Piece(Pawn, Black),
      Square(1, 6) := Piece(Pawn, Black), Square(1, 7) := Piece(Pawn, Black),
      Square(6, 0) := Piece(Pawn, White), Square(6, 1) := Piece(Pawn, White),
      Square(6, 3) := Piece(Pawn, White), Square(6, 4) := Piece(Pawn, White),
      Square(6, 5) := Piece(Pawn, White), Square(6, 6) := Piece(Pawn, White),
      Square(6, 7) := Piece(Pawn, White), Square(7, 0) := Piece(Rook, White),
      Square(7, 1) := Piece(Knight, White), Square(7, 2) := Piece(Bishop, White),
      Square(7, 3) := Piece(King, White), Square(7, 4) := Piece(Queen, White),
      Square(7, 5) := Piece(Bishop, White), Square(7, 6) := Piece(Knight, White),
      Square(7, 7) := Piece(Rook, White)
    ], White, Square(7, 3), Offset(1, 2), Knight)
  {
  }

  lemma OpeningMove6263WhiteKnight2()
    ensures !LeapHit(map[
      Square(0, 0) := Piece(Rook, Black), Square(0, 1) := Piece(Knight, Black),
      Square(0, 2) := Piece(Bishop, Black), Square(0, 3) := Piece(King, Black),
      Square(0, 4) := Piece(Queen, Black), Square(0, 5) := Piece(Bishop, Black),
      Square(0, 6) := Piece(Knight, Black), Square(0, 7) := Piece(Rook, Black),
      Square(1, 0) := Piece(Pawn, Black), Square(1, 1) := Piece(Pawn, Black),
      Square(1, 2) := Piece(Pawn, Black), Square(1, 3) := Piece(Pawn, Black),
      Square(1, 4) := Piece(Pawn, Black), Square(1, 5) := Piece(Pawn, Black),
      Square(1, 6) := Piece(Pawn, Black), Square(1, 7) := Piece(Pawn, Black),
      Square(6, 0) := Piece(Pawn, White), Square(6, 1) := Piece(Pawn, White),
      Square(6, 3) := Piece(Pawn, White), Square(6, 4) := Piece(Pawn, White),
      Square(6, 5) := Piece(Pawn, White), Square(6, 6) := Piece(Pawn, White),
      Square(6, 7) := Piece(Pawn, White), Square(7, 0) := Piece(Rook, White),
      Square(7, 1) := Piece(Knight, White), Square(7, 2) := Piece(Bishop, White),
      Square(7, 3) := Piece(King, White), Square(7, 4) := Piece(Queen, White),
      Square(7, 5) := Piece(Bishop, White), Square(7, 6) := Piece(Knight, White),
      Square(7, 7) := Piece(Rook, White)
    ], White, Square(7, 3), Offset(2, -1), Knight)
  {
  }

  lemma OpeningMove6263WhiteKnight3()
    ensures !LeapHit(map[
      Square(0, 0) := Piece(Rook, Black), Square(0, 1) := Piece(Knight, Black),
      Square(0, 2) := Piece(Bishop, Black), Square(0, 3) := Piece(King, Black),
      Square(0, 4) := Piece(Queen, Black), Square(0, 5) := Piece(Bishop, Black),
      Square(0, 6) := Piece(Knight, Black), Square(0, 7) := Piece(Rook, Black),
      Square(1, 0) := Piece(Pawn, Black), Square(1, 1) := Piece(Pawn, Black),
      Square(1, 2) := Piece(Pawn, Black), Square(1, 3) := Piece(Pawn, Black),
      Square(1, 4) := Piece(Pawn, Black), Square(1, 5) := Piece(Pawn, Black),
      Square(1, 6) := Piece(Pawn, Black), Square(1, 7) := Piece(Pawn, Black),
      Square(6, 0) := Piece(Pawn, White), Square(6, 1) := Piece(Pawn, White),
      Square(6, 3) := Piece(Pawn, White), Square(6, 4) := Piece(Pawn, White),
      Square(6, 5) := Piece(Pawn, White), Square(6, 6) := Piece(Pawn, White),
      Square(6, 7) := Piece(Pawn, White), Square(7, 0) := Piece(Rook, White),
      Square(7, 1) := Piece(Knight, White), Square(7, 2) := Piece(Bishop, White),
      Square(7, 3) := Piece(King, White), Square(7, 4) := Piece(Queen, White),
      Square(7, 5) := Piece(Bishop, White), Square(7, 6) := Piece(Knight, White),
      Square(7, 7) := Piece(Rook, White)
    ], White, Square(7, 3), Offset(2, 1), Knight)
  {
  }

  lemma OpeningMove6263WhiteKnight4()
    ensures !LeapHit(map[
      Square(0, 0) := Piece(Rook, Black), Square(0, 1) := Piece(Knight, Black),
      Square(0, 2) := Piece(Bishop, Black), Square(0, 3) := Piece(King, Black),
      Square(0, 4) := Piece(Queen, Black), Square(0, 5) := Piece(Bishop, Black),
      Square(0, 6) := Piece(Knight, Black), Square(0, 7) := Piece(Rook, Black),
      Square(1, 0) := Piece(Pawn, Black), Square(1, 1) := Piece(Pawn, Black),
      Square(1, 2) := Piece(Pawn, Black), Square(1, 3) := Piece(Pawn, Black),
      Square(1, 4) := Piece(Pawn, Black), Square(1, 5) := Piece(Pawn, Black),
      Square(1, 6) := Piece(Pawn, Black), Square(1, 7) := Piece(Pawn, Black),
      Square(6, 0) := Piece(Pawn, White), Square(6, 1) := Piece(Pawn, White),
      Square(6, 3) := Piece(Pawn, White), Square(6, 4) := Piece(Pawn, White),
      Square(6, 5) := Piece(Pawn, White), Square(6, 6) := Piece(Pawn, White),
      Square(6, 7) := Piece(Pawn, White), Square(7, 0) := Piece(Rook, White),
      Square(7, 1) := Piece(Knight, White), Square(7, 2) := Piece(Bishop, White),
      Square(7, 3) := Piece(King, White), Square(7, 4) := Piece(Queen, White),
      Square(7, 5) := Piece(Bishop, White), Square(7, 6) := Piece(Knight, White),
      Square(7, 7) := Piece(Rook, White)
    ], White, Square(7, 3), Offset(-1, -2), Knight)
  {
  }

  lemma OpeningMove6263WhiteKnight5()
    ensures !LeapHit(map[
      Square(0, 0) := Piece(Rook, Black), Square(0, 1) := Piece(Knight, Black),
      Square(0, 2) := Piece(Bishop, Black), Square(0, 3) := Piece(King, Black),
      Square(0, 4) := Piece(Queen, Black), Square(0, 5) := Piece(Bishop, Black),
      Square(0, 6) := Piece(Knight, Black), Square(0, 7) := Piece(Rook, Black),
      Square(1, 0) := Piece(Pawn, Black), Square(1, 1) := Piece(Pawn, Black),
      Square(1, 2) := Piece(Pawn, Black), Square(1, 3) := Piece(Pawn, Black),
      Square(1, 4) := Piece(Pawn, Black), Square(1, 5) := Piece(Pawn, Black),
      Square(1, 6) := Piece(Pawn, Black), Square(1, 7) := Piece(Pawn, Black),
      Square(6, 0) := Piece(Pawn, White), Square(6, 1) := Piece(Pawn, White),
      Square(6, 3) := Piece(Pawn, White), Square(6, 4) := Piece(Pawn, White),
      Square(6, 5) := Piece(Pawn, White), Square(6, 6) := Piece(Pawn, White),
      Square(6, 7) := Piece(Pawn, White), Square(7, 0) := Piece(Rook, White),
      Square(7, 1) := Piece(Knight, White), Square(7, 2) := Piece(Bishop, White),
      Square(7, 3) := Piece(King, White), Square(7, 4) := Piece(Queen, White),
      Square(7, 5) := Piece(Bishop, White), Square(7, 6) := Piece(Knight, White),
      Square(7, 7) := Piece(Rook, White)
    ], White, Square(7, 3), Offset(-1, 2), Knight)
  {
  }

  lemma OpeningMove6263WhiteKnight6()
    ensures !LeapHit(map[
      Square(0, 0) := Piece(Rook, Black), Square(0, 1) := Piece(Knight, Black),
      Square(0, 2) := Piece(Bishop, Black), Square(0, 3) := Piece(King, Black),
      Square(0, 4) := Piece(Queen, Black), Square(0, 5) := Piece(Bishop, Black),
      Square(0, 6) := Piece(Knight, Black), Square(0, 7) := Piece(Rook, Black),
      Square(1, 0) := Piece(Pawn, Black), Square(1, 1) := Piece(Pawn, Black),
      Square(1, 2) := Piece(Pawn, Black), Square(1, 3) := Piece(Pawn, Black),
      Square(1, 4) := Piece(Pawn, Black), Square(1, 5) := Piece(Pawn, Black),
      Square(1, 6) := Piece(Pawn, Black), Square(1, 7) := Piece(Pawn, Black),
      Square(6, 0) := Piece(Pawn, White), Square(6, 1) := Piece(Pawn, White),
      Square(6, 3) := Piece(Pawn, White), Square(6, 4) := Piece(Pawn, White),
      Square(6, 5) := Piece(Pawn, White), Square(6, 6) := Piece(Pawn, White),
      Square(6, 7) := Piece(Pawn, White), Square(7, 0) := Piece(Rook, White),
      Square(7, 1) := Piece(Knight, White), Square(7, 2) := Piece(Bishop, White),
      Square(7, 3) := Piece(King, White), Square(7, 4) := Piece(Queen, White),
      Square(7, 5) := Piece(Bishop, White), Square(7, 6) := Piece(Knight, White),
      Square(7, 7) := Piece(Rook, White)
    ], White, Square(7, 3), Offset(-2, -1), Knight)
  {
  }

  lemma OpeningMove6263WhiteKnight7()
    ensures !LeapHit(map[
      Square(0, 0) := Piece(Rook, Black), Square(0, 1) := Piece(Knight, Black),
      Square(0, 2) := Piece(Bishop, Black), Square(0, 3) := Piece(King, Black),
      Square(0, 4) := Piece(Queen, Black), Square(0, 5) := Piece(Bishop, Black),
      Square(0, 6) := Piece(Knight, Black), Square(0, 7) := Piece(Rook, Black),
      Square(1, 0) := Piece(Pawn, Black), Square(1, 1) := Piece(Pawn, Black),
      Square(1, 2) := Piece(Pawn, Black), Square(1, 3) := Piece(Pawn, Black),
      Square(1, 4) := Piece(Pawn, Black), Square(1, 5) := Piece(Pawn, Black),
      Square(1, 6) := Piece(Pawn, Black), Square(1, 7) := Piece(Pawn, Black),
      Square(6, 0) := Piece(Pawn, White), Square(6, 1) := Piece(Pawn, White),
      Square(6, 3) := Piece(Pawn, White), Square(6, 4) := Piece(Pawn, White),
      Square(6, 5) := Piece(Pawn, White), Square(6, 6) := Piece(Pawn, White),
      Square(6, 7) := Piece(Pawn, White), Square(7, 0) := Piece(Rook, White),
      Square(7, 1) := Piece(Knight, White), Square(7, 2) := Piece(Bishop, White),
      Square(7, 3) := Piece(King, White), Square(7, 4) := Piece(Queen, White),
      Square(7, 5) := Piece(Bishop, White), Square(7, 6) := Piece(Knight, White),
      Square(7, 7) := Piece(Rook, White)
    ], White, Square(7, 3), Offset(-2, 1), Knight)
  {
  }

  lemma OpeningMove6263WhiteStep0()
    ensures !LeapHit(map[
      Square(0, 0) := Piece(Rook, Black), Square(0, 1) := Piece(Knight, Black),
      Square(0, 2) := Piece(Bishop, Black), Square(0, 3) := Piece(King, Black),
      Square(0, 4) := Piece(Queen, Black), Square(0, 5) := Piece(Bishop, Black),
      Square(0, 6) := Piece(Knight, Black), Square(0, 7) := Piece(Rook, Black),
      Square(1, 0) := Piece(Pawn, Black), Square(1, 1) := Piece(Pawn, Black),
      Square(1, 2) := Piece(Pawn, Black), Square(1, 3) := Piece(Pawn, Black),
      Square(1, 4) := Piece(Pawn, Black), Square(1, 5) := Piece(Pawn, Black),
      Square(1, 6) := Piece(Pawn, Black), Square(1, 7) := Piece(Pawn, Black),
      Square(6, 0) := Piece(Pawn, White), Square(6, 1) := Piece(Pawn, White),
      Square(6, 3) := Piece(Pawn, White), Square(6, 4) := Piece(Pawn, White),
      Square(6, 5) := Piece(Pawn, White), Square(6, 6) := Piece(Pawn, White),
      Square(6, 7) := Piece(Pawn, White), Square(7, 0) := Piece(Rook, White),
      Square(7, 1) := Piece(Knight, White), Square(7, 2) := Piece(Bishop, White),
      Square(7, 3) := Piece(King, White), Square(7, 4) := Piece(Queen, White),
      Square(7, 5) := Piece(Bishop, White), Square(7, 6) := Piece(Knight, White),
      Square(7, 7) := Piece(Rook, White)
    ], White, Square(7, 3), Offset(0, -1), King)
  {
  }

  lemma OpeningMove6263WhiteStep1()
    ensures !LeapHit(map[
      Square(0, 0) := Piece(Rook, Black), Square(0, 1) := Piece(Knight, Black),
      Square(0, 2) := Piece(Bishop, Black), Square(0, 3) := Piece(King, Black),
      Square(0, 4) := Piece(Queen, Black), Square(0, 5) := Piece(Bishop, Black),
      Square(0, 6) := Piece(Knight, Black), Square(0, 7) := Piece(Rook, Black),
      Square(1, 0) := Piece(Pawn, Black), Square(1, 1) := Piece(Pawn, Black),
      Square(1, 2) := Piece(Pawn, Black), Square(1, 3) := Piece(Pawn, Black),
      Square(1, 4) := Piece(Pawn, Black), Square(1, 5) := Piece(Pawn, Black),
      Square(1, 6) := Piece(Pawn, Black), Square(1, 7) := Piece(Pawn, Black),
      Square(6, 0) := Piece(Pawn, White), Square(6, 1) := Piece(Pawn, White),
      Square(6, 3) := Piece(Pawn, White), Square(6, 4) := Piece(Pawn, White),
      Square(6, 5) := Piece(Pawn, White), Square(6, 6) := Piece(Pawn, White),
      Square(6, 7) := Piece(Pawn, White), Square(7, 0) := Piece(Rook, White),
      Square(7, 1) := Piece(Knight, White), Square(7, 2) := Piece(Bishop, White),
      Square(7, 3) := Piece(King, White), Square(7, 4) := Piece(Queen, White),
      Square(7, 5) := Piece(Bishop, White), Square(7, 6) := Piece(Knight, White),
      Square(7, 7) := Piece(Rook, White)
    ], White, Square(7, 3), Offset(0, 1), King)
  {
  }

  lemma OpeningMove6263WhiteStep2()
    ensures !LeapHit(map[
      Square(0, 0) := Piece(Rook, Black), Square(0, 1) := Piece(Knight, Black),
      Square(0, 2) := Piece(Bishop, Black), Square(0, 3) := Piece(King, Black),
      Square(0, 4) := Piece(Queen, Black), Square(0, 5) := Piece(Bishop, Black),
      Square(0, 6) := Piece(Knight, Black), Square(0, 7) := Piece(Rook, Black),
      Square(1, 0) := Piece(Pawn, Black), Square(1, 1) := Piece(Pawn, Black),
      Square(1, 2) := Piece(Pawn, Black), Square(1, 3) := Piece(Pawn, Black),
      Square(1, 4) := Piece(Pawn, Black), Square(1, 5) := Piece(Pawn, Black),
      Square(1, 6) := Piece(Pawn, Black), Square(1, 7) := Piece(Pawn, Black),
      Square(6, 0) := Piece(Pawn, White), Square(6, 1) := Piece(Pawn, White),
      Square(6, 3) := Piece(Pawn, White), Square(6, 4) := Piece(Pawn, White),
      Square(6, 5) := Piece(Pawn, White), Square(6, 6) := Piece(Pawn, White),
      Square(6, 7) := Piece(Pawn, White), Square(7, 0) := Piece(Rook, White),
      Square(7, 1) := Piece(Knight, White), Square(7, 2) := Piece(Bishop, White),
      Square(7, 3) := Piece(King, White), Square(7, 4) := Piece(Queen, White),
      Square(7, 5) := Piece(Bishop, White), Square(7, 6) := Piece(Knight, White),
      Square(7, 7) := Piece(Rook, White)
    ], White, Square(7, 3), Offset(1, -1), King)
  {
  }

  lemma OpeningMove6263WhiteStep3()
    ensures !LeapHit(map[
      Square(0, 0) := Piece(Rook, Black), Square(0, 1) := Piece(Knight, Black),
      Square(0, 2) := Piece(Bishop, Black), Square(0, 3) := Piece(King, Black),
      Square(0, 4) := Piece(Queen, Black), Square(0, 5) := Piece(Bishop, Black),
      Square(0, 6) := Piece(Knight, Black), Square(0, 7) := Piece(Rook, Black),
      Square(1, 0) := Piece(Pawn, Black), Square(1, 1) := Piece(Pawn, Black),
      Square(1, 2) := Piece(Pawn, Black), Square(1, 3) := Piece(Pawn, Black),
      Square(1, 4) := Piece(Pawn, Black), Square(1, 5) := Piece(Pawn, Black),
      Square(1, 6) := Piece(Pawn, Black), Square(1, 7) := Piece(Pawn, Black),
      Square(6, 0) := Piece(Pawn, White), Square(6, 1) := Piece(Pawn, White),
      Square(6, 3) := Piece(Pawn, White), Square(6, 4) := Piece(Pawn, White),
      Square(6, 5) := Piece(Pawn, White), Square(6, 6) := Piece(Pawn, White),
      Square(6, 7) := Piece(Pawn, White), Square(7, 0) := Piece(Rook, White),
      Square(7, 1) := Piece(Knight, White), Square(7, 2) := Piece(Bishop, White),
      Square(7, 3) := Piece(King, White), Square(7, 4) := Piece(Queen, White),
      Square(7, 5) := Piece(Bishop, White), Square(7, 6) := Piece(Knight, White),
      Square(7, 7) := Piece(Rook, White)
    ], White, Square(7, 3), Offset(1, 0), King)
  {
  }

  lemma OpeningMove6263WhiteStep4()
    ensures !LeapHit(map[
      Square(0, 0) := Piece(Rook, Black), Square(0, 1) := Piece(Knight, Black),
      Square(0, 2) := Piece(Bishop, Black), Square(0, 3) := Piece(King, Black),
      Square(0, 4) := Piece(Queen, Black), Square(0, 5) := Piece(Bishop, Black),
      Square(0, 6) := Piece(Knight, Black), Square(0, 7) := Piece(Rook, Black),
      Square(1, 0) := Piece(Pawn, Black), Square(1, 1) := Piece(Pawn, Black),
      Square(1, 2) := Piece(Pawn, Black), Square(1, 3) := Piece(Pawn, Black),
      Square(1, 4) := Piece(Pawn, Black), Square(1, 5) := Piece(Pawn, Black),
      Square(1, 6) := Piece(Pawn, Black), Square(1, 7) := Piece(Pawn, Black),
      Square(6, 0) := Piece(Pawn, White), Square(6, 1) := Piece(Pawn, White),
      Square(6, 3) := Piece(Pawn, White), Square(6, 4) := Piece(Pawn, White),
      Square(6, 5) := Piece(Pawn, White), Square(6, 6) := Piece(Pawn, White),
      Square(6, 7) := Piece(Pawn, White), Square(7, 0) := Piece(Rook, White),
      Square(7, 1) := Piece(Knight, White), Square(7, 2) := Piece(Bishop, White),
      Square(7, 3) := Piece(King, White), Square(7, 4) := Piece(Queen, White),
      Square(7, 5) := Piece(Bishop, White), Square(7, 6) := Piece(Knight, White),
      Square(7, 7) := Piece(Rook, White)
    ], White, Square(7, 3), Offset(1, 1), King)
  {
  }

  lemma OpeningMove6263WhiteStep5()
    ensures !LeapHit(map[
      Square(0, 0) := Piece(Rook, Black), Square(0, 1) := Piece(Knight, Black),
      Square(0, 2) := Piece(Bishop, Black), Square(0, 3) := Piece(King, Black),
      Square(0, 4) := Piece(Queen, Black), Square(0, 5) := Piece(Bishop, Black),
      Square(0, 6) := Piece(Knight, Black), Square(0, 7) := Piece(Rook, Black),
      Square(1, 0) := Piece(Pawn, Black), Square(1, 1) := Piece(Pawn, Black),
      Square(1, 2) := Piece(Pawn, Black), Square(1, 3) := Piece(Pawn, Black),
      Square(1, 4) := Piece(Pawn, Black), Square(1, 5) := Piece(Pawn, Black),
      Square(1, 6) := Piece(Pawn, Black), Square(1, 7) := Piece(Pawn, Black),
      Square(6, 0) := Piece(Pawn, White), Square(6, 1) := Piece(Pawn, White),
      Square(6, 3) := Piece(Pawn, White), Square(6, 4) := Piece(Pawn, White),
      Square(6, 5) := Piece(Pawn, White), Square(6, 6) := Piece(Pawn, White),
      Square(6, 7) := Piece(Pawn, White), Square(7, 0) := Piece(Rook, White),
      Square(7, 1) := Piece(Knight, White), Square(7, 2) := Piece(Bishop, White),
      Square(7, 3) := Piece(King, White), Square(7, 4) := Piece(Queen, White),
      Square(7, 5) := Piece(Bishop, White), Square(7, 6) := Piece(Knight, White),
      Square(7, 7) := Piece(Rook, White)
    ], White, Square(7, 3), Offset(-1, -1), King)
  {
  }

  lemma OpeningMove6263WhiteStep6()
    ensures !LeapHit(map[
      Square(0, 0) := Piece(Rook, Black), Square(0, 1) := Piece(Knight, Black),
      Square(0, 2) := Piece(Bishop, Black), Square(0, 3) := Piece(King, Black),
      Square(0, 4) := Piece(Queen, Black), Square(0, 5) := Piece(Bishop, Black),
      Square(0, 6) := Piece(Knight, Black), Square(0, 7) := Piece(Rook, Black),
      Square(1, 0) := Piece(Pawn, Black), Square(1, 1) := Piece(Pawn, Black),
      Square(1, 2) := Piece(Pawn, Black), Square(1, 3) := Piece(Pawn, Black),
      Square(1, 4) := Piece(Pawn, Black), Square(1, 5) := Piece(Pawn, Black),
      Square(1, 6) := Piece(Pawn, Black), Square(1, 7) := Piece(Pawn, Black),
      Square(6, 0) := Piece(Pawn, White), Square(6, 1) := Piece(Pawn, White),
      Square(6, 3) := Piece(Pawn, White), Square(6, 4) := Piece(Pawn, White),
      Square(6, 5) := Piece(Pawn, White), Square(6, 6) := Piece(Pawn, White),
      Square(6, 7) := Piece(Pawn, White), Square(7, 0) := Piece(Rook, White),
      Square(7, 1) := Piece(Knight, White), Square(7, 2) := Piece(Bishop, White),
      Square(7, 3) := Piece(King, White), Square(7, 4) := Piece(Queen, White),
      Square(7, 5) := Piece(Bishop, White), Square(7, 6) := Piece(Knight, White),
      Square(7, 7) := Piece(Rook, White)
    ], White, Square(7, 3), Offset(-1, 0), King)
  {
  }

  lemma OpeningMove6263WhiteStep7()
    ensures !LeapHit(map[
      Square(0, 0) := Piece(Rook, Black), Square(0, 1) := Piece(Knight, Black),
      Square(0, 2) := Piece(Bishop, Black), Square(0, 3) := Piece(King, Black),
      Square(0, 4) := Piece(Queen, Black), Square(0, 5) := Piece(Bishop, Black),
      Square(0, 6) := Piece(Knight, Black), Square(0, 7) := Piece(Rook, Black),
      Square(1, 0) := Piece(Pawn, Black), Square(1, 1) := Piece(Pawn, Black),
      Square(1, 2) := Piece(Pawn, Black), Square(1, 3) := Piece(Pawn, Black),
      Square(1, 4) := Piece(Pawn, Black), Square(1, 5) := Piece(Pawn, Black),
      Square(1, 6) := Piece(Pawn, Black), Square(1, 7) := Piece(Pawn, Black),
      Square(6, 0) := Piece(Pawn, White), Square(6, 1) := Piece(Pawn, White),
      Square(6, 3) := Piece(Pawn, White), Square(6, 4) := Piece(Pawn, White),
      Square(6, 5) := Piece(Pawn, White), Square(6, 6) := Piece(Pawn, White),
      Square(6, 7) := Piece(Pawn, White), Square(7, 0) := Piece(Rook, White),
      Square(7, 1) := Piece(Knight, White), Square(7, 2) := Piece(Bishop, White),
      Square(7, 3) := Piece(King, White), Square(7, 4) := Piece(Queen, White),
      Square(7, 5) := Piece(Bishop, White), Square(7, 6) := Piece(Knight, White),
      Square(7, 7) := Piece(Rook, White)
    ], White, Square(7, 3), Offset(-1, 1), King)
  {
  }

  lemma OpeningMove6263WhitePawn()
    ensures !PawnThreat(map[
      Square(0, 0) := Piece(Rook, Black), Square(0, 1) := Piece(Knight, Black),
      Square(0, 2) := Piece(Bishop, Black), Square(0, 3) := Piece(King, Black),
      Square(0, 4) := Piece(Queen, Black), Square(0, 5) := Piece(Bishop, Black),
      Square(0, 6) := Piece(Knight, Black), Square(0, 7) := Piece(Rook, Black),
      Square(1, 0) := Piece(Pawn, Black), Square(1, 1) := Piece(Pawn, Black),
      Square(1, 2) := Piece(Pawn, Black), Square(1, 3) := Piece(Pawn, Black),
      Square(1, 4) := Piece(Pawn, Black), Square(1, 5) := Piece(Pawn, Black),
      Square(1, 6) := Piece(Pawn, Black), Square(1, 7) := Piece(Pawn, Black),
      Square(6, 0) := Piece(Pawn, White), Square(6, 1) := Piece(Pawn, White),
      Square(6, 3) := Piece(Pawn, White), Square(6, 4) := Piece(Pawn, White),
      Square(6, 5) := Piece(Pawn, White), Square(6, 6) := Piece(Pawn, White),
      Square(6, 7) := Piece(Pawn, White), Square(7, 0) := Piece(Rook, White),
      Square(7, 1) := Piece(Knight, White), Square(7, 2) := Piece(Bishop, White),
      Square(7, 3) := Piece(King, White), Square(7, 4) := Piece(Queen, White),
      Square(7, 5) := Piece(Bishop, White), Square(7, 6) := Piece(Knight, White),
      Square(7, 7) := Piece(Rook, White)
    ], White, Square(7, 3))
  {
  }

  lemma OpeningMove6263WhiteSafe()
    ensures !KingInDanger(map[
      Square(0, 0) := Piece(Rook, Black), Square(0, 1) := Piece(Knight, Black),
      Square(0, 2) := Piece(Bishop, Black), Square(0, 3) := Piece(King, Black),
      Square(0, 4) := Piece(Queen, Black), Square(0, 5) := Piece(Bishop, Black),
      Square(0, 6) := Piece(Knight, Black), Square(0, 7) := Piece(Rook, Black),
      Square(1, 0) := Piece(Pawn, Black), Square(1, 1) := Piece(Pawn, Black),
      Square(1, 2) := Piece(Pawn, Black), Square(1, 3) := Piece(Pawn, Black),
      Square(1, 4) := Piece(Pawn, Black), Square(1, 5) := Piece(Pawn, Black),
      Square(1, 6) := Piece(Pawn, Black), Square(1, 7) := Piece(Pawn, Black),
      Square(6, 0) := Piece(Pawn, White), Square(6, 1) := Piece(Pawn, White),
      Square(6, 3) := Piece(Pawn, White), Square(6, 4) := Piece(Pawn, White),
      Square(6, 5) := Piece(Pawn, White), Square(6, 6) := Piece(Pawn, White),
      Square(6, 7) := Piece(Pawn, White), Square(7, 0) := Piece(Rook, White),
      Square(7, 1) := Piece(Knight, White), Square(7, 2) := Piece(Bishop, White),
      Square(7, 3) := Piece(King, White), Square(7, 4) := Piece(Queen, White),
      Square(7, 5) := Piece(Bishop, White), Square(7, 6) := Piece(Knight, White),
      Square(7, 7) := Piece(Rook, White)
    ], White, Square(7, 3))
  {
    OpeningMove6263WhiteLine0();
    OpeningMove6263WhiteLine1();
    OpeningMove6263WhiteLine2();
    OpeningMove6263WhiteLine3();
    StraightParts(map[
      Square(0, 0) := Piece(Rook, Black), Square(0, 1) := Piece(Knight, Black),
      Square(0, 2) := Piece(Bishop, Black), Square(0, 3) := Piece(King, Black),
      Square(0, 4) := Piece(Queen, Black), Square(0, 5) := Piece(Bishop, Black),
      Square(0, 6) := Piece(Knight, Black), Square(0, 7) := Piece(Rook, Black),
      Square(1, 0) := Piece(Pawn, Black), Square(1, 1) := Piece(Pawn, Black),
      Square(1, 2) := Piece(Pawn, Black), Square(1, 3) := Piece(Pawn, Black),
      Square(1, 4) := Piece(Pawn, Black), Square(1, 5) := Piece(Pawn, Black),
      Square(1, 6) := Piece(Pawn, Black), Square(1, 7) := Piece(Pawn, Black),
      Square(6, 0) := Piece(Pawn, White), Square(6, 1) := Piece(Pawn, White),
      Square(6, 3) := Piece(Pawn, White), Square(6, 4) := Piece(Pawn, White),
      Square(6, 5) := Piece(Pawn, White), Square(6, 6) := Piece(Pawn, White),
      Square(6, 7) := Piece(Pawn, White), Square(7, 0) := Piece(Rook, White),
      Square(7, 1) := Piece(Knight, White), Square(7, 2) := Piece(Bishop, White),
      Square(7, 3) := Piece(King, White), Square(7, 4) := Piece(Queen, White),
      Square(7, 5) := Piece(Bishop, White), Square(7, 6) := Piece(Knight, White),
      Square(7, 7) := Piece(Rook, White)
    ], White, Square(7, 3), Rook);
    OpeningMove6263WhiteDiagonal0();
    OpeningMove6263WhiteDiagonal1();
    OpeningMove6263WhiteDiagonal2();
    OpeningMove6263WhiteDiagonal3();
    DiagonalParts(map[
      Square(0, 0) := Piece(Rook, Black), Square(0, 1) := Piece(Knight, Black),
      Square(0, 2) := Piece(Bishop, Black), Square(0, 3) := Piece(King, Black),
      Square(0, 4) := Piece(Queen, Black), Square(0, 5) := Piece(Bishop, Black),
      Square(0, 6) := Piece(Knight, Black), Square(0, 7) := Piece(Rook, Black),
      Square(1, 0) := Piece(Pawn, Black), Square(1, 1) := Piece(Pawn, Black),
      Square(1, 2) := Piece(Pawn, Black), Square(1, 3) := Piece(Pawn, Black),
      Square(1, 4) := Piece(Pawn, Black), Square(1, 5) := Piece(Pawn, Black),
      Square(1, 6) := Piece(Pawn, Black), Square(1, 7) := Piece(Pawn, Black),
      Square(6, 0) := Piece(Pawn, White), Square(6, 1) := Piece(Pawn, White),
      Square(6, 3) := Piece(Pawn, White), Square(6, 4) := Piece(Pawn, White),
      Square(6, 5) := Piece(Pawn, White), Square(6, 6) := Piece(Pawn, White),
      Square(6, 7) := Piece(Pawn, White), Square(7, 0) := Piece(Rook, White),
      Square(7, 1) := Piece(Knight, White), Square(7, 2) := Piece(Bishop, White),
      Square(7, 3) := Piece(King, White), Square(7, 4) := Piece(Queen, White),
      Square(7, 5) := Piece(Bishop, White), Square(7, 6) := Piece(Knight, White),
      Square(7, 7) := Piece(Rook, White)
    ], White, Square(7, 3), Bishop);
    OpeningMove6263WhiteKnight0();
    OpeningMove6263WhiteKnight1();
    OpeningMove6263WhiteKnight2();
    OpeningMove6263WhiteKnight3();
    OpeningMove6263WhiteKnight4();
    OpeningMove6263WhiteKnight5();
    OpeningMove6263WhiteKnight6();
    OpeningMove6263WhiteKnight7();
    KnightParts(map[
      Square(0, 0) := Piece(Rook, Black), Square(0, 1) := Piece(Knight, Black),
      Square(0, 2) := Piece(Bishop, Black), Square(0, 3) := Piece(King, Black),
      Square(0, 4) := Piece(Queen, Black), Square(0, 5) := Piece(Bishop, Black),
      Square(0, 6) := Piece(Knight, Black), Square(0, 7) := Piece(Rook, Black),
      Square(1, 0) := Piece(Pawn, Black), Square(1, 1) := Piece(Pawn, Black),
      Square(1, 2) := Piece(Pawn, Black), Square(1, 3) := Piece(Pawn, Black),
      Square(1, 4) := Piece(Pawn, Black), Square(1, 5) := Piece(Pawn, Black),
      Square(1, 6) := Piece(Pawn, Black), Square(1, 7) := Piece(Pawn, Black),
      Square(6, 0) := Piece(Pawn, White), Square(6, 1) := Piece(Pawn, White),
      Square(6, 3) := Piece(Pawn, White), Square(6, 4) := Piece(Pawn, White),
      Square(6, 5) := Piece(Pawn, White), Square(6, 6) := Piece(Pawn, White),
      Square(6, 7) := Piece(Pawn, White), Square(7, 0) := Piece(Rook, White),
      Square(7, 1) := Piece(Knight, White), Square(7, 2) := Piece(Bishop, White),
      Square(7, 3) := Piece(King, White), Square(7, 4) := Piece(Queen, White),
      Square(7, 5) := Piece(Bishop, White), Square(7, 6) := Piece(Knight, White),
      Square(7, 7) := Piece(Rook, White)
    ], White, Square(7, 3));
    OpeningMove6263WhiteStep0();
    OpeningMove6263WhiteStep1();
    OpeningMove6263WhiteStep2();
    OpeningMove6263WhiteStep3();
    OpeningMove6263WhiteStep4();
    OpeningMove6263WhiteStep5();
    OpeningMove6263WhiteStep6();
    OpeningMove6263WhiteStep7();
    KingStepParts(map[
      Square(0, 0) := Piece(Rook, Black), Square(0, 1) := Piece(Knight, Black),
      Square(0, 2) := Piece(Bishop, Black), Square(0, 3) := Piece(King, Black),
      Square(0, 4) := Piece(Queen, Black), Square(0, 5) := Piece(Bishop, Black),
      Square(0, 6) := Piece(Knight, Black), Square(0, 7) := Piece(Rook, Black),
      Square(1, 0) := Piece(Pawn, Black), Square(1, 1) := Piece(Pawn, Black),
      Square(1, 2) := Piece(Pawn, Black), Square(1, 3) := Piece(Pawn, Black),
      Square(1, 4) := Piece(Pawn, Black), Square(1, 5) := Piece(Pawn, Black),
      Square(1, 6) := Piece(Pawn, Black), Square(1, 7) := Piece(Pawn, Black),
      Square(6, 0) := Piece(Pawn, White), Square(6, 1) := Piece(Pawn, White),
      Square(6, 3) := Piece(Pawn, White), Square(6, 4) := Piece(Pawn, White),
      Square(6, 5) := Piece(Pawn, White), Square(6, 6) := Piece(Pawn, White),
      Square(6, 7) := Piece(Pawn, White), Square(7, 0) := Piece(Rook, White),
      Square(7, 1) := Piece(Knight, White), Square(7, 2) := Piece(Bishop, White),
      Square(7, 3) := Piece(King, White), Square(7, 4) := Piece(Queen, White),
      Square(7, 5) := Piece(Bishop, White), Square(7, 6) := Piece(Knight, White),
      Square(7, 7) := Piece(Rook, White)
    ], White, Square(7, 3));
    OpeningMove6263WhitePawn();
    DangerParts(map[
      Square(0, 0) := Piece(Rook, Black), Square(0, 1) := Piece(Knight, Black),
      Square(0, 2) := Piece(Bishop, Black), Square(0, 3) := Piece(King, Black),
      Square(0, 4) := Piece(Queen, Black), Square(0, 5) := Piece(Bishop, Black),
      Square(0, 6) := Piece(Knight, Black), Square(0, 7) := Piece(Rook, Black),
      Square(1, 0) := Piece(Pawn, Black), Square(1, 1) := Piece(Pawn, Black),
      Square(1, 2) := Piece(Pawn, Black), Square(1, 3) := Piece(Pawn, Black),
      Square(1, 4) := Piece(Pawn, Black), Square(1, 5) := Piece(Pawn, Black),
      Square(1, 6) := Piece(Pawn, Black), Square(1, 7) := Piece(Pawn, Black),
      Square(6, 0) := Piece(Pawn, White), Square(6, 1) := Piece(Pawn, White),
      Square(6, 3) := Piece(Pawn, White), Square(6, 4) := Piece(Pawn, White),
      Square(6, 5) := Piece(Pawn, White), Square(6, 6) := Piece(Pawn, White),
      Square(6, 7) := Piece(Pawn, White), Square(7, 0) := Piece(Rook, White),
      Square(7, 1) := Piece(Knight, White), Square(7, 2) := Piece(Bishop, White),
      Square(7, 3) := Piece(King, White), Square(7, 4) := Piece(Queen, White),
      Square(7, 5) := Piece(Bishop, White), Square(7, 6) := Piece(Knight, White),
      Square(7, 7) := Piece(Rook, White)
    ], White, Square(7, 3));
  }

  lemma OpeningMove6263KeepsWhite()
    ensures !Exposes(Opening, White, Square(6, 2), Square(6, 3))
  {
    OpeningReady();
    OpeningMove6263();
    OpeningAt62();
    OpeningMove6263WhiteSafe();
    ExposesGuarded(Opening, White, Square(6, 2), Square(6, 3), map[
      Square(0, 0) := Piece(Rook, Black), Square(0, 1) := Piece(Knight, Black),
      Square(0, 2) := Piece(Bishop, Black), Square(0, 3) := Piece(King, Black),
      Square(0, 4) := Piece(Queen, Black), Square(0, 5) := Piece(Bishop, Black),
      Square(0, 6) := Piece(Knight, Black), Square(0, 7) := Piece(Rook, Black),
      Square(1, 0) := Piece(Pawn, Black), Square(1, 1) := Piece(Pawn, Black),
      Square(1, 2) := Piece(Pawn, Black), Square(1, 3) := Piece(Pawn, Black),
      Square(1, 4) := Piece(Pawn, Black), Square(1, 5) := Piece(Pawn, Black),
      Square(1, 6) := Piece(Pawn, Black), Square(1, 7) := Piece(Pawn, Black),
      Square(6, 0) := Piece(Pawn, White), Square(6, 1) := Piece(Pawn, White),
      Square(6, 3) := Piece(Pawn, White), Square(6, 4) := Piece(Pawn, White),
      Square(6, 5) := Piece(Pawn, White), Square(6, 6) := Piece(Pawn, White),
      Square(6, 7) := Piece(Pawn, White), Square(7, 0) := Piece(Rook, White),
      Square(7, 1) := Piece(Knight, White), Square(7, 2) := Piece(Bishop, White),
      Square(7, 3) := Piece(King, White), Square(7, 4) := Piece(Queen, White),
      Square(7, 5) := Piece(Bishop, White), Square(7, 6) := Piece(Knight, White),
      Square(7, 7) := Piece(Rook, White)
    ]);
  }

  lemma RookCheckMove3373()
    ensures Relocate(RookCheck.board, Square(3, 3), Square(7, 3)) == map[Square(7, 3) := Piece(Rook, Black), Square(7, 6) := Piece(King, White)]
  {
  }

  lemma RookCheckReady()
    ensures Ready(RookCheck) && RookCheck.turn == White
    ensures KingSquare(RookCheck, White) == Square(7, 6) && KingSquare(RookCheck, Black) == Square(0, 3)
  {
  }

  lemma RookCheckAt33()
    ensures Square(3, 3) in RookCheck.board && RookCheck.board[Square(3, 3)] == Piece(Rook, Black)
  {
  }

  lemma RookCheckMove3373WhiteRook()
    ensures SliderThreat(map[Square(7, 3) := Piece(Rook, Black), Square(7, 6) := Piece(King, White)], White, Square(7, 6), Orthogonals, Rook)
  {
  }

  lemma RookCheckMove3373WhiteCheck()
    ensures KingInDanger(map[Square(7, 3) := Piece(Rook, Black), Square(7, 6) := Piece(King, White)], White, Square(7, 6))
  {
    RookCheckMove3373WhiteRook();
    DangerParts(map[Square(7, 3) := Piece(Rook, Black), Square(7, 6) := Piece(King, White)], White, Square(7, 6));
  }

  lemma RookCheckMove3373ExposesWhite()
    ensures Exposes(RookCheck, White, Square(3, 3), Square(7, 3))
  {
    RookCheckReady();
    RookCheckMove3373();
    RookCheckAt33();
    RookCheckMove3373WhiteCheck();
    ExposesGuarded(RookCheck, White, Square(3, 3), Square(7, 3), map[Square(7, 3) := Piece(Rook, Black), Square(7, 6) := Piece(King, White)]);
  }

  lemma DiscoveredMove7453()
    ensures Relocate(Discovered.board, Square(7, 4), Square(5, 3)) == map[
      Square(5, 3) := Piece(Knight, White), Square(7, 0) := Piece(Rook, Black),
      Square(7, 6) := Piece(King, White)
    ]
  {
  }

  lemma DiscoveredReady()
    ensures Ready(Discovered) && Discovered.turn == White
    ensures KingSquare(Discovered, White) == Square(7, 6) && KingSquare(Discovered, Black) == Square(0, 3)
  {
  }

  lemma DiscoveredAt74()
    ensures Square(7, 4) in Discovered.board && Discovered.board[Square(7, 4)] == Piece(Knight, White)
  {
  }

  lemma DiscoveredMove7453WhiteLine2()
    ensures First(map[
      Square(5, 3) := Piece(Knight, White), Square(7, 0) := Piece(Rook, Black),
      Square(7, 6) := Piece(King, White)
    ], Square(7, 6), Offset(0, -1)) == Some(Piece(Rook, Black))
  {
  }

  lemma DiscoveredMove7453WhiteCheck()
    ensures KingInDanger(map[
      Square(5, 3) := Piece(Knight, White), Square(7, 0) := Piece(Rook, Black),
      Square(7, 6) := Piece(King, White)
    ], White, Square(7, 6))
  {
    DiscoveredMove7453WhiteLine2();
    StraightParts(map[
      Square(5, 3) := Piece(Knight, White), Square(7, 0) := Piece(Rook, Black),
      Square(7, 6) := Piece(King, White)
    ], White, Square(7, 6), Rook);
    DangerParts(map[
      Square(5, 3) := Piece(Knight, White), Square(7, 0) := Piece(Rook, Black),
      Square(7, 6) := Piece(King, White)
    ], White, Square(7, 6));
  }

  lemma DiscoveredMove7453ExposesWhite()
    ensures Exposes(Discovered, White, Square(7, 4), Square(5, 3))
  {
    DiscoveredReady();
    DiscoveredMove7453();
    DiscoveredAt74();
    DiscoveredMove7453WhiteCheck();
    ExposesGuarded(Discovered, White, Square(7, 4), Square(5, 3), map[
      Square(5, 3) := Piece(Knight, White), Square(7, 0) := Piece(Rook, Black),
      Square(7, 6) := Piece(King, White)
    ]);
  }

  lemma OpeningMove6040()
    ensures Relocate(Opening.board, Square(6, 0), Square(4, 0)) == map[
      Square(0, 0) := Piece(Rook, Black), Square(0, 1) := Piece(Knight, Black),
      Square(0, 2) := Piece(Bishop, Black), Square(0, 3) := Piece(King, Black),
      Square(0, 4) := Piece(Queen, Black), Square(0, 5) := Piece(Bishop, Black),
      Square(0, 6) := Piece(Knight, Black), Square(0, 7) := Piece(Rook, Black),
      Square(1, 0) := Piece(Pawn, Black), Square(1, 1) := Piece(Pawn, Black),
      Square(1, 2) := Piece(Pawn, Black), Square(1, 3) := Piece(Pawn, Black),
      Square(1, 4) := Piece(Pawn, Black), Square(1, 5) := Piece(Pawn, Black),
      Square(1, 6) := Piece(Pawn, Black), Square(1, 7) := Piece(Pawn, Black),
      Square(4, 0) := Piece(Pawn, White), Square(6, 1) := Piece(Pawn, White),
      Square(6, 2) := Piece(Pawn, White), Square(6, 3) := Piece(Pawn, White),
      Square(6, 4) := Piece(Pawn, White), Square(6, 5) := Piece(Pawn, White),
      Square(6, 6) := Piece(Pawn, White), Square(6, 7) := Piece(Pawn, White),
      Square(7, 0) := Piece(Rook, White), Square(7, 1) := Piece(Knight, White),
      Square(7, 2) := Piece(Bishop, White), Square(7, 3) := Piece(King, White),
      Square(7, 4) := Piece(Queen, White), Square(7, 5) := Piece(Bishop, White),
      Square(7, 6) := Piece(Knight, White), Square(7, 7) := Piece(Rook, White)
    ]
  {
  }

  lemma OpeningAt60()
    ensures Square(6, 0) in Opening.board && Opening.board[Square(6, 0)] == Piece(Pawn, White)
  {
  }

  lemma OpeningMove6040WhiteLine0()
    ensures First(map[
      Square(0, 0) := Piece(Rook, Black), Square(0, 1) := Piece(Knight, Black),
      Square(0, 2) := Piece(Bishop, Black), Square(0, 3) := Piece(King, Black),
      Square(0, 4) := Piece(Queen, Black), Square(0, 5) := Piece(Bishop, Black),
      Square(0, 6) := Piece(Knight, Black), Square(0, 7) := Piece(Rook, Black),
      Square(1, 0) := Piece(Pawn, Black), Square(1, 1) := Piece(Pawn, Black),
      Square(1, 2) := Piece(Pawn, Black), Square(1, 3) := Piece(Pawn, Black),
      Square(1, 4) := Piece(Pawn, Black), Square(1, 5) := Piece(Pawn, Black),
      Square(1, 6) := Piece(Pawn, Black), Square(1, 7) := Piece(Pawn, Black),
      Square(4, 0) := Piece(Pawn, White), Square(6, 1) := Piece(Pawn, White),
      Square(6, 2) := Piece(Pawn, White), Square(6, 3) := Piece(Pawn, White),
      Square(6, 4) := Piece(Pawn, White), Square(6, 5) := Piece(Pawn, White),
      Square(6, 6) := Piece(Pawn, White), Square(6, 7) := Piece(Pawn, White),
      Square(7, 0) := Piece(Rook, White), Square(7, 1) := Piece(Knight, White),
      Square(7, 2) := Piece(Bishop, White), Square(7, 3) := Piece(King, White),
      Square(7, 4) := Piece(Queen, White), Square(7, 5) := Piece(Bishop, White),
      Square(7, 6) := Piece(Knight, White), Square(7, 7) := Piece(Rook, White)
    ], Square(7, 3), Offset(-1, 0)) == Some(Piece(Pawn, White))
  {
  }

  lemma OpeningMove6040WhiteLine1()
    ensures First(map[
      Square(0, 0) := Piece(Rook, Black), Square(0, 1) := Piece(Knight, Black),
      Square(0, 2) := Piece(Bishop, Black), Square(0, 3) := Piece(King, Black),
      Square(0, 4) := Piece(Queen, Black), Square(0, 5) := Piece(Bishop, Black),
      Square(0, 6) := Piece(Knight, Black), Square(0, 7) := Piece(Rook, Black),
      Square(1, 0) := Piece(Pawn, Black), Square(1, 1) := Piece(Pawn, Black),
      Square(1, 2) := Piece(Pawn, Black), Square(1, 3) := Piece(Pawn, Black),
      Square(1, 4) := Piece(Pawn, Black), Square(1, 5) := Piece(Pawn, Black),
      Square(1, 6) := Piece(Pawn, Black), Square(1, 7) := Piece(Pawn, Black),
      Square(4, 0) := Piece(Pawn, White), Square(6, 1) := Piece(Pawn, White),
      Square(6, 2) := Piece(Pawn, White), Square(6, 3) := Piece(Pawn, White),
      Square(6, 4) := Piece(Pawn, White), Square(6, 5) := Piece(Pawn, White),
      Square(6, 6) := Piece(Pawn, White), Square(6, 7) := Piece(Pawn, White),
      Square(7, 0) := Piece(Rook, White), Square(7, 1) := Piece(Knight, White),
      Square(7, 2) := Piece(Bishop, White), Square(7, 3) := Piece(King, White),
      Square(7, 4) := Piece(Queen, White), Square(7, 5) := Piece(Bishop, White),
      Square(7, 6) := Piece(Knight, White), Square(7, 7) := Piece(Rook, White)
    ], Square(7, 3), Offset(1, 0)) == None
  {
  }

  lemma OpeningMove6040WhiteLine2()
    ensures First(map[
      Square(0, 0) := Piece(Rook, Black), Square(0, 1) := Piece(Knight, Black),
      Square(0, 2) := Piece(Bishop, Black), Square(0, 3) := Piece(King, Black),
      Square(0, 4) := Piece(Queen, Black), Square(0, 5) := Piece(Bishop, Black),
      Square(0, 6) := Piece(Knight, Black), Square(0, 7) := Piece(Rook, Black),
      Square(1, 0) := Piece(Pawn, Black), Square(1, 1) := Piece(Pawn, Black),
      Square(1, 2) := Piece(Pawn, Black), Square(1, 3) := Piece(Pawn, Black),
      Square(1, 4) := Piece(Pawn, Black), Square(1, 5) := Piece(Pawn, Black),
      Square(1, 6) := Piece(Pawn, Black), Square(1, 7) := Piece(Pawn, Black),
      Square(4, 0) := Piece(Pawn, White), Square(6, 1) := Piece(Pawn, White),
      Square(6, 2) := Piece(Pawn, White), Square(6, 3) := Piece(Pawn, White),
      Square(6, 4) := Piece(Pawn, White), Square(6, 5) := Piece(Pawn, White),
      Square(6, 6) := Piece(Pawn, White), Square(6, 7) := Piece(Pawn, White),
      Square(7, 0) := Piece(Rook, White), Square(7, 1) := Piece(Knight, White),
      Square(7, 2) := Piece(Bishop, White), Square(7, 3) := Piece(King, White),
      Square(7, 4) := Piece(Queen, White), Square(7, 5) := Piece(Bishop, White),
      Square(7, 6) := Piece(Knight, White), Square(7, 7) := Piece(Rook, White)
    ], Square(7, 3), Offset(0, -1)) == Some(Piece(Bishop, White))
  {
  }

  lemma OpeningMove6040WhiteLine3()
    ensures First(map[
      Square(0, 0) := Piece(Rook, Black), Square(0, 1) := Piece(Knight, Black),
      Square(0, 2) := Piece(Bishop, Black), Square(0, 3) := Piece(King, Black),
      Square(0, 4) := Piece(Queen, Black), Square(0, 5) := Piece(Bishop, Black),
      Square(0, 6) := Piece(Knight, Black), Square(0, 7) := Piece(Rook, Black),
      Square(1, 0) := Piece(Pawn, Black), Square(1, 1) := Piece(Pawn, Black),
      Square(1, 2) := Piece(Pawn, Black), Square(1, 3) := Piece(Pawn, Black),
      Square(1, 4) := Piece(Pawn, Black), Square(1, 5) := Piece(Pawn, Black),
      Square(1, 6) := Piece(Pawn, Black), Square(1, 7) := Piece(Pawn, Black),
      Square(4, 0) := Piece(Pawn, White), Square(6, 1) := Piece(Pawn, White),
      Square(6, 2) := Piece(Pawn, White), Square(6, 3) := Piece(Pawn, White),
      Square(6, 4) := Piece(Pawn, White), Square(6, 5) := Piece(Pawn, White),
      Square(6, 6) := Piece(Pawn, White), Square(6, 7) := Piece(Pawn, White),
      Square(7, 0) := Piece(Rook, White), Square(7, 1) := Piece(Knight, White),
      Square(7, 2) := Piece(Bishop, White), Square(7, 3) := Piece(King, White),
      Square(7, 4) := Piece(Queen, White), Square(7, 5) := Piece(Bishop, White),
      Square(7, 6) := Piece(Knight, White), Square(7, 7) := Piece(Rook, White)
    ], Square(7, 3), Offset(0, 1)) == Some(Piece(Queen, White))
  {
  }

  lemma OpeningMove6040WhiteDiagonal0()
    ensures First(map[
      Square(0, 0) := Piece(Rook, Black), Square(0, 1) := Piece(Knight, Black),
      Square(0, 2) := Piece(Bishop, Black), Square(0, 3) := Piece(King, Black),
      Square(0, 4) := Piece(Queen, Black), Square(0, 5) := Piece(Bishop, Black),
      Square(0, 6) := Piece(Knight, Black), Square(0, 7) := Piece(Rook, Black),
      Square(1, 0) := Piece(Pawn, Black), Square(1, 1) := Piece(Pawn, Black),
      Square(1, 2) := Piece(Pawn, Black), Square(1, 3) := Piece(Pawn, Black),
      Square(1, 4) := Piece(Pawn, Black), Square(1, 5) := Piece(Pawn, Black),
      Square(1, 6) := Piece(Pawn, Black), Square(1, 7) := Piece(Pawn, Black),
      Square(4, 0) := Piece(Pawn, White), Square(6, 1) := Piece(Pawn, White),
      Square(6, 2) := Piece(Pawn, White), Square(6, 3) := Piece(Pawn, White),
      Square(6, 4) := Piece(Pawn, White), Square(6, 5) := Piece(Pawn, White),
      Square(6, 6) := Piece(Pawn, White), Square(6, 7) := Piece(Pawn, White),
      Square(7, 0) := Piece(Rook, White), Square(7, 1) := Piece(Knight, White),
      Square(7, 2) := Piece(Bishop, White), Square(7, 3) := Piece(King, White),
      Square(7, 4) := Piece(Queen, White), Square(7, 5) := Piece(Bishop, White),
      Square(7, 6) := Piece(Knight, White), Square(7, 7) := Piece(Rook, White)
    ], Square(7, 3), Offset(-1, 1)) == Some(Piece(Pawn, White))
  {
  }

  lemma OpeningMove6040WhiteDiagonal1()
    ensures First(map[
      Square(0, 0) := Piece(Rook, Black), Square(0, 1) := Piece(Knight, Black),
      Square(0, 2) := Piece(Bishop, Black), Square(0, 3) := Piece(King, Black),
      Square(0, 4) := Piece(Queen, Black), Square(0, 5) := Piece(Bishop, Black),
      Square(0, 6) := Piece(Knight, Black), Square(0, 7) := Piece(Rook, Black),
      Square(1, 0) := Piece(Pawn, Black), Square(1, 1) := Piece(Pawn, Black),
      Square(1, 2) := Piece(Pawn, Black), Square(1, 3) := Piece(Pawn, Black),
      Square(1, 4) := Piece(Pawn, Black), Square(1, 5) := Piece(Pawn, Black),
      Square(1, 6) := Piece(Pawn, Black), Square(1, 7) := Piece(Pawn, Black),
      Square(4, 0) := Piece(Pawn, White), Square(6, 1) := Piece(Pawn, White),
      Square(6, 2) := Piece(Pawn, White), Square(6, 3) := Piece(Pawn, White),
      Square(6, 4) := Piece(Pawn, White), Square(6, 5) := Piece(Pawn, White),
      Square(6, 6) := Piece(Pawn, White), Square(6, 7) := Piece(Pawn, White),
      Square(7, 0) := Piece(Rook, White), Square(7, 1) := Piece(Knight, White),
      Square(7, 2) := Piece(Bishop, White), Square(7, 3) := Piece(King, White),
      Square(7, 4) := Piece(Queen, White), Square(7, 5) := Piece(Bishop, White),
      Square(7, 6) := Piece(Knight, White), Square(7, 7) := Piece(Rook, White)
    ], Square(7, 3), Offset(-1, -1)) == Some(Piece(Pawn, White))
  {
  }

  lemma OpeningMove6040WhiteDiagonal2()
    ensures First(map[
      Square(0, 0) := Piece(Rook, Black), Square(0, 1) := Piece(Knight, Black),
      Square(0, 2) := Piece(Bishop, Black), Square(0, 3) := Piece(King, Black),
      Square(0, 4) := Piece(Queen, Black), Square(0, 5) := Piece(Bishop, Black),
      Square(0, 6) := Piece(Knight, Black), Square(0, 7) := Piece(Rook, Black),
      Square(1, 0) := Piece(Pawn, Black), Square(1, 1) := Piece(Pawn, Black),
      Square(1, 2) := Piece(Pawn, Black), Square(1, 3) := Piece(Pawn, Black),
      Square(1, 4) := Piece(Pawn, Black), Square(1, 5) := Piece(Pawn, Black),
      Square(1, 6) := Piece(Pawn, Black), Square(1, 7) := Piece(Pawn, Black),
      Square(4, 0) := Piece(Pawn, White), Square(6, 1) := Piece(Pawn, White),
      Square(6, 2) := Piece(Pawn, White), Square(6, 3) := Piece(Pawn, White),
      Square(6, 4) := Piece(Pawn, White), Square(6, 5) := Piece(Pawn, White),
      Square(6, 6) := Piece(Pawn, White), Square(6, 7) := Piece(Pawn, White),
      Square(7, 0) := Piece(Rook, White), Square(7, 1) := Piece(Knight, White),
      Square(7, 2) := Piece(Bishop, White), Square(7, 3) := Piece(King, White),
      Square(7, 4) := Piece(Queen, White), Square(7, 5) := Piece(Bishop, White),
      Square(7, 6) := Piece(Knight, White), Square(7, 7) := Piece(Rook, White)
    ], Square(7, 3), Offset(1, -1)) == None
  {
  }

  lemma OpeningMove6040WhiteDiagonal3()
    ensures First(map[
      Square(0, 0) := Piece(Rook, Black), Square(0, 1) := Piece(Knight, Black),
      Square(0, 2) := Piece(Bishop, Black), Square(0, 3) := Piece(King, Black),
      Square(0, 4) := Piece(Queen, Black), Square(0, 5) := Piece(Bishop, Black),
      Square(0, 6) := Piece(Knight, Black), Square(0, 7) := Piece(Rook, Black),
      Square(1, 0) := Piece(Pawn, Black), Square(1, 1) := Piece(Pawn, Black),
      Square(1, 2) := Piece(Pawn, Black), Square(1, 3) := Piece(Pawn, Black),
      Square(1, 4) := Piece(Pawn, Black), Square(1, 5) := Piece(Pawn, Black),
      Square(1, 6) := Piece(Pawn, Black), Square(1, 7) := Piece(Pawn, Black),
      Square(4, 0) := Piece(Pawn, White), Square(6, 1) := Piece(Pawn, White),
      Square(6, 2) := Piece(Pawn, White), Square(6, 3) := Piece(Pawn, White),
      Square(6, 4) := Piece(Pawn, White), Square(6, 5) := Piece(Pawn, White),
      Square(6, 6) := Piece(Pawn, White), Square(6, 7) := Piece(Pawn, White),
      Square(7, 0) := Piece(Rook, White), Square(7, 1) := Piece(Knight, White),
      Square(7, 2) := Piece(Bishop, White), Square(7, 3) := Piece(King, White),
      Square(7, 4) := Piece(Queen, White), Square(7, 5) := Piece(Bishop, White),
      Square(7, 6) := Piece(Knight, White), Square(7, 7) := Piece(Rook, White)
    ], Square(7, 3), Offset(1, 1)) == None
  {
  }

  lemma OpeningMove6040WhiteKnight0()
    ensures !LeapHit(map[
      Square(0, 0) := Piece(Rook, Black), Square(0, 1) := Piece(Knight, Black),
      Square(0, 2) := Piece(Bishop, Black), Square(0, 3) := Piece(King, Black),
      Square(0, 4) := Piece(Queen, Black), Square(0, 5) := Piece(Bishop, Black),
      Square(0, 6) := Piece(Knight, Black), Square(0, 7) := Piece(Rook, Black),
      Square(1, 0) := Piece(Pawn, Black), Square(1, 1) := Piece(Pawn, Black),
      Square(1, 2) := Piece(Pawn, Black), Square(1, 3) := Piece(Pawn, Black),
      Square(1, 4) := Piece(Pawn, Black), Square(1, 5) := Piece(Pawn, Black),
      Square(1, 6) := Piece(Pawn, Black), Square(1, 7) := Piece(Pawn, Black),
      Square(4, 0) := Piece(Pawn, White), Square(6, 1) := Piece(Pawn, White),
      Square(6, 2) := Piece(Pawn, White), Square(6, 3) := Piece(Pawn, White),
      Square(6, 4) := Piece(Pawn, White), Square(6, 5) := Piece(Pawn, White),
      Square(6, 6) := Piece(Pawn, White), Square(6, 7) := Piece(Pawn, White),
      Square(7, 0) := Piece(Rook, White), Square(7, 1) := Piece(Knight, White),
      Square(7, 2) := Piece(Bishop, White), Square(7, 3) := Piece(King, White),
      Square(7, 4) := Piece(Queen, White), Square(7, 5) := Piece(Bishop, White),
      Square(7, 6) := Piece(Knight, White), Square(7, 7) := Piece(Rook, White)
    ], White, Square(7, 3), Offset(1, -2), Knight)
  {
  }

  lemma OpeningMove6040WhiteKnight1()
    ensures !LeapHit(map[
      Square(0, 0) := Piece(Rook, Black), Square(0, 1) := Piece(Knight, Black),
      Square(0, 2) := Piece(Bishop, Black), Square(0, 3) := Piece(King, Black),
      Square(0, 4) := Piece(Queen, Black), Square(0, 5) := Piece(Bishop, Black),
      Square(0, 6) := Piece(Knight, Black), Square(0, 7) := Piece(Rook, Black),
      Square(1, 0) := Piece(Pawn, Black), Square(1, 1) := Piece(Pawn, Black),
      Square(1, 2) := Piece(Pawn, Black), Square(1, 3) := Piece(Pawn, Black),
      Square(1, 4) := Piece(Pawn, Black), Square(1, 5) := Piece(Pawn, Black),
      Square(1, 6) := Piece(Pawn, Black), Square(1, 7) := Piece(Pawn, Black),
      Square(4, 0) := Piece(Pawn, White), Square(6, 1) := Piece(Pawn, White),
      Square(6, 2) := Piece(Pawn, White), Square(6, 3) := Piece(Pawn, White),
      Square(6, 4) := Piece(Pawn, White), Square(6, 5) := Piece(Pawn, White),
      Square(6, 6) := Piece(Pawn, White), Square(6, 7) := Piece(Pawn, White),
      Square(7, 0) := Piece(Rook, White), Square(7, 1) := Piece(Knight, White),
      Square(7, 2) := Piece(Bishop, White), Square(7, 3) := Piece(King, White),
      Square(7, 4) := Piece(Queen, White), Square(7, 5) := Piece(Bishop, White),
      Square(7, 6) := Piece(Knight, White), Square(7, 7) := Piece(Rook, White)
    ], White, Square(7, 3), Offset(1, 2), Knight)
  {
  }

  lemma OpeningMove6040WhiteKnight2()
    ensures !LeapHit(map[
      Square(0, 0) := Piece(Rook, Black), Square(0, 1) := Piece(Knight, Black),
      Square(0, 2) := Piece(Bishop, Black), Square(0, 3) := Piece(King, Black),
      Square(0, 4) := Piece(Queen, Black), Square(0, 5) := Piece(Bishop, Black),
      Square(0, 6) := Piece(Knight, Black), Square(0, 7) := Piece(Rook, Black),
      Square(1, 0) := Piece(Pawn, Black), Square(1, 1) := Piece(Pawn, Black),
      Square(1, 2) := Piece(Pawn, Black), Square(1, 3) := Piece(Pawn, Black),
      Square(1, 4) := Piece(Pawn, Black), Square(1, 5) := Piece(Pawn, Black),
      Square(1, 6) := Piece(Pawn, Black), Square(1, 7) := Piece(Pawn, Black),
      Square(4, 0) := Piece(Pawn, White), Square(6, 1) := Piece(Pawn, White),
      Square(6, 2) := Piece(Pawn, White), Square(6, 3) := Piece(Pawn, White),
      Square(6, 4) := Piece(Pawn, White), Square(6, 5) := Piece(Pawn, White),
      Square(6, 6) := Piece(Pawn, White), Square(6, 7) := Piece(Pawn, White),
      Square(7, 0) := Piece(Rook, White), Square(7, 1) := Piece(Knight, White),
      Square(7, 2) := Piece(Bishop, White), Square(7, 3) := Piece(King, White),
      Square(7, 4) := Piece(Queen, White), Square(7, 5) := Piece(Bishop, White),
      Square(7, 6) := Piece(Knight, White), Square(7, 7) := Piece(Rook, White)
    ], White, Square(7, 3), Offset(2, -1), Knight)
  {
  }

  lemma OpeningMove6040WhiteKnight3()
    ensures !LeapHit(map[
      Square(0, 0) := Piece(Rook, Black), Square(0, 1) := Piece(Knight, Black),
      Square(0, 2) := Piece(Bishop, Black), Square(0, 3) := Piece(King, Black),
      Square(0, 4) := Piece(Queen, Black), Square(0, 5) := Piece(Bishop, Black),
      Square(0, 6) := Piece(Knight, Black), Square(0, 7) := Piece(Rook, Black),
      Square(1, 0) := Piece(Pawn, Black), Square(1, 1) := Piece(Pawn, Black),
      Square(1, 2) := Piece(Pawn, Black), Square(1, 3) := Piece(Pawn, Black),
      Square(1, 4) := Piece(Pawn, Black), Square(1, 5) := Piece(Pawn, Black),
      Square(1, 6) := Piece(Pawn, Black), Square(1, 7) := Piece(Pawn, Black),
      Square(4, 0) := Piece(Pawn, White), Square(6, 1) := Piece(Pawn, White),
      Square(6, 2) := Piece(Pawn, White), Square(6, 3) := Piece(Pawn, White),
      Square(6, 4) := Piece(Pawn, White), Square(6, 5) := Piece(Pawn, White),
      Square(6, 6) := Piece(Pawn, White), Square(6, 7) := Piece(Pawn, White),
      Square(7, 0) := Piece(Rook, White), Square(7, 1) := Piece(Knight, White),
      Square(7, 2) := Piece(Bishop, White), Square(7, 3) := Piece(King, White),
      Square(7, 4) := Piece(Queen, White), Square(7, 5) := Piece(Bishop, White),
      Square(7, 6) := Piece(Knight, White), Square(7, 7) := Piece(Rook, White)
    ], White, Square(7, 3), Offset(2, 1), Knight)
  {
  }

  lemma OpeningMove6040WhiteKnight4()
    ensures !LeapHit(map[
      Square(0, 0) := Piece(Rook, Black), Square(0, 1) := Piece(Knight, Black),
      Square(0, 2) := Piece(Bishop, Black), Square(0, 3) := Piece(King, Black),
      Square(0, 4) := Piece(Queen, Black), Square(0, 5) := Piece(Bishop, Black),
      Square(0, 6) := Piece(Knight, Black), Square(0, 7) := Piece(Rook, Black),
      Square(1, 0) := Piece(Pawn, Black), Square(1, 1) := Piece(Pawn, Black),
      Square(1, 2) := Piece(Pawn, Black), Square(1, 3) := Piece(Pawn, Black),
      Square(1, 4) := Piece(Pawn, Black), Square(1, 5) := Piece(Pawn, Black),
      Square(1, 6) := Piece(Pawn, Black), Square(1, 7) := Piece(Pawn, Black),
      Square(4, 0) := Piece(Pawn, White), Square(6, 1) := Piece(Pawn, White),
      Square(6, 2) := Piece(Pawn, White), Square(6, 3) := Piece(Pawn, White),
      Square(6, 4) := Piece(Pawn, White), Square(6, 5) := Piece(Pawn, White),
      Square(6, 6) := Piece(Pawn, White), Square(6, 7) := Piece(Pawn, White),
      Square(7, 0) := Piece(Rook, White), Square(7, 1) := Piece(Knight, White),
      Square(7, 2) := Piece(Bishop, White), Square(7, 3) := Piece(King, White),
      Square(7, 4) := Piece(Queen, White), Square(7, 5) := Piece(Bishop, White),
      Square(7, 6) := Piece(Knight, White), Square(7, 7) := Piece(Rook, White)
    ], White, Square(7, 3), Offset(-1, -2), Knight)
  {
  }

  lemma OpeningMove6040WhiteKnight5()
    ensures !LeapHit(map[
      Square(0, 0) := Piece(Rook, Black), Square(0, 1) := Piece(Knight, Black),
      Square(0, 2) := Piece(Bishop, Black), Square(0, 3) := Piece(King, Black),
      Square(0, 4) := Piece(Queen, Black), Square(0, 5) := Piece(Bishop, Black),
      Square(0, 6) := Piece(Knight, Black), Square(0, 7) := Piece(Rook, Black),
      Square(1, 0) := Piece(Pawn, Black), Square(1, 1) := Piece(Pawn, Black),
      Square(1, 2) := Piece(Pawn, Black), Square(1, 3) := Piece(Pawn, Black),
      Square(1, 4) := Piece(Pawn, Black), Square(1, 5) := Piece(Pawn, Black),
      Square(1, 6) := Piece(Pawn, Black), Square(1, 7) := Piece(Pawn, Black),
      Square(4, 0) := Piece(Pawn, White), Square(6, 1) := Piece(Pawn, White),
      Square(6, 2) := Piece(Pawn, White), Square(6, 3) := Piece(Pawn, White),
      Square(6, 4) := Piece(Pawn, White), Square(6, 5) := Piece(Pawn, White),
      Square(6, 6) := Piece(Pawn, White), Square(6, 7) := Piece(Pawn, White),
      Square(7, 0) := Piece(Rook, White), Square(7, 1) := Piece(Knight, White),
      Square(7, 2) := Piece(Bishop, White), Square(7, 3) := Piece(King, White),
      Square(7, 4) := Piece(Queen, White), Square(7, 5) := Piece(Bishop, White),
      Square(7, 6) := Piece(Knight, White), Square(7, 7) := Piece(Rook, White)
    ], White, Square(7, 3), Offset(-1, 2), Knight)
  {
  }

  lemma OpeningMove6040WhiteKnight6()
    ensures !LeapHit(map[
      Square(0, 0) := Piece(Rook, Black), Square(0, 1) := Piece(Knight, Black),
      Square(0, 2) := Piece(Bishop, Black), Square(0, 3) := Piece(King, Black),
      Square(0, 4) := Piece(Queen, Black), Square(0, 5) := Piece(Bishop, Black),
      Square(0, 6) := Piece(Knight, Black), Square(0, 7) := Piece(Rook, Black),
      Square(1, 0) := Piece(Pawn, Black), Square(1, 1) := Piece(Pawn, Black),
      Square(1, 2) := Piece(Pawn, Black), Square(1, 3) := Piece(Pawn, Black),
      Square(1, 4) := Piece(Pawn, Black), Square(1, 5) := Piece(Pawn, Black),
      Square(1, 6) := Piece(Pawn, Black), Square(1, 7) := Piece(Pawn, Black),
      Square(4, 0) := Piece(Pawn, White), Square(6, 1) := Piece(Pawn, White),
      Square(6, 2) := Piece(Pawn, White), Square(6, 3) := Piece(Pawn, White),
      Square(6, 4) := Piece(Pawn, White), Square(6, 5) := Piece(Pawn, White),
      Square(6, 6) := Piece(Pawn, White), Square(6, 7) := Piece(Pawn, White),
      Square(7, 0) := Piece(Rook, White), Square(7, 1) := Piece(Knight, White),
      Square(7, 2) := Piece(Bishop, White), Square(7, 3) := Piece(King, White),
      Square(7, 4) := Piece(Queen, White), Square(7, 5) := Piece(Bishop, White),
      Square(7, 6) := Piece(Knight, White), Square(7, 7) := Piece(Rook, White)
    ], White, Square(7, 3), Offset(-2, -1), Knight)
  {
  }

  lemma OpeningMove6040WhiteKnight7()
    ensures !LeapHit(map[
      Square(0, 0) := Piece(Rook, Black), Square(0, 1) := Piece(Knight, Black),
      Square(0, 2) := Piece(Bishop, Black), Square(0, 3) := Piece(King, Black),
      Square(0, 4) := Piece(Queen, Black), Square(0, 5) := Piece(Bishop, Black),
      Square(0, 6) := Piece(Knight, Black), Square(0, 7) := Piece(Rook, Black),
      Square(1, 0) := Piece(Pawn, Black), Square(1, 1) := Piece(Pawn, Black),
      Square(1, 2) := Piece(Pawn, Black), Square(1, 3) := Piece(Pawn, Black),
      Square(1, 4) := Piece(Pawn, Black), Square(1, 5) := Piece(Pawn, Black),
      Square(1, 6) := Piece(Pawn, Black), Square(1, 7) := Piece(Pawn, Black),
      Square(4, 0) := Piece(Pawn, White), Square(6, 1) := Piece(Pawn, White),
      Square(6, 2) := Piece(Pawn, White), Square(6, 3) := Piece(Pawn, White),
      Square(6, 4) := Piece(Pawn, White), Square(6, 5) := Piece(Pawn, White),
      Square(6, 6) := Piece(Pawn, White), Square(6, 7) := Piece(Pawn, White),
      Square(7, 0) := Piece(Rook, White), Square(7, 1) := Piece(Knight, White),
      Square(7, 2) := Piece(Bishop, White), Square(7, 3) := Piece(King, White),
      Square(7, 4) := Piece(Queen, White), Square(7, 5) := Piece(Bishop, White),
      Square(7, 6) := Piece(Knight, White), Square(7, 7) := Piece(Rook, White)
    ], White, Square(7, 3), Offset(-2, 1), Knight)
  {
  }

  lemma OpeningMove6040WhiteStep0()
    ensures !LeapHit(map[
      Square(0, 0) := Piece(Rook, Black), Square(0, 1) := Piece(Knight, Black),
      Square(0, 2) := Piece(Bishop, Black), Square(0, 3) := Piece(King, Black),
      Square(0, 4) := Piece(Queen, Black), Square(0, 5) := Piece(Bishop, Black),
      Square(0, 6) := Piece(Knight, Black), Square(0, 7) := Piece(Rook, Black),
      Square(1, 0) := Piece(Pawn, Black), Square(1, 1) := Piece(Pawn, Black),
      Square(1, 2) := Piece(Pawn, Black), Square(1, 3) := Piece(Pawn, Black),
      Square(1, 4) := Piece(Pawn, Black), Square(1, 5) := Piece(Pawn, Black),
      Square(1, 6) := Piece(Pawn, Black), Square(1, 7) := Piece(Pawn, Black),
      Square(4, 0) := Piece(Pawn, White), Square(6, 1) := Piece(Pawn, White),
      Square(6, 2) := Piece(Pawn, White), Square(6, 3) := Piece(Pawn, White),
      Square(6, 4) := Piece(Pawn, White), Square(6, 5) := Piece(Pawn, White),
      Square(6, 6) := Piece(Pawn, White), Square(6, 7) := Piece(Pawn, White),
      Square(7, 0) := Piece(Rook, White), Square(7, 1) := Piece(Knight, White),
      Square(7, 2) := Piece(Bishop, White), Square(7, 3) := Piece(King, White),
      Square(7, 4) := Piece(Queen, White), Square(7, 5) := Piece(Bishop, White),
      Square(7, 6) := Piece(Knight, White), Square(7, 7) := Piece(Rook, White)
    ], White, Square(7, 3), Offset(0, -1), King)
  {
  }

  lemma OpeningMove6040WhiteStep1()
    ensures !LeapHit(map[
      Square(0, 0) := Piece(Rook, Black), Square(0, 1) := Piece(Knight, Black),
      Square(0, 2) := Piece(Bishop, Black), Square(0, 3) := Piece(King, Black),
      Square(0, 4) := Piece(Queen, Black), Square(0, 5) := Piece(Bishop, Black),
      Square(0, 6) := Piece(Knight, Black), Square(0, 7) := Piece(Rook, Black),
      Square(1, 0) := Piece(Pawn, Black), Square(1, 1) := Piece(Pawn, Black),
      Square(1, 2) := Piece(Pawn, Black), Square(1, 3) := Piece(Pawn, Black),
      Square(1, 4) := Piece(Pawn, Black), Square(1, 5) := Piece(Pawn, Black),
      Square(1, 6) := Piece(Pawn, Black), Square(1, 7) := Piece(Pawn, Black),
      Square(4, 0) := Piece(Pawn, White), Square(6, 1) := Piece(Pawn, White),
      Square(6, 2) := Piece(Pawn, White), Square(6, 3) := Piece(Pawn, White),
      Square(6, 4) := Piece(Pawn, White), Square(6, 5) := Piece(Pawn, White),
      Square(6, 6) := Piece(Pawn, White), Square(6, 7) := Piece(Pawn, White),
      Square(7, 0) := Piece(Rook, White), Square(7, 1) := Piece(Knight, White),
      Square(7, 2) := Piece(Bishop, White), Square(7, 3) := Piece(King, White),
      Square(7, 4) := Piece(Queen, White), Square(7, 5) := Piece(Bishop, White),
      Square(7, 6) := Piece(Knight, White), Square(7, 7) := Piece(Rook, White)
    ], White, Square(7, 3), Offset(0, 1), King)
  {
  }

  lemma OpeningMove6040WhiteStep2()
    ensures !LeapHit(map[
      Square(0, 0) := Piece(Rook, Black), Square(0, 1) := Piece(Knight, Black),
      Square(0, 2) := Piece(Bishop, Black), Square(0, 3) := Piece(King, Black),
      Square(0, 4) := Piece(Queen, Black), Square(0, 5) := Piece(Bishop, Black),
      Square(0, 6) := Piece(Knight, Black), Square(0, 7) := Piece(Rook, Black),
      Square(1, 0) := Piece(Pawn, Black), Square(1, 1) := Piece(Pawn, Black),
      Square(1, 2) := Piece(Pawn, Black), Square(1, 3) := Piece(Pawn, Black),
      Square(1, 4) := Piece(Pawn, Black), Square(1, 5) := Piece(Pawn, Black),
      Square(1, 6) := Piece(Pawn, Black), Square(1, 7) := Piece(Pawn, Black),
      Square(4, 0) := Piece(Pawn, White), Square(6, 1) := Piece(Pawn, White),
      Square(6, 2) := Piece(Pawn, White), Square(6, 3) := Piece(Pawn, White),
      Square(6, 4) := Piece(Pawn, White), Square(6, 5) := Piece(Pawn, White),
      Square(6, 6) := Piece(Pawn, White), Square(6, 7) := Piece(Pawn, White),
      Square(7, 0) := Piece(Rook, White), Square(7, 1) := Piece(Knight, White),
      Square(7, 2) := Piece(Bishop, White), Square(7, 3) := Piece(King, White),
      Square(7, 4) := Piece(Queen, White), Square(7, 5) := Piece(Bishop, White),
      Square(7, 6) := Piece(Knight, White), Square(7, 7) := Piece(Rook, White)
    ], White, Square(7, 3), Offset(1, -1), King)
  {
  }

  lemma OpeningMove6040WhiteStep3()
    ensures !LeapHit(map[
      Square(0, 0) := Piece(Rook, Black), Square(0, 1) := Piece(Knight, Black),
      Square(0, 2) := Piece(Bishop, Black), Square(0, 3) := Piece(King, Black),
      Square(0, 4) := Piece(Queen, Black), Square(0, 5) := Piece(Bishop, Black),
      Square(0, 6) := Piece(Knight, Black), Square(0, 7) := Piece(Rook, Black),
      Square(1, 0) := Piece(Pawn, Black), Square(1, 1) := Piece(Pawn, Black),
      Square(1, 2) := Piece(Pawn, Black), Square(1, 3) := Piece(Pawn, Black),
      Square(1, 4) := Piece(Pawn, Black), Square(1, 5) := Piece(Pawn, Black),
      Square(1, 6) := Piece(Pawn, Black), Square(1, 7) := Piece(Pawn, Black),
      Square(4, 0) := Piece(Pawn, White), Square(6, 1) := Piece(Pawn, White),
      Square(6, 2) := Piece(Pawn, White), Square(6, 3) := Piece(Pawn, White),
      Square(6, 4) := Piece(Pawn, White), Square(6, 5) := Piece(Pawn, White),
      Square(6, 6) := Piece(Pawn, White), Square(6, 7) := Piece(Pawn, White),
      Square(7, 0) := Piece(Rook, White), Square(7, 1) := Piece(Knight, White),
      Square(7, 2) := Piece(Bishop, White), Square(7, 3) := Piece(King, White),
      Square(7, 4) := Piece(Queen, White), Square(7, 5) := Piece(Bishop, White),
      Square(7, 6) := Piece(Knight, White), Square(7, 7) := Piece(Rook, White)
    ], White, Square(7, 3), Offset(1, 0), King)
  {
  }

  lemma OpeningMove6040WhiteStep4()
    ensures !LeapHit(map[
      Square(0, 0) := Piece(Rook, Black), Square(0, 1) := Piece(Knight, Black),
      Square(0, 2) := Piece(Bishop, Black), Square(0, 3) := Piece(King, Black),
      Square(0, 4) := Piece(Queen, Black), Square(0, 5) := Piece(Bishop, Black),
      Square(0, 6) := Piece(Knight, Black), Square(0, 7) := Piece(Rook, Black),
      Square(1, 0) := Piece(Pawn, Black), Square(1, 1) := Piece(Pawn, Black),
      Square(1, 2) := Piece(Pawn, Black), Square(1, 3) := Piece(Pawn, Black),
      Square(1, 4) := Piece(Pawn, Black), Square(1, 5) := Piece(Pawn, Black),
      Square(1, 6) := Piece(Pawn, Black), Square(1, 7) := Piece(Pawn, Black),
      Square(4, 0) := Piece(Pawn, White), Square(6, 1) := Piece(Pawn, White),
      Square(6, 2) := Piece(Pawn, White), Square(6, 3) := Piece(Pawn, White),
      Square(6, 4) := Piece(Pawn, White), Square(6, 5) := Piece(Pawn, White),
      Square(6, 6) := Piece(Pawn, White), Square(6, 7) := Piece(Pawn, White),
      Square(7, 0) := Piece(Rook, White), Square(7, 1) := Piece(Knight, White),
      Square(7, 2) := Piece(Bishop, White), Square(7, 3) := Piece(King, White),
      Square(7, 4) := Piece(Queen, White), Square(7, 5) := Piece(Bishop, White),
      Square(7, 6) := Piece(Knight, White), Square(7, 7) := Piece(Rook, White)
    ], White, Square(7, 3), Offset(1, 1), King)
  {
  }

  lemma OpeningMove6040WhiteStep5()
    ensures !LeapHit(map[
      Square(0, 0) := Piece(Rook, Black), Square(0, 1) := Piece(Knight, Black),
      Square(0, 2) := Piece(Bishop, Black), Square(0, 3) := Piece(King, Black),
      Square(0, 4) := Piece(Queen, Black), Square(0, 5) := Piece(Bishop, Black),
      Square(0, 6) := Piece(Knight, Black), Square(0, 7) := Piece(Rook, Black),
      Square(1, 0) := Piece(Pawn, Black), Square(1, 1) := Piece(Pawn, Black),
      Square(1, 2) := Piece(Pawn, Black), Square(1, 3) := Piece(Pawn, Black),
      Square(1, 4) := Piece(Pawn, Black), Square(1, 5) := Piece(Pawn, Black),
      Square(1, 6) := Piece(Pawn, Black), Square(1, 7) := Piece(Pawn, Black),
      Square(4, 0) := Piece(Pawn, White), Square(6, 1) := Piece(Pawn, White),
      Square(6, 2) := Piece(Pawn, White), Square(6, 3) := Piece(Pawn, White),
      Square(6, 4) := Piece(Pawn, White), Square(6, 5) := Piece(Pawn, White),
      Square(6, 6) := Piece(Pawn, White), Square(6, 7) := Piece(Pawn, White),
      Square(7, 0) := Piece(Rook, White), Square(7, 1) := Piece(Knight, White),
      Square(7, 2) := Piece(Bishop, White), Square(7, 3) := Piece(King, White),
      Square(7, 4) := Piece(Queen, White), Square(7, 5) := Piece(Bishop, White),
      Square(7, 6) := Piece(Knight, White), Square(7, 7) := Piece(Rook, White)
    ], White, Square(7, 3), Offset(-1, -1), King)
  {
  }

  lemma OpeningMove6040WhiteStep6()
    ensures !LeapHit(map[
      Square(0, 0) := Piece(Rook, Black), Square(0, 1) := Piece(Knight, Black),
      Square(0, 2) := Piece(Bishop, Black), Square(0, 3) := Piece(King, Black),
      Square(0, 4) := Piece(Queen, Black), Square(0, 5) := Piece(Bishop, Black),
      Square(0, 6) := Piece(Knight, Black), Square(0, 7) := Piece(Rook, Black),
      Square(1, 0) := Piece(Pawn, Black), Square(1, 1) := Piece(Pawn, Black),
      Square(1, 2) := Piece(Pawn, Black), Square(1, 3) := Piece(Pawn, Black),
      Square(1, 4) := Piece(Pawn, Black), Square(1, 5) := Piece(Pawn, Black),
      Square(1, 6) := Piece(Pawn, Black), Square(1, 7) := Piece(Pawn, Black),
      Square(4, 0) := Piece(Pawn, White), Square(6, 1) := Piece(Pawn, White),
      Square(6, 2) := Piece(Pawn, White), Square(6, 3) := Piece(Pawn, White),
      Square(6, 4) := Piece(Pawn, White), Square(6, 5) := Piece(Pawn, White),
      Square(6, 6) := Piece(Pawn, White), Square(6, 7) := Piece(Pawn, White),
      Square(7, 0) := Piece(Rook, White), Square(7, 1) := Piece(Knight, White),
      Square(7, 2) := Piece(Bishop, White), Square(7, 3) := Piece(King, White),
      Square(7, 4) := Piece(Queen, White), Square(7, 5) := Piece(Bishop, White),
      Square(7, 6) := Piece(Knight, White), Square(7, 7) := Piece(Rook, White)
    ], White, Square(7, 3), Offset(-1, 0), King)
  {
  }

  lemma OpeningMove6040WhiteStep7()
    ensures !LeapHit(map[
      Square(0, 0) := Piece(Rook, Black), Square(0, 1) := Piece(Knight, Black),
      Square(0, 2) := Piece(Bishop, Black), Square(0, 3) := Piece(King, Black),
      Square(0, 4) := Piece(Queen, Black), Square(0, 5) := Piece(Bishop, Black),
      Square(0, 6) := Piece(Knight, Black), Square(0, 7) := Piece(Rook, Black),
      Square(1, 0) := Piece(Pawn, Black), Square(1, 1) := Piece(Pawn, Black),
      Square(1, 2) := Piece(Pawn, Black), Square(1, 3) := Piece(Pawn, Black),
      Square(1, 4) := Piece(Pawn, Black), Square(1, 5) := Piece(Pawn, Black),
      Square(1, 6) := Piece(Pawn, Black), Square(1, 7) := Piece(Pawn, Black),
      Square(4, 0) := Piece(Pawn, White), Square(6, 1) := Piece(Pawn, White),
      Square(6, 2) := Piece(Pawn, White), Square(6, 3) := Piece(Pawn, White),
      Square(6, 4) := Piece(Pawn, White), Square(6, 5) := Piece(Pawn, White),
      Square(6, 6) := Piece(Pawn, White), Square(6, 7) := Piece(Pawn, White),
      Square(7, 0) := Piece(Rook, White), Square(7, 1) := Piece(Knight, White),
      Square(7, 2) := Piece(Bishop, White), Square(7, 3) := Piece(King, White),
      Square(7, 4) := Piece(Queen, White), Square(7, 5) := Piece(Bishop, White),
      Square(7, 6) := Piece(Knight, White), Square(7, 7) := Piece(Rook, White)
    ], White, Square(7, 3), Offset(-1, 1), King)
  {
  }

  lemma OpeningMove6040WhitePawn()
    ensures !PawnThreat(map[
      Square(0, 0) := Piece(Rook, Black), Square(0, 1) := Piece(Knight, Black),
      Square(0, 2) := Piece(Bishop, Black), Square(0, 3) := Piece(King, Black),
      Square(0, 4) := Piece(Queen, Black), Square(0, 5) := Piece(Bishop, Black),
      Square(0, 6) := Piece(Knight, Black), Square(0, 7) := Piece(Rook, Black),
      Square(1, 0) := Piece(Pawn, Black), Square(1, 1) := Piece(Pawn, Black),
      Square(1, 2) := Piece(Pawn, Black), Square(1, 3) := Piece(Pawn, Black),
      Square(1, 4) := Piece(Pawn, Black), Square(1, 5) := Piece(Pawn, Black),
      Square(1, 6) := Piece(Pawn, Black), Square(1, 7) := Piece(Pawn, Black),
      Square(4, 0) := Piece(Pawn, White), Square(6, 1) := Piece(Pawn, White),
      Square(6, 2) := Piece(Pawn, White), Square(6, 3) := Piece(Pawn, White),
      Square(6, 4) := Piece(Pawn, White), Square(6, 5) := Piece(Pawn, White),
      Square(6, 6) := Piece(Pawn, White), Square(6, 7) := Piece(Pawn, White),
      Square(7, 0) := Piece(Rook, White), Square(7, 1) := Piece(Knight, White),
      Square(7, 2) := Piece(Bishop, White), Square(7, 3) := Piece(King, White),
      Square(7, 4) := Piece(Queen, White), Square(7, 5) := Piece(Bishop, White),
      Square(7, 6) := Piece(Knight, White), Square(7, 7) := Piece(Rook, White)
    ], White, Square(7, 3))
  {
  }

  lemma OpeningMove6040WhiteSafe()
    ensures !KingInDanger(map[
      Square(0, 0) := Piece(Rook, Black), Square(0, 1) := Piece(Knight, Black),
      Square(0, 2) := Piece(Bishop, Black), Square(0, 3) := Piece(King, Black),
      Square(0, 4) := Piece(Queen, Black), Square(0, 5) := Piece(Bishop, Black),
      Square(0, 6) := Piece(Knight, Black), Square(0, 7) := Piece(Rook, Black),
      Square(1, 0) := Piece(Pawn, Black), Square(1, 1) := Piece(Pawn, Black),
      Square(1, 2) := Piece(Pawn, Black), Square(1, 3) := Piece(Pawn, Black),
      Square(1, 4) := Piece(Pawn, Black), Square(1, 5) := Piece(Pawn, Black),
      Square(1, 6) := Piece(Pawn, Black), Square(1, 7) := Piece(Pawn, Black),
      Square(4, 0) := Piece(Pawn, White), Square(6, 1) := Piece(Pawn, White),
      Square(6, 2) := Piece(Pawn, White), Square(6, 3) := Piece(Pawn, White),
      Square(6, 4) := Piece(Pawn, White), Square(6, 5) := Piece(Pawn, White),
      Square(6, 6) := Piece(Pawn, White), Square(6, 7) := Piece(Pawn, White),
      Square(7, 0) := Piece(Rook, White), Square(7, 1) := Piece(Knight, White),
      Square(7, 2) := Piece(Bishop, White), Square(7, 3) := Piece(King, White),
      Square(7, 4) := Piece(Queen, White), Square(7, 5) := Piece(Bishop, White),
      Square(7, 6) := Piece(Knight, White), Square(7, 7) := Piece(Rook, White)
    ], White, Square(7, 3))
  {
    OpeningMove6040WhiteLine0();
    OpeningMove6040WhiteLine1();
    OpeningMove6040WhiteLine2();
    OpeningMove6040WhiteLine3();
    StraightParts(map[
      Square(0, 0) := Piece(Rook, Black), Square(0, 1) := Piece(Knight, Black),
      Square(0, 2) := Piece(Bishop, Black), Square(0, 3) := Piece(King, Black),
      Square(0, 4) := Piece(Queen, Black), Square(0, 5) := Piece(Bishop, Black),
      Square(0, 6) := Piece(Knight, Black), Square(0, 7) := Piece(Rook, Black),
      Square(1, 0) := Piece(Pawn, Black), Square(1, 1) := Piece(Pawn, Black),
      Square(1, 2) := Piece(Pawn, Black), Square(1, 3) := Piece(Pawn, Black),
      Square(1, 4) := Piece(Pawn, Black), Square(1, 5) := Piece(Pawn, Black),
      Square(1, 6) := Piece(Pawn, Black), Square(1, 7) := Piece(Pawn, Black),
      Square(4, 0) := Piece(Pawn, White), Square(6, 1) := Piece(Pawn, White),
      Square(6, 2) := Piece(Pawn, White), Square(6, 3) := Piece(Pawn, White),
      Square(6, 4) := Piece(Pawn, White), Square(6, 5) := Piece(Pawn, White),
      Square(6, 6) := Piece(Pawn, White), Square(6, 7) := Piece(Pawn, White),
      Square(7, 0) := Piece(Rook, White), Square(7, 1) := Piece(Knight, White),
      Square(7, 2) := Piece(Bishop, White), Square(7, 3) := Piece(King, White),
      Square(7, 4) := Piece(Queen, White), Square(7, 5) := Piece(Bishop, White),
      Square(7, 6) := Piece(Knight, White), Square(7, 7) := Piece(Rook, White)
    ], White, Square(7, 3), Rook);
    OpeningMove6040WhiteDiagonal0();
    OpeningMove6040WhiteDiagonal1();
    OpeningMove6040WhiteDiagonal2();
    OpeningMove6040WhiteDiagonal3();
    DiagonalParts(map[
      Square(0, 0) := Piece(Rook, Black), Square(0, 1) := Piece(Knight, Black),
      Square(0, 2) := Piece(Bishop, Black), Square(0, 3) := Piece(King, Black),
      Square(0, 4) := Piece(Queen, Black), Square(0, 5) := Piece(Bishop, Black),
      Square(0, 6) := Piece(Knight, Black), Square(0, 7) := Piece(Rook, Black),
      Square(1, 0) := Piece(Pawn, Black), Square(1, 1) := Piece(Pawn, Black),
      Square(1, 2) := Piece(Pawn, Black), Square(1, 3) := Piece(Pawn, Black),
      Square(1, 4) := Piece(Pawn, Black), Square(1, 5) := Piece(Pawn, Black),
      Square(1, 6) := Piece(Pawn, Black), Square(1, 7) := Piece(Pawn, Black),
      Square(4, 0) := Piece(Pawn, White), Square(6, 1) := Piece(Pawn, White),
      Square(6, 2) := Piece(Pawn, White), Square(6, 3) := Piece(Pawn, White),
      Square(6, 4) := Piece(Pawn, White), Square(6, 5) := Piece(Pawn, White),
      Square(6, 6) := Piece(Pawn, White), Square(6, 7) := Piece(Pawn, White),
      Square(7, 0) := Piece(Rook, White), Square(7, 1) := Piece(Knight, White),
      Square(7, 2) := Piece(Bishop, White), Square(7, 3) := Piece(King, White),
      Square(7, 4) := Piece(Queen, White), Square(7, 5) := Piece(Bishop, White),
      Square(7, 6) := Piece(Knight, White), Square(7, 7) := Piece(Rook, White)
    ], White, Square(7, 3), Bishop);
    OpeningMove6040WhiteKnight0();
    OpeningMove6040WhiteKnight1();
    OpeningMove6040WhiteKnight2();
    OpeningMove6040WhiteKnight3();
    OpeningMove6040WhiteKnight4();
    OpeningMove6040WhiteKnight5();
    OpeningMove6040WhiteKnight6();
    OpeningMove6040WhiteKnight7();
    KnightParts(map[
      Square(0, 0) := Piece(Rook, Black), Square(0, 1) := Piece(Knight, Black),
      Square(0, 2) := Piece(Bishop, Black), Square(0, 3) := Piece(King, Black),
      Square(0, 4) := Piece(Queen, Black), Square(0, 5) := Piece(Bishop, Black),
      Square(0, 6) := Piece(Knight, Black), Square(0, 7) := Piece(Rook, Black),
      Square(1, 0) := Piece(Pawn, Black), Square(1, 1) := Piece(Pawn, Black),
      Square(1, 2) := Piece(Pawn, Black), Square(1, 3) := Piece(Pawn, Black),
      Square(1, 4) := Piece(Pawn, Black), Square(1, 5) := Piece(Pawn, Black),
      Square(1, 6) := Piece(Pawn, Black), Square(1, 7) := Piece(Pawn, Black),
      Square(4, 0) := Piece(Pawn, White), Square(6, 1) := Piece(Pawn, White),
      Square(6, 2) := Piece(Pawn, White), Square(6, 3) := Piece(Pawn, White),
      Square(6, 4) := Piece(Pawn, White), Square(6, 5) := Piece(Pawn, White),
      Square(6, 6) := Piece(Pawn, White), Square(6, 7) := Piece(Pawn, White),
      Square(7, 0) := Piece(Rook, White), Square(7, 1) := Piece(Knight, White),
      Square(7, 2) := Piece(Bishop, White), Square(7, 3) := Piece(King, White),
      Square(7, 4) := Piece(Queen, White), Square(7, 5) := Piece(Bishop, White),
      Square(7, 6) := Piece(Knight, White), Square(7, 7) := Piece(Rook, White)
    ], White, Square(7, 3));
    OpeningMove6040WhiteStep0();
    OpeningMove6040WhiteStep1();
    OpeningMove6040WhiteStep2();
    OpeningMove6040WhiteStep3();
    OpeningMove6040WhiteStep4();
    OpeningMove6040WhiteStep5();
    OpeningMove6040WhiteStep6();
    OpeningMove6040WhiteStep7();
    KingStepParts(map[
      Square(0, 0) := Piece(Rook, Black), Square(0, 1) := Piece(Knight, Black),
      Square(0, 2) := Piece(Bishop, Black), Square(0, 3) := Piece(King, Black),
      Square(0, 4) := Piece(Queen, Black), Square(0, 5) := Piece(Bishop, Black),
      Square(0, 6) := Piece(Knight, Black), Square(0, 7) := Piece(Rook, Black),
      Square(1, 0) := Piece(Pawn, Black), Square(1, 1) := Piece(Pawn, Black),
      Square(1, 2) := Piece(Pawn, Black), Square(1, 3) := Piece(Pawn, Black),
      Square(1, 4) := Piece(Pawn, Black), Square(1, 5) := Piece(Pawn, Black),
      Square(1, 6) := Piece(Pawn, Black), Square(1, 7) := Piece(Pawn, Black),
      Square(4, 0) := Piece(Pawn, White), Square(6, 1) := Piece(Pawn, White),
      Square(6, 2) := Piece(Pawn, White), Square(6, 3) := Piece(Pawn, White),
      Square(6, 4) := Piece(Pawn, White), Square(6, 5) := Piece(Pawn, White),
      Square(6, 6) := Piece(Pawn, White), Square(6, 7) := Piece(Pawn, White),
      Square(7, 0) := Piece(Rook, White), Square(7, 1) := Piece(Knight, White),
      Square(7, 2) := Piece(Bishop, White), Square(7, 3) := Piece(King, White),
      Square(7, 4) := Piece(Queen, White), Square(7, 5) := Piece(Bishop, White),
      Square(7, 6) := Piece(Knight, White), Square(7, 7) := Piece(Rook, White)
    ], White, Square(7, 3));
    OpeningMove6040WhitePawn();
    DangerParts(map[
      Square(0, 0) := Piece(Rook, Black), Square(0, 1) := Piece(Knight, Black),
      Square(0, 2) := Piece(Bishop, Black), Square(0, 3) := Piece(King, Black),
      Square(0, 4) := Piece(Queen, Black), Square(0, 5) := Piece(Bishop, Black),
      Square(0, 6) := Piece(Knight, Black), Square(0, 7) := Piece(Rook, Black),
      Square(1, 0) := Piece(Pawn, Black), Square(1, 1) := Piece(Pawn, Black),
      Square(1, 2) := Piece(Pawn, Black), Square(1, 3) := Piece(Pawn, Black),
      Square(1, 4) := Piece(Pawn, Black), Square(1, 5) := Piece(Pawn, Black),
      Square(1, 6) := Piece(Pawn, Black), Square(1, 7) := Piece(Pawn, Black),
      Square(4, 0) := Piece(Pawn, White), Square(6, 1) := Piece(Pawn, White),
      Square(6, 2) := Piece(Pawn, White), Square(6, 3) := Piece(Pawn, White),
      Square(6, 4) := Piece(Pawn, White), Square(6, 5) := Piece(Pawn, White),
      Square(6, 6) := Piece(Pawn, White), Square(6, 7) := Piece(Pawn, White),
      Square(7, 0) := Piece(Rook, White), Square(7, 1) := Piece(Knight, White),
      Square(7, 2) := Piece(Bishop, White), Square(7, 3) := Piece(King, White),
      Square(7, 4) := Piece(Queen, White), Square(7, 5) := Piece(Bishop, White),
      Square(7, 6) := Piece(Knight, White), Square(7, 7) := Piece(Rook, White)
    ], White, Square(7, 3));
  }

  lemma OpeningMove6040KeepsWhite()
    ensures !Exposes(Opening, White, Square(6, 0), Square(4, 0))
  {
    OpeningReady();
    OpeningMove6040();
    OpeningAt60();
    OpeningMove6040WhiteSafe();
    ExposesGuarded(Opening, White, Square(6, 0), Square(4, 0), map[
      Square(0, 0) := Piece(Rook, Black), Square(0, 1) := Piece(Knight, Black),
      Square(0, 2) := Piece(Bishop, Black), Square(0, 3) := Piece(King, Black),
      Square(0, 4) := Piece(Queen, Black), Square(0, 5) := Piece(Bishop, Black),
      Square(0, 6) := Piece(Knight, Black), Square(0, 7) := Piece(Rook, Black),
      Square(1, 0) := Piece(Pawn, Black), Square(1, 1) := Piece(Pawn, Black),
      Square(1, 2) := Piece(Pawn, Black), Square(1, 3) := Piece(Pawn, Black),
      Square(1, 4) := Piece(Pawn, Black), Square(1, 5) := Piece(Pawn, Black),
      Square(1, 6) := Piece(Pawn, Black), Square(1, 7) := Piece(Pawn, Black),
      Square(4, 0) := Piece(Pawn, White), Square(6, 1) := Piece(Pawn, White),
      Square(6, 2) := Piece(Pawn, White), Square(6, 3) := Piece(Pawn, White),
      Square(6, 4) := Piece(Pawn, White), Square(6, 5) := Piece(Pawn, White),
      Square(6, 6) := Piece(Pawn, White), Square(6, 7) := Piece(Pawn, White),
      Square(7, 0) := Piece(Rook, White), Square(7, 1) := Piece(Knight, White),
      Square(7, 2) := Piece(Bishop, White), Square(7, 3) := Piece(King, White),
      Square(7, 4) := Piece(Queen, White), Square(7, 5) := Piece(Bishop, White),
      Square(7, 6) := Piece(Knight, White), Square(7, 7) := Piece(Rook, White)
    ]);
  }

  lemma OpeningMove6050()
    ensures Relocate(Opening.board, Square(6, 0), Square(5, 0)) == map[
      Square(0, 0) := Piece(Rook, Black), Square(0, 1) := Piece(Knight, Black),
      Square(0, 2) := Piece(Bishop, Black), Square(0, 3) := Piece(King, Black),
      Square(0, 4) := Piece(Queen, Black), Square(0, 5) := Piece(Bishop, Black),
      Square(0, 6) := Piece(Knight, Black), Square(0, 7) := Piece(Rook, Black),
      Square(1, 0) := Piece(Pawn, Black), Square(1, 1) := Piece(Pawn, Black),
      Square(1, 2) := Piece(Pawn, Black), Square(1, 3) := Piece(Pawn, Black),
      Square(1, 4) := Piece(Pawn, Black), Square(1, 5) := Piece(Pawn, Black),
      Square(1, 6) := Piece(Pawn, Black), Square(1, 7) := Piece(Pawn, Black),
      Square(5, 0) := Piece(Pawn, White), Square(6, 1) := Piece(Pawn, White),
      Square(6, 2) := Piece(Pawn, White), Square(6, 3) := Piece(Pawn, White),
      Square(6, 4) := Piece(Pawn, White), Square(6, 5) := Piece(Pawn, White),
      Square(6, 6) := Piece(Pawn, White), Square(6, 7) := Piece(Pawn, White),
      Square(7, 0) := Piece(Rook, White), Square(7, 1) := Piece(Knight, White),
      Square(7, 2) := Piece(Bishop, White), Square(7, 3) := Piece(King, White),
      Square(7, 4) := Piece(Queen, White), Square(7, 5) := Piece(Bishop, White),
      Square(7, 6) := Piece(Knight, White), Square(7, 7) := Piece(Rook, White)
    ]
  {
  }

  lemma OpeningMove6050WhiteLine0()
    ensures First(map[
      Square(0, 0) := Piece(Rook, Black), Square(0, 1) := Piece(Knight, Black),
      Square(0, 2) := Piece(Bishop, Black), Square(0, 3) := Piece(King, Black),
      Square(0, 4) := Piece(Queen, Black), Square(0, 5) := Piece(Bishop, Black),
      Square(0, 6) := Piece(Knight, Black), Square(0, 7) := Piece(Rook, Black),
      Square(1, 0) := Piece(Pawn, Black), Square(1, 1) := Piece(Pawn, Black),
      Square(1, 2) := Piece(Pawn, Black), Square(1, 3) := Piece(Pawn, Black),
      Square(1, 4) := Piece(Pawn, Black), Square(1, 5) := Piece(Pawn, Black),
      Square(1, 6) := Piece(Pawn, Black), Square(1, 7) := Piece(Pawn, Black),
      Square(5, 0) := Piece(Pawn, White), Square(6, 1) := Piece(Pawn, White),
      Square(6, 2) := Piece(Pawn, White), Square(6, 3) := Piece(Pawn, White),
      Square(6, 4) := Piece(Pawn, White), Square(6, 5) := Piece(Pawn, White),
      Square(6, 6) := Piece(Pawn, White), Square(6, 7) := Piece(Pawn, White),
      Square(7, 0) := Piece(Rook, White), Square(7, 1) := Piece(Knight, White),
      Square(7, 2) := Piece(Bishop, White), Square(7, 3) := Piece(King, White),
      Square(7, 4) := Piece(Queen, White), Square(7, 5) := Piece(Bishop, White),
      Square(7, 6) := Piece(Knight, White), Square(7, 7) := Piece(Rook, White)
    ], Square(7, 3), Offset(-1, 0)) == Some(Piece(Pawn, White))
  {
  }

  lemma OpeningMove6050WhiteLine1()
    ensures First(map[
      Square(0, 0) := Piece(Rook, Black), Square(0, 1) := Piece(Knight, Black),
      Square(0, 2) := Piece(Bishop, Black), Square(0, 3) := Piece(King, Black),
      Square(0, 4) := Piece(Queen, Black), Square(0, 5) := Piece(Bishop, Black),
      Square(0, 6) := Piece(Knight, Black), Square(0, 7) := Piece(Rook, Black),
      Square(1, 0) := Piece(Pawn, Black), Square(1, 1) := Piece(Pawn, Black),
      Square(1, 2) := Piece(Pawn, Black), Square(1, 3) := Piece(Pawn, Black),
      Square(1, 4) := Piece(Pawn, Black), Square(1, 5) := Piece(Pawn, Black),
      Square(1, 6) := Piece(Pawn, Black), Square(1, 7) := Piece(Pawn, Black),
      Square(5, 0) := Piece(Pawn, White), Square(6, 1) := Piece(Pawn, White),
      Square(6, 2) := Piece(Pawn, White), Square(6, 3) := Piece(Pawn, White),
      Square(6, 4) := Piece(Pawn, White), Square(6, 5) := Piece(Pawn, White),
      Square(6, 6) := Piece(Pawn, White), Square(6, 7) := Piece(Pawn, White),
      Square(7, 0) := Piece(Rook, White), Square(7, 1) := Piece(Knight, White),
      Square(7, 2) := Piece(Bishop, White), Square(7, 3) := Piece(King, White),
      Square(7, 4) := Piece(Queen, White), Square(7, 5) := Piece(Bishop, White),
      Square(7, 6) := Piece(Knight, White), Square(7, 7) := Piece(Rook, White)
    ], Square(7, 3), Offset(1, 0)) == None
  {
  }

  lemma OpeningMove6050WhiteLine2()
    ensures First(map[
      Square(0, 0) := Piece(Rook, Black), Square(0, 1) := Piece(Knight, Black),
      Square(0, 2) := Piece(Bishop, Black), Square(0, 3) := Piece(King, Black),
      Square(0, 4) := Piece(Queen, Black), Square(0, 5) := Piece(Bishop, Black),
      Square(0, 6) := Piece(Knight, Black), Square(0, 7) := Piece(Rook, Black),
      Square(1, 0) := Piece(Pawn, Black), Square(1, 1) := Piece(Pawn, Black),
      Square(1, 2) := Piece(Pawn, Black), Square(1, 3) := Piece(Pawn, Black),
      Square(1, 4) := Piece(Pawn, Black), Square(1, 5) := Piece(Pawn, Black),
      Square(1, 6) := Piece(Pawn, Black), Square(1, 7) := Piece(Pawn, Black),
      Square(5, 0) := Piece(Pawn, White), Square(6, 1) := Piece(Pawn, White),
      Square(6, 2) := Piece(Pawn, White), Square(6, 3) := Piece(Pawn, White),
      Square(6, 4) := Piece(Pawn, White), Square(6, 5) := Piece(Pawn, White),
      Square(6, 6) := Piece(Pawn, White), Square(6, 7) := Piece(Pawn, White),
      Square(7, 0) := Piece(Rook, White), Square(7, 1) := Piece(Knight, White),
      Square(7, 2) := Piece(Bishop, White), Square(7, 3) := Piece(King, White),
      Square(7, 4) := Piece(Queen, White), Square(7, 5) := Piece(Bishop, White),
      Square(7, 6) := Piece(Knight, White), Square(7, 7) := Piece(Rook, White)
    ], Square(7, 3), Offset(0, -1)) == Some(Piece(Bishop, White))
  {
  }

  lemma OpeningMove6050WhiteLine3()
    ensures First(map[
      Square(0, 0) := Piece(Rook, Black), Square(0, 1) := Piece(Knight, Black),
      Square(0, 2) := Piece(Bishop, Black), Square(0, 3) := Piece(King, Black),
      Square(0, 4) := Piece(Queen, Black), Square(0, 5) := Piece(Bishop, Black),
      Square(0, 6) := Piece(Knight, Black), Square(0, 7) := Piece(Rook, Black),
      Square(1, 0) := Piece(Pawn, Black), Square(1, 1) := Piece(Pawn, Black),
      Square(1, 2) := Piece(Pawn, Black), Square(1, 3) := Piece(Pawn, Black),
      Square(1, 4) := Piece(Pawn, Black), Square(1, 5) := Piece(Pawn, Black),
      Square(1, 6) := Piece(Pawn, Black), Square(1, 7) := Piece(Pawn, Black),
      Square(5, 0) := Piece(Pawn, White), Square(6, 1) := Piece(Pawn, White),
      Square(6, 2) := Piece(Pawn, White), Square(6, 3) := Piece(Pawn, White),
      Square(6, 4) := Piece(Pawn, White), Square(6, 5) := Piece(Pawn, White),
      Square(6, 6) := Piece(Pawn, White), Square(6, 7) := Piece(Pawn, White),
      Square(7, 0) := Piece(Rook, White), Square(7, 1) := Piece(Knight, White),
      Square(7, 2) := Piece(Bishop, White), Square(7, 3) := Piece(King, White),
      Square(7, 4) := Piece(Queen, White), Square(7, 5) := Piece(Bishop, White),
      Square(7, 6) := Piece(Knight, White), Square(7, 7) := Piece(Rook, White)
    ], Square(7, 3), Offset(0, 1)) == Some(Piece(Queen, White))
  {
  }

  lemma OpeningMove6050WhiteDiagonal0()
    ensures First(map[
      Square(0, 0) := Piece(Rook, Black), Square(0, 1) := Piece(Knight, Black),
      Square(0, 2) := Piece(Bishop, Black), Square(0, 3) := Piece(King, Black),
      Square(0, 4) := Piece(Queen, Black), Square(0, 5) := Piece(Bishop, Black),
      Square(0, 6) := Piece(Knight, Black), Square(0, 7) := Piece(Rook, Black),
      Square(1, 0) := Piece(Pawn, Black), Square(1, 1) := Piece(Pawn, Black),
      Square(1, 2) := Piece(Pawn, Black), Square(1, 3) := Piece(Pawn, Black),
      Square(1, 4) := Piece(Pawn, Black), Square(1, 5) := Piece(Pawn, Black),
      Square(1, 6) := Piece(Pawn, Black), Square(1, 7) := Piece(Pawn, Black),
      Square(5, 0) := Piece(Pawn, White), Square(6, 1) := Piece(Pawn, White),
      Square(6, 2) := Piece(Pawn, White), Square(6, 3) := Piece(Pawn, White),
      Square(6, 4) := Piece(Pawn, White), Square(6, 5) := Piece(Pawn, White),
      Square(6, 6) := Piece(Pawn, White), Square(6, 7) := Piece(Pawn, White),
      Square(7, 0) := Piece(Rook, White), Square(7, 1) := Piece(Knight, White),
      Square(7, 2) := Piece(Bishop, White), Square(7, 3) := Piece(King, White),
      Square(7, 4) := Piece(Queen, White), Square(7, 5) := Piece(Bishop, White),
      Square(7, 6) := Piece(Knight, White), Square(7, 7) := Piece(Rook, White)
    ], Square(7, 3), Offset(-1, 1)) == Some(Piece(Pawn, White))
  {
  }

  lemma OpeningMove6050WhiteDiagonal1()
    ensures First(map[
      Square(0, 0) := Piece(Rook, Black), Square(0, 1) := Piece(Knight, Black),
      Square(0, 2) := Piece(Bishop, Black), Square(0, 3) := Piece(King, Black),
      Square(0, 4) := Piece(Queen, Black), Square(0, 5) := Piece(Bishop, Black),
      Square(0, 6) := Piece(Knight, Black), Square(0, 7) := Piece(Rook, Black),
      Square(1, 0) := Piece(Pawn, Black), Square(1, 1) := Piece(Pawn, Black),
      Square(1, 2) := Piece(Pawn, Black), Square(1, 3) := Piece(Pawn, Black),
      Square(1, 4) := Piece(Pawn, Black), Square(1, 5) := Piece(Pawn, Black),
      Square(1, 6) := Piece(Pawn, Black), Square(1, 7) := Piece(Pawn, Black),
      Square(5, 0) := Piece(Pawn, White), Square(6, 1) := Piece(Pawn, White),
      Square(6, 2) := Piece(Pawn, White), Square(6, 3) := Piece(Pawn, White),
      Square(6, 4) := Piece(Pawn, White), Square(6, 5) := Piece(Pawn, White),
      Square(6, 6) := Piece(Pawn, White), Square(6, 7) := Piece(Pawn, White),
      Square(7, 0) := Piece(Rook, White), Square(7, 1) := Piece(Knight, White),
      Square(7, 2) := Piece(Bishop, White), Square(7, 3) := Piece(King, White),
      Square(7, 4) := Piece(Queen, White), Square(7, 5) := Piece(Bishop, White),
      Square(7, 6) := Piece(Knight, White), Square(7, 7) := Piece(Rook, White)
    ], Square(7, 3), Offset(-1, -1)) == Some(Piece(Pawn, White))
  {
  }

  lemma OpeningMove6050WhiteDiagonal2()
    ensures First(map[
      Square(0, 0) := Piece(Rook, Black), Square(0, 1) := Piece(Knight, Black),
      Square(0, 2) := Piece(Bishop, Black), Square(0, 3) := Piece(King, Black),
      Square(0, 4) := Piece(Queen, Black), Square(0, 5) := Piece(Bishop, Black),
      Square(0, 6) := Piece(Knight, Black), Square(0, 7) := Piece(Rook, Black),
      Square(1, 0) := Piece(Pawn, Black), Square(1, 1) := Piece(Pawn, Black),
      Square(1, 2) := Piece(Pawn, Black), Square(1, 3) := Piece(Pawn, Black),
      Square(1, 4) := Piece(Pawn, Black), Square(1, 5) := Piece(Pawn, Black),
      Square(1, 6) := Piece(Pawn, Black), Square(1, 7) := Piece(Pawn, Black),
      Square(5, 0) := Piece(Pawn, White), Square(6, 1) := Piece(Pawn, White),
      Square(6, 2) := Piece(Pawn, White), Square(6, 3) := Piece(Pawn, White),
      Square(6, 4) := Piece(Pawn, White), Square(6, 5) := Piece(Pawn, White),
      Square(6, 6) := Piece(Pawn, White), Square(6, 7) := Piece(Pawn, White),
      Square(7, 0) := Piece(Rook, White), Square(7, 1) := Piece(Knight, White),
      Square(7, 2) := Piece(Bishop, White), Square(7, 3) := Piece(King, White),
      Square(7, 4) := Piece(Queen, White), Square(7, 5) := Piece(Bishop, White),
      Square(7, 6) := Piece(Knight, White), Square(7, 7) := Piece(Rook, White)
    ], Square(7, 3), Offset(1, -1)) == None
  {
  }

  lemma OpeningMove6050WhiteDiagonal3()
    ensures First(map[
      Square(0, 0) := Piece(Rook, Black), Square(0, 1) := Piece(Knight, Black),
      Square(0, 2) := Piece(Bishop, Black), Square(0, 3) := Piece(King, Black),
      Square(0, 4) := Piece(Queen, Black), Square(0, 5) := Piece(Bishop, Black),
      Square(0, 6) := Piece(Knight, Black), Square(0, 7) := Piece(Rook, Black),
      Square(1, 0) := Piece(Pawn, Black), Square(1, 1) := Piece(Pawn, Black),
      Square(1, 2) := Piece(Pawn, Black), Square(1, 3) := Piece(Pawn, Black),
      Square(1, 4) := Piece(Pawn, Black), Square(1, 5) := Piece(Pawn, Black),
      Square(1, 6) := Piece(Pawn, Black), Square(1, 7) := Piece(Pawn, Black),
      Square(5, 0) := Piece(Pawn, White), Square(6, 1) := Piece(Pawn, White),
      Square(6, 2) := Piece(Pawn, White), Square(6, 3) := Piece(Pawn, White),
      Square(6, 4) := Piece(Pawn, White), Square(6, 5) := Piece(Pawn, White),
      Square(6, 6) := Piece(Pawn, White), Square(6, 7) := Piece(Pawn, White),
      Square(7, 0) := Piece(Rook, White), Square(7, 1) := Piece(Knight, White),
      Square(7, 2) := Piece(Bishop, White), Square(7, 3) := Piece(King, White),
      Square(7, 4) := Piece(Queen, White), Square(7, 5) := Piece(Bishop, White),
      Square(7, 6) := Piece(Knight, White), Square(7, 7) := Piece(Rook, White)
    ], Square(7, 3), Offset(1, 1)) == None
  {
  }

  lemma OpeningMove6050WhiteKnight0()
    ensures !LeapHit(map[
      Square(0, 0) := Piece(Rook, Black), Square(0, 1) := Piece(Knight, Black),
      Square(0, 2) := Piece(Bishop, Black), Square(0, 3) := Piece(King, Black),
      Square(0, 4) := Piece(Queen, Black), Square(0, 5) := Piece(Bishop, Black),
      Square(0, 6) := Piece(Knight, Black), Square(0, 7) := Piece(Rook, Black),
      Square(1, 0) := Piece(Pawn, Black), Square(1, 1) := Piece(Pawn, Black),
      Square(1, 2) := Piece(Pawn, Black), Square(1, 3) := Piece(Pawn, Black),
      Square(1, 4) := Piece(Pawn, Black), Square(1, 5) := Piece(Pawn, Black),
      Square(1, 6) := Piece(Pawn, Black), Square(1, 7) := Piece(Pawn, Black),
      Square(5, 0) := Piece(Pawn, White), Square(6, 1) := Piece(Pawn, White),
      Square(6, 2) := Piece(Pawn, White), Square(6, 3) := Piece(Pawn, White),
      Square(6, 4) := Piece(Pawn, White), Square(6, 5) := Piece(Pawn, White),
      Square(6, 6) := Piece(Pawn, White), Square(6, 7) := Piece(Pawn, White),
      Square(7, 0) := Piece(Rook, White), Square(7, 1) := Piece(Knight, White),
      Square(7, 2) := Piece(Bishop, White), Square(7, 3) := Piece(King, White),
      Square(7, 4) := Piece(Queen, White), Square(7, 5) := Piece(Bishop, White),
      Square(7, 6) := Piece(Knight, White), Square(7, 7) := Piece(Rook, White)
    ], White, Square(7, 3), Offset(1, -2), Knight)
  {
  }

  lemma OpeningMove6050WhiteKnight1()
    ensures !LeapHit(map[
      Square(0, 0) := Piece(Rook, Black), Square(0, 1) := Piece(Knight, Black),
      Square(0, 2) := Piece(Bishop, Black), Square(0, 3) := Piece(King, Black),
      Square(0, 4) := Piece(Queen, Black), Square(0, 5) := Piece(Bishop, Black),
      Square(0, 6) := Piece(Knight, Black), Square(0, 7) := Piece(Rook, Black),
      Square(1, 0) := Piece(Pawn, Black), Square(1, 1) := Piece(Pawn, Black),
      Square(1, 2) := Piece(Pawn, Black), Square(1, 3) := Piece(Pawn, Black),
      Square(1, 4) := Piece(Pawn, Black), Square(1, 5) := Piece(Pawn, Black),
      Square(1, 6) := Piece(Pawn, Black), Square(1, 7) := Piece(Pawn, Black),
      Square(5, 0) := Piece(Pawn, White), Square(6, 1) := Piece(Pawn, White),
      Square(6, 2) := Piece(Pawn, White), Square(6, 3) := Piece(Pawn, White),
      Square(6, 4) := Piece(Pawn, White), Square(6, 5) := Piece(Pawn, White),
      Square(6, 6) := Piece(Pawn, White), Square(6, 7) := Piece(Pawn, White),
      Square(7, 0) := Piece(Rook, White), Square(7, 1) := Piece(Knight, White),
      Square(7, 2) := Piece(Bishop, White), Square(7, 3) := Piece(King, White),
      Square(7, 4) := Piece(Queen, White), Square(7, 5) := Piece(Bishop, White),
      Square(7, 6) := Piece(Knight, White), Square(7, 7) := Piece(Rook, White)
    ], White, Square(7, 3), Offset(1, 2), Knight)
  {
  }

  lemma OpeningMove6050WhiteKnight2()
    ensures !LeapHit(map[
      Square(0, 0) := Piece(Rook, Black), Square(0, 1) := Piece(Knight, Black),
      Square(0, 2) := Piece(Bishop, Black), Square(0, 3) := Piece(King, Black),
      Square(0, 4) := Piece(Queen, Black), Square(0, 5) := Piece(Bishop, Black),
      Square(0, 6) := Piece(Knight, Black), Square(0, 7) := Piece(Rook, Black),
      Square(1, 0) := Piece(Pawn, Black), Square(1, 1) := Piece(Pawn, Black),
      Square(1, 2) := Piece(Pawn, Black), Square(1, 3) := Piece(Pawn, Black),
      Square(1, 4) := Piece(Pawn, Black), Square(1, 5) := Piece(Pawn, Black),
      Square(1, 6) := Piece(Pawn, Black), Square(1, 7) := Piece(Pawn, Black),
      Square(5, 0) := Piece(Pawn, White), Square(6, 1) := Piece(Pawn, White),
      Square(6, 2) := Piece(Pawn, White), Square(6, 3) := Piece(Pawn, White),
      Square(6, 4) := Piece(Pawn, White), Square(6, 5) := Piece(Pawn, White),
      Square(6, 6) := Piece(Pawn, White), Square(6, 7) := Piece(Pawn, White),
      Square(7, 0) := Piece(Rook, White), Square(7, 1) := Piece(Knight, White),
      Square(7, 2) := Piece(Bishop, White), Square(7, 3) := Piece(King, White),
      Square(7, 4) := Piece(Queen, White), Square(7, 5) := Piece(Bishop, White),
      Square(7, 6) := Piece(Knight, White), Square(7, 7) := Piece(Rook, White)
    ], White, Square(7, 3), Offset(2, -1), Knight)
  {
  }

  lemma OpeningMove6050WhiteKnight3()
    ensures !LeapHit(map[
      Square(0, 0) := Piece(Rook, Black), Square(0, 1) := Piece(Knight, Black),
      Square(0, 2) := Piece(Bishop, Black), Square(0, 3) := Piece(King, Black),
      Square(0, 4) := Piece(Queen, Black), Square(0, 5) := Piece(Bishop, Black),
      Square(0, 6) := Piece(Knight, Black), Square(0, 7) := Piece(Rook, Black),
      Square(1, 0) := Piece(Pawn, Black), Square(1, 1) := Piece(Pawn, Black),
      Square(1, 2) := Piece(Pawn, Black), Square(1, 3) := Piece(Pawn, Black),
      Square(1, 4) := Piece(Pawn, Black), Square(1, 5) := Piece(Pawn, Black),
      Square(1, 6) := Piece(Pawn, Black), Square(1, 7) := Piece(Pawn, Black),
      Square(5, 0) := Piece(Pawn, White), Square(6, 1) := Piece(Pawn, White),
      Square(6, 2) := Piece(Pawn, White), Square(6, 3) := Piece(Pawn, White),
      Square(6, 4) := Piece(Pawn, White), Square(6, 5) := Piece(Pawn, White),
      Square(6, 6) := Piece(Pawn, White), Square(6, 7) := Piece(Pawn, White),
      Square(7, 0) := Piece(Rook, White), Square(7, 1) := Piece(Knight, White),
      Square(7, 2) := Piece(Bishop, White), Square(7, 3) := Piece(King, White),
      Square(7, 4) := Piece(Queen, White), Square(7, 5) := Piece(Bishop, White),
      Square(7, 6) := Piece(Knight, White), Square(7, 7) := Piece(Rook, White)
    ], White, Square(7, 3), Offset(2, 1), Knight)
  {
  }

  lemma OpeningMove6050WhiteKnight4()
    ensures !LeapHit(map[
      Square(0, 0) := Piece(Rook, Black), Square(0, 1) := Piece(Knight, Black),
      Square(0, 2) := Piece(Bishop, Black), Square(0, 3) := Piece(King, Black),
      Square(0, 4) := Piece(Queen, Black), Square(0, 5) := Piece(Bishop, Black),
      Square(0, 6) := Piece(Knight, Black), Square(0, 7) := Piece(Rook, Black),
      Square(1, 0) := Piece(Pawn, Black), Square(1, 1) := Piece(Pawn, Black),
      Square(1, 2) := Piece(Pawn, Black), Square(1, 3) := Piece(Pawn, Black),
      Square(1, 4) := Piece(Pawn, Black), Square(1, 5) := Piece(Pawn, Black),
      Square(1, 6) := Piece(Pawn, Black), Square(1, 7) := Piece(Pawn, Black),
      Square(5, 0) := Piece(Pawn, White), Square(6, 1) := Piece(Pawn, White),
      Square(6, 2) := Piece(Pawn, White), Square(6, 3) := Piece(Pawn, White),
      Square(6, 4) := Piece(Pawn, White), Square(6, 5) := Piece(Pawn, White),
      Square(6, 6) := Piece(Pawn, White), Square(6, 7) := Piece(Pawn, White),
      Square(7, 0) := Piece(Rook, White), Square(7, 1) := Piece(Knight, White),
      Square(7, 2) := Piece(Bishop, White), Square(7, 3) := Piece(King, White),
      Square(7, 4) := Piece(Queen, White), Square(7, 5) := Piece(Bishop, White),
      Square(7, 6) := Piece(Knight, White), Square(7, 7) := Piece(Rook, White)
    ], White, Square(7, 3), Offset(-1, -2), Knight)
  {
  }

  lemma OpeningMove6050WhiteKnight5()
    ensures !LeapHit(map[
      Square(0, 0) := Piece(Rook, Black), Square(0, 1) := Piece(Knight, Black),
      Square(0, 2) := Piece(Bishop, Black), Square(0, 3) := Piece(King, Black),
      Square(0, 4) := Piece(Queen, Black), Square(0, 5) := Piece(Bishop, Black),
      Square(0, 6) := Piece(Knight, Black), Square(0, 7) := Piece(Rook, Black),
      Square(1, 0) := Piece(Pawn, Black), Square(1, 1) := Piece(Pawn, Black),
      Square(1, 2) := Piece(Pawn, Black), Square(1, 3) := Piece(Pawn, Black),
      Square(1, 4) := Piece(Pawn, Black), Square(1, 5) := Piece(Pawn, Black),
      Square(1, 6) := Piece(Pawn, Black), Square(1, 7) := Piece(Pawn, Black),
      Square(5, 0) := Piece(Pawn, White), Square(6, 1) := Piece(Pawn, White),
      Square(6, 2) := Piece(Pawn, White), Square(6, 3) := Piece(Pawn, White),
      Square(6, 4) := Piece(Pawn, White), Square(6, 5) := Piece(Pawn, White),
      Square(6, 6) := Piece(Pawn, White), Square(6, 7) := Piece(Pawn, White),
      Square(7, 0) := Piece(Rook, White), Square(7, 1) := Piece(Knight, White),
      Square(7, 2) := Piece(Bishop, White), Square(7, 3) := Piece(King, White),
      Square(7, 4) := Piece(Queen, White), Square(7, 5) := Piece(Bishop, White),
      Square(7, 6) := Piece(Knight, White), Square(7, 7) := Piece(Rook, White)
    ], White, Square(7, 3), Offset(-1, 2), Knight)
  {
  }

  lemma OpeningMove6050WhiteKnight6()
    ensures !LeapHit(map[
      Square(0, 0) := Piece(Rook, Black), Square(0, 1) := Piece(Knight, Black),
      Square(0, 2) := Piece(Bishop, Black), Square(0, 3) := Piece(King, Black),
      Square(0, 4) := Piece(Queen, Black), Square(0, 5) := Piece(Bishop, Black),
      Square(0, 6) := Piece(Knight, Black), Square(0, 7) := Piece(Rook, Black),
      Square(1, 0) := Piece(Pawn, Black), Square(1, 1) := Piece(Pawn, Black),
      Square(1, 2) := Piece(Pawn, Black), Square(1, 3) := Piece(Pawn, Black),
      Square(1, 4) := Piece(Pawn, Black), Square(1, 5) := Piece(Pawn, Black),
      Square(1, 6) := Piece(Pawn, Black), Square(1, 7) := Piece(Pawn, Black),
      Square(5, 0) := Piece(Pawn, White), Square(6, 1) := Piece(Pawn, White),
      Square(6, 2) := Piece(Pawn, White), Square(6, 3) := Piece(Pawn, White),
      Square(6, 4) := Piece(Pawn, White), Square(6, 5) := Piece(Pawn, White),
      Square(6, 6) := Piece(Pawn, White), Square(6, 7) := Piece(Pawn, White),
      Square(7, 0) := Piece(Rook, White), Square(7, 1) := Piece(Knight, White),
      Square(7, 2) := Piece(Bishop, White), Square(7, 3) := Piece(King, White),
      Square(7, 4) := Piece(Queen, White), Square(7, 5) := Piece(Bishop, White),
      Square(7, 6) := Piece(Knight, White), Square(7, 7) := Piece(Rook, White)
    ], White, Square(7, 3), Offset(-2, -1), Knight)
  {
  }

  lemma OpeningMove6050WhiteKnight7()
    ensures !LeapHit(map[
      Square(0, 0) := Piece(Rook, Black), Square(0, 1) := Piece(Knight, Black),
      Square(0, 2) := Piece(Bishop, Black), Square(0, 3) := Piece(King, Black),
      Square(0, 4) := Piece(Queen, Black), Square(0, 5) := Piece(Bishop, Black),
      Square(0, 6) := Piece(Knight, Black), Square(0, 7) := Piece(Rook, Black),
      Square(1, 0) := Piece(Pawn, Black), Square(1, 1) := Piece(Pawn, Black),
      Square(1, 2) := Piece(Pawn, Black), Square(1, 3) := Piece(Pawn, Black),
      Square(1, 4) := Piece(Pawn, Black), Square(1, 5) := Piece(Pawn, Black),
      Square(1, 6) := Piece(Pawn, Black), Square(1, 7) := Piece(Pawn, Black),
      Square(5, 0) := Piece(Pawn, White), Square(6, 1) := Piece(Pawn, White),
      Square(6, 2) := Piece(Pawn, White), Square(6, 3) := Piece(Pawn, White),
      Square(6, 4) := Piece(Pawn, White), Square(6, 5) := Piece(Pawn, White),
      Square(6, 6) := Piece(Pawn, White), Square(6, 7) := Piece(Pawn, White),
      Square(7, 0) := Piece(Rook, White), Square(7, 1) := Piece(Knight, White),
      Square(7, 2) := Piece(Bishop, White), Square(7, 3) := Piece(King, White),
      Square(7, 4) := Piece(Queen, White), Square(7, 5) := Piece(Bishop, White),
      Square(7, 6) := Piece(Knight, White), Square(7, 7) := Piece(Rook, White)
    ], White, Square(7, 3), Offset(-2, 1), Knight)
  {
  }

  lemma OpeningMove6050WhiteStep0()
    ensures !LeapHit(map[
      Square(0, 0) := Piece(Rook, Black), Square(0, 1) := Piece(Knight, Black),
      Square(0, 2) := Piece(Bishop, Black), Square(0, 3) := Piece(King, Black),
      Square(0, 4) := Piece(Queen, Black), Square(0, 5) := Piece(Bishop, Black),
      Square(0, 6) := Piece(Knight, Black), Square(0, 7) := Piece(Rook, Black),
      Square(1, 0) := Piece(Pawn, Black), Square(1, 1) := Piece(Pawn, Black),
      Square(1, 2) := Piece(Pawn, Black), Square(1, 3) := Piece(Pawn, Black),
      Square(1, 4) := Piece(Pawn, Black), Square(1, 5) := Piece(Pawn, Black),
      Square(1, 6) := Piece(Pawn, Black), Square(1, 7) := Piece(Pawn, Black),
      Square(5, 0) := Piece(Pawn, White), Square(6, 1) := Piece(Pawn, White),
      Square(6, 2) := Piece(Pawn, White), Square(6, 3) := Piece(Pawn, White),
      Square(6, 4) := Piece(Pawn, White), Square(6, 5) := Piece(Pawn, White),
      Square(6, 6) := Piece(Pawn, White), Square(6, 7) := Piece(Pawn, White),
      Square(7, 0) := Piece(Rook, White), Square(7, 1) := Piece(Knight, White),
      Square(7, 2) := Piece(Bishop, White), Square(7, 3) := Piece(King, White),
      Square(7, 4) := Piece(Queen, White), Square(7, 5) := Piece(Bishop, White),
      Square(7, 6) := Piece(Knight, White), Square(7, 7) := Piece(Rook, White)
    ], White, Square(7, 3), Offset(0, -1), King)
  {
  }

  lemma OpeningMove6050WhiteStep1()
    ensures !LeapHit(map[
      Square(0, 0) := Piece(Rook, Black), Square(0, 1) := Piece(Knight, Black),
      Square(0, 2) := Piece(Bishop, Black), Square(0, 3) := Piece(King, Black),
      Square(0, 4) := Piece(Queen, Black), Square(0, 5) := Piece(Bishop, Black),
      Square(0, 6) := Piece(Knight, Black), Square(0, 7) := Piece(Rook, Black),
      Square(1, 0) := Piece(Pawn, Black), Square(1, 1) := Piece(Pawn, Black),
      Square(1, 2) := Piece(Pawn, Black), Square(1, 3) := Piece(Pawn, Black),
      Square(1, 4) := Piece(Pawn, Black), Square(1, 5) := Piece(Pawn, Black),
      Square(1, 6) := Piece(Pawn, Black), Square(1, 7) := Piece(Pawn, Black),
      Square(5, 0) := Piece(Pawn, White), Square(6, 1) := Piece(Pawn, White),
      Square(6, 2) := Piece(Pawn, White), Square(6, 3) := Piece(Pawn, White),
      Square(6, 4) := Piece(Pawn, White), Square(6, 5) := Piece(Pawn, White),
      Square(6, 6) := Piece(Pawn, White), Square(6, 7) := Piece(Pawn, White),
      Square(7, 0) := Piece(Rook, White), Square(7, 1) := Piece(Knight, White),
      Square(7, 2) := Piece(Bishop, White), Square(7, 3) := Piece(King, White),
      Square(7, 4) := Piece(Queen, White), Square(7, 5) := Piece(Bishop, White),
      Square(7, 6) := Piece(Knight, White), Square(7, 7) := Piece(Rook, White)
    ], White, Square(7, 3), Offset(0, 1), King)
  {
  }

  lemma OpeningMove6050WhiteStep2()
    ensures !LeapHit(map[
      Square(0, 0) := Piece(Rook, Black), Square(0, 1) := Piece(Knight, Black),
      Square(0, 2) := Piece(Bishop, Black), Square(0, 3) := Piece(King, Black),
      Square(0, 4) := Piece(Queen, Black), Square(0, 5) := Piece(Bishop, Black),
      Square(0, 6) := Piece(Knight, Black), Square(0, 7) := Piece(Rook, Black),
      Square(1, 0) := Piece(Pawn, Black), Square(1, 1) := Piece(Pawn, Black),
      Square(1, 2) := Piece(Pawn, Black), Square(1, 3) := Piece(Pawn, Black),
      Square(1, 4) := Piece(Pawn, Black), Square(1, 5) := Piece(Pawn, Black),
      Square(1, 6) := Piece(Pawn, Black), Square(1, 7) := Piece(Pawn, Black),
      Square(5, 0) := Piece(Pawn, White), Square(6, 1) := Piece(Pawn, White),
      Square(6, 2) := Piece(Pawn, White), Square(6, 3) := Piece(Pawn, White),
      Square(6, 4) := Piece(Pawn, White), Square(6, 5) := Piece(Pawn, White),
      Square(6, 6) := Piece(Pawn, White), Square(6, 7) := Piece(Pawn, White),
      Square(7, 0) := Piece(Rook, White), Square(7, 1) := Piece(Knight, White),
      Square(7, 2) := Piece(Bishop, White), Square(7, 3) := Piece(King, White),
      Square(7, 4) := Piece(Queen, White), Square(7, 5) := Piece(Bishop, White),
      Square(7, 6) := Piece(Knight, White), Square(7, 7) := Piece(Rook, White)
    ], White, Square(7, 3), Offset(1, -1), King)
  {
  }

  lemma OpeningMove6050WhiteStep3()
    ensures !LeapHit(map[
      Square(0, 0) := Piece(Rook, Black), Square(0, 1) := Piece(Knight, Black),
      Square(0, 2) := Piece(Bishop, Black), Square(0, 3) := Piece(King, Black),
      Square(0, 4) := Piece(Queen, Black), Square(0, 5) := Piece(Bishop, Black),
      Square(0, 6) := Piece(Knight, Black), Square(0, 7) := Piece(Rook, Black),
      Square(1, 0) := Piece(Pawn, Black), Square(1, 1) := Piece(Pawn, Black),
      Square(1, 2) := Piece(Pawn, Black), Square(1, 3) := Piece(Pawn, Black),
      Square(1, 4) := Piece(Pawn, Black), Square(1, 5) := Piece(Pawn, Black),
      Square(1, 6) := Piece(Pawn, Black), Square(1, 7) := Piece(Pawn, Black),
      Square(5, 0) := Piece(Pawn, White), Square(6, 1) := Piece(Pawn, White),
      Square(6, 2) := Piece(Pawn, White), Square(6, 3) := Piece(Pawn, White),
      Square(6, 4) := Piece(Pawn, White), Square(6, 5) := Piece(Pawn, White),
      Square(6, 6) := Piece(Pawn, White), Square(6, 7) := Piece(Pawn, White),
      Square(7, 0) := Piece(Rook, White), Square(7, 1) := Piece(Knight, White),
      Square(7, 2) := Piece(Bishop, White), Square(7, 3) := Piece(King, White),
      Square(7, 4) := Piece(Queen, White), Square(7, 5) := Piece(Bishop, White),
      Square(7, 6) := Piece(Knight, White), Square(7, 7) := Piece(Rook, White)
    ], White, Square(7, 3), Offset(1, 0), King)
  {
  }

  lemma OpeningMove6050WhiteStep4()
    ensures !LeapHit(map[
      Square(0, 0) := Piece(Rook, Black), Square(0, 1) := Piece(Knight, Black),
      Square(0, 2) := Piece(Bishop, Black), Square(0, 3) := Piece(King, Black),
      Square(0, 4) := Piece(Queen, Black), Square(0, 5) := Piece(Bishop, Black),
      Square(0, 6) := Piece(Knight, Black), Square(0, 7) := Piece(Rook, Black),
      Square(1, 0) := Piece(Pawn, Black), Square(1, 1) := Piece(Pawn, Black),
      Square(1, 2) := Piece(Pawn, Black), Square(1, 3) := Piece(Pawn, Black),
      Square(1, 4) := Piece(Pawn, Black), Square(1, 5) := Piece(Pawn, Black),
      Square(1, 6) := Piece(Pawn, Black), Square(1, 7) := Piece(Pawn, Black),
      Square(5, 0) := Piece(Pawn, White), Square(6, 1) := Piece(Pawn, White),
      Square(6, 2) := Piece(Pawn, White), Square(6, 3) := Piece(Pawn, White),
      Square(6, 4) := Piece(Pawn, White), Square(6, 5) := Piece(Pawn, White),
      Square(6, 6) := Piece(Pawn, White), Square(6, 7) := Piece(Pawn, White),
      Square(7, 0) := Piece(Rook, White), Square(7, 1) := Piece(Knight, White),
      Square(7, 2) := Piece(Bishop, White), Square(7, 3) := Piece(King, White),
      Square(7, 4) := Piece(Queen, White), Square(7, 5) := Piece(Bishop, White),
      Square(7, 6) := Piece(Knight, White), Square(7, 7) := Piece(Rook, White)
    ], White, Square(7, 3), Offset(1, 1), King)
  {
  }

  lemma OpeningMove6050WhiteStep5()
    ensures !LeapHit(map[
      Square(0, 0) := Piece(Rook, Black), Square(0, 1) := Piece(Knight, Black),
      Square(0, 2) := Piece(Bishop, Black), Square(0, 3) := Piece(King, Black),
      Square(0, 4) := Piece(Queen, Black), Square(0, 5) := Piece(Bishop, Black),
      Square(0, 6) := Piece(Knight, Black), Square(0, 7) := Piece(Rook, Black),
      Square(1, 0) := Piece(Pawn, Black), Square(1, 1) := Piece(Pawn, Black),
      Square(1, 2) := Piece(Pawn, Black), Square(1, 3) := Piece(Pawn, Black),
      Square(1, 4) := Piece(Pawn, Black), Square(1, 5) := Piece(Pawn, Black),
      Square(1, 6) := Piece(Pawn, Black), Square(1, 7) := Piece(Pawn, Black),
      Square(5, 0) := Piece(Pawn, White), Square(6, 1) := Piece(Pawn, White),
      Square(6, 2) := Piece(Pawn, White), Square(6, 3) := Piece(Pawn, White),
      Square(6, 4) := Piece(Pawn, White), Square(6, 5) := Piece(Pawn, White),
      Square(6, 6) := Piece(Pawn, White), Square(6, 7) := Piece(Pawn, White),
      Square(7, 0) := Piece(Rook, White), Square(7, 1) := Piece(Knight, White),
      Square(7, 2) := Piece(Bishop, White), Square(7, 3) := Piece(King, White),
      Square(7, 4) := Piece(Queen, White), Square(7, 5) := Piece(Bishop, White),
      Square(7, 6) := Piece(Knight, White), Square(7, 7) := Piece(Rook, White)
    ], White, Square(7, 3), Offset(-1, -1), King)
  {
  }

  lemma OpeningMove6050WhiteStep6()
    ensures !LeapHit(map[
      Square(0, 0) := Piece(Rook, Black), Square(0, 1) := Piece(Knight, Black),
      Square(0, 2) := Piece(Bishop, Black), Square(0, 3) := Piece(King, Black),
      Square(0, 4) := Piece(Queen, Black), Square(0, 5) := Piece(Bishop, Black),
      Square(0, 6) := Piece(Knight, Black), Square(0, 7) := Piece(Rook, Black),
      Square(1, 0) := Piece(Pawn, Black), Square(1, 1) := Piece(Pawn, Black),
      Square(1, 2) := Piece(Pawn, Black), Square(1, 3) := Piece(Pawn, Black),
      Square(1, 4) := Piece(Pawn, Black), Square(1, 5) := Piece(Pawn, Black),
      Square(1, 6) := Piece(Pawn, Black), Square(1, 7) := Piece(Pawn, Black),
      Square(5, 0) := Piece(Pawn, White), Square(6, 1) := Piece(Pawn, White),
      Square(6, 2) := Piece(Pawn, White), Square(6, 3) := Piece(Pawn, White),
      Square(6, 4) := Piece(Pawn, White), Square(6, 5) := Piece(Pawn, White),
      Square(6, 6) := Piece(Pawn, White), Square(6, 7) := Piece(Pawn, White),
      Square(7, 0) := Piece(Rook, White), Square(7, 1) := Piece(Knight, White),
      Square(7, 2) := Piece(Bishop, White), Square(7, 3) := Piece(King, White),
      Square(7, 4) := Piece(Queen, White), Square(7, 5) := Piece(Bishop, White),
      Square(7, 6) := Piece(Knight, White), Square(7, 7) := Piece(Rook, White)
    ], White, Square(7, 3), Offset(-1, 0), King)
  {
  }

  lemma OpeningMove6050WhiteStep7()
    ensures !LeapHit(map[
      Square(0, 0) := Piece(Rook, Black), Square(0, 1) := Piece(Knight, Black),
      Square(0, 2) := Piece(Bishop, Black), Square(0, 3) := Piece(King, Black),
      Square(0, 4) := Piece(Queen, Black), Square(0, 5) := Piece(Bishop, Black),
      Square(0, 6) := Piece(Knight, Black), Square(0, 7) := Piece(Rook, Black),
      Square(1, 0) := Piece(Pawn, Black), Square(1, 1) := Piece(Pawn, Black),
      Square(1, 2) := Piece(Pawn, Black), Square(1, 3) := Piece(Pawn, Black),
      Square(1, 4) := Piece(Pawn, Black), Square(1, 5) := Piece(Pawn, Black),
      Square(1, 6) := Piece(Pawn, Black), Square(1, 7) := Piece(Pawn, Black),
      Square(5, 0) := Piece(Pawn, White), Square(6, 1) := Piece(Pawn, White),
      Square(6, 2) := Piece(Pawn, White), Square(6, 3) := Piece(Pawn, White),
      Square(6, 4) := Piece(Pawn, White), Square(6, 5) := Piece(Pawn, White),
      Square(6, 6) := Piece(Pawn, White), Square(6, 7) := Piece(Pawn, White),
      Square(7, 0) := Piece(Rook, White), Square(7, 1) := Piece(Knight, White),
      Square(7, 2) := Piece(Bishop, White), Square(7, 3) := Piece(King, White),
      Square(7, 4) := Piece(Queen, White), Square(7, 5) := Piece(Bishop, White),
      Square(7, 6) := Piece(Knight, White), Square(7, 7) := Piece(Rook, White)
    ], White, Square(7, 3), Offset(-1, 1), King)
  {
  }

  lemma OpeningMove6050WhitePawn()
    ensures !PawnThreat(map[
      Square(0, 0) := Piece(Rook, Black), Square(0, 1) := Piece(Knight, Black),
      Square(0, 2) := Piece(Bishop, Black), Square(0, 3) := Piece(King, Black),
      Square(0, 4) := Piece(Queen, Black), Square(0, 5) := Piece(Bishop, Black),
      Square(0, 6) := Piece(Knight, Black), Square(0, 7) := Piece(Rook, Black),
      Square(1, 0) := Piece(Pawn, Black), Square(1, 1) := Piece(Pawn, Black),
      Square(1, 2) := Piece(Pawn, Black), Square(1, 3) := Piece(Pawn, Black),
      Square(1, 4) := Piece(Pawn, Black), Square(1, 5) := Piece(Pawn, Black),
      Square(1, 6) := Piece(Pawn, Black), Square(1, 7) := Piece(Pawn, Black),
      Square(5, 0) := Piece(Pawn, White), Square(6, 1) := Piece(Pawn, White),
      Square(6, 2) := Piece(Pawn, White), Square(6, 3) := Piece(Pawn, White),
      Square(6, 4) := Piece(Pawn, White), Square(6, 5) := Piece(Pawn, White),
      Square(6, 6) := Piece(Pawn, White), Square(6, 7) := Piece(Pawn, White),
      Square(7, 0) := Piece(Rook, White), Square(7, 1) := Piece(Knight, White),
      Square(7, 2) := Piece(Bishop, White), Square(7, 3) := Piece(King, White),
      Square(7, 4) := Piece(Queen, White), Square(7, 5) := Piece(Bishop, White),
      Square(7, 6) := Piece(Knight, White), Square(7, 7) := Piece(Rook, White)
    ], White, Square(7, 3))
  {
  }

  lemma OpeningMove6050WhiteSafe()
    ensures !KingInDanger(map[
      Square(0, 0) := Piece(Rook, Black), Square(0, 1) := Piece(Knight, Black),
      Square(0, 2) := Piece(Bishop, Black), Square(0, 3) := Piece(King, Black),
      Square(0, 4) := Piece(Queen, Black), Square(0, 5) := Piece(Bishop, Black),
      Square(0, 6) := Piece(Knight, Black), Square(0, 7) := Piece(Rook, Black),
      Square(1, 0) := Piece(Pawn, Black), Square(1, 1) := Piece(Pawn, Black),
      Square(1, 2) := Piece(Pawn, Black), Square(1, 3) := Piece(Pawn, Black),
      Square(1, 4) := Piece(Pawn, Black), Square(1, 5) := Piece(Pawn, Black),
      Square(1, 6) := Piece(Pawn, Black), Square(1, 7) := Piece(Pawn, Black),
      Square(5, 0) := Piece(Pawn, White), Square(6, 1) := Piece(Pawn, White),
      Square(6, 2) := Piece(Pawn, White), Square(6, 3) := Piece(Pawn, White),
      Square(6, 4) := Piece(Pawn, White), Square(6, 5) := Piece(Pawn, White),
      Square(6, 6) := Piece(Pawn, White), Square(6, 7) := Piece(Pawn, White),
      Square(7, 0) := Piece(Rook, White), Square(7, 1) := Piece(Knight, White),
      Square(7, 2) := Piece(Bishop, White), Square(7, 3) := Piece(King, White),
      Square(7, 4) := Piece(Queen, White), Square(7, 5) := Piece(Bishop, White),
      Square(7, 6) := Piece(Knight, White), Square(7, 7) := Piece(Rook, White)
    ], White, Square(7, 3))
  {
    OpeningMove6050WhiteLine0();
    OpeningMove6050WhiteLine1();
    OpeningMove6050WhiteLine2();
    OpeningMove6050WhiteLine3();
    StraightParts(map[
      Square(0, 0) := Piece(Rook, Black), Square(0, 1) := Piece(Knight, Black),
      Square(0, 2) := Piece(Bishop, Black), Square(0, 3) := Piece(King, Black),
      Square(0, 4) := Piece(Queen, Black), Square(0, 5) := Piece(Bishop, Black),
      Square(0, 6) := Piece(Knight, Black), Square(0, 7) := Piece(Rook, Black),
      Square(1, 0) := Piece(Pawn, Black), Square(1, 1) := Piece(Pawn, Black),
      Square(1, 2) := Piece(Pawn, Black), Square(1, 3) := Piece(Pawn, Black),
      Square(1, 4) := Piece(Pawn, Black), Square(1, 5) := Piece(Pawn, Black),
      Square(1, 6) := Piece(Pawn, Black), Square(1, 7) := Piece(Pawn, Black),
      Square(5, 0) := Piece(Pawn, White), Square(6, 1) := Piece(Pawn, White),
      Square(6, 2) := Piece(Pawn, White), Square(6, 3) := Piece(Pawn, White),
      Square(6, 4) := Piece(Pawn, White), Square(6, 5) := Piece(Pawn, White),
      Square(6, 6) := Piece(Pawn, White), Square(6, 7) := Piece(Pawn, White),
      Square(7, 0) := Piece(Rook, White), Square(7, 1) := Piece(Knight, White),
      Square(7, 2) := Piece(Bishop, White), Square(7, 3) := Piece(King, White),
      Square(7, 4) := Piece(Queen, White), Square(7, 5) := Piece(Bishop, White),
      Square(7, 6) := Piece(Knight, White), Square(7, 7) := Piece(Rook, White)
    ], White, Square(7, 3), Rook);
    OpeningMove6050WhiteDiagonal0();
    OpeningMove6050WhiteDiagonal1();
    OpeningMove6050WhiteDiagonal2();
    OpeningMove6050WhiteDiagonal3();
    DiagonalParts(map[
      Square(0, 0) := Piece(Rook, Black), Square(0, 1) := Piece(Knight, Black),
      Square(0, 2) := Piece(Bishop, Black), Square(0, 3) := Piece(King, Black),
      Square(0, 4) := Piece(Queen, Black), Square(0, 5) := Piece(Bishop, Black),
      Square(0, 6) := Piece(Knight, Black), Square(0, 7) := Piece(Rook, Black),
      Square(1, 0) := Piece(Pawn, Black), Square(1, 1) := Piece(Pawn, Black),
      Square(1, 2) := Piece(Pawn, Black), Square(1, 3) := Piece(Pawn, Black),
      Square(1, 4) := Piece(Pawn, Black), Square(1, 5) := Piece(Pawn, Black),
      Square(1, 6) := Piece(Pawn, Black), Square(1, 7) := Piece(Pawn, Black),
      Square(5, 0) := Piece(Pawn, White), Square(6, 1) := Piece(Pawn, White),
      Square(6, 2) := Piece(Pawn, White), Square(6, 3) := Piece(Pawn, White),
      Square(6, 4) := Piece(Pawn, White), Square(6, 5) := Piece(Pawn, White),
      Square(6, 6) := Piece(Pawn, White), Square(6, 7) := Piece(Pawn, White),
      Square(7, 0) := Piece(Rook, White), Square(7, 1) := Piece(Knight, White),
      Square(7, 2) := Piece(Bishop, White), Square(7, 3) := Piece(King, White),
      Square(7, 4) := Piece(Queen, White), Square(7, 5) := Piece(Bishop, White),
      Square(7, 6) := Piece(Knight, White), Square(7, 7) := Piece(Rook, White)
    ], White, Square(7, 3), Bishop);
    OpeningMove6050WhiteKnight0();
    OpeningMove6050WhiteKnight1();
    OpeningMove6050WhiteKnight2();
    OpeningMove6050WhiteKnight3();
    OpeningMove6050WhiteKnight4();
    OpeningMove6050WhiteKnight5();
    OpeningMove6050WhiteKnight6();
    OpeningMove6050WhiteKnight7();
    KnightParts(map[
      Square(0, 0) := Piece(Rook, Black), Square(0, 1) := Piece(Knight, Black),
      Square(0, 2) := Piece(Bishop, Black), Square(0, 3) := Piece(King, Black),
      Square(0, 4) := Piece(Queen, Black), Square(0, 5) := Piece(Bishop, Black),
      Square(0, 6) := Piece(Knight, Black), Square(0, 7) := Piece(Rook, Black),
      Square(1, 0) := Piece(Pawn, Black), Square(1, 1) := Piece(Pawn, Black),
      Square(1, 2) := Piece(Pawn, Black), Square(1, 3) := Piece(Pawn, Black),
      Square(1, 4) := Piece(Pawn, Black), Square(1, 5) := Piece(Pawn, Black),
      Square(1, 6) := Piece(Pawn, Black), Square(1, 7) := Piece(Pawn, Black),
      Square(5, 0) := Piece(Pawn, White), Square(6, 1) := Piece(Pawn, White),
      Square(6, 2) := Piece(Pawn, White), Square(6, 3) := Piece(Pawn, White),
      Square(6, 4) := Piece(Pawn, White), Square(6, 5) := Piece(Pawn, White),
      Square(6, 6) := Piece(Pawn, White), Square(6, 7) := Piece(Pawn, White),
      Square(7, 0) := Piece(Rook, White), Square(7, 1) := Piece(Knight, White),
      Square(7, 2) := Piece(Bishop, White), Square(7, 3) := Piece(King, White),
      Square(7, 4) := Piece(Queen, White), Square(7, 5) := Piece(Bishop, White),
      Square(7, 6) := Piece(Knight, White), Square(7, 7) := Piece(Rook, White)
    ], White, Square(7, 3));
    OpeningMove6050WhiteStep0();
    OpeningMove6050WhiteStep1();
    OpeningMove6050WhiteStep2();
    OpeningMove6050WhiteStep3();
    OpeningMove6050WhiteStep4();
    OpeningMove6050WhiteStep5();
    OpeningMove6050WhiteStep6();
    OpeningMove6050WhiteStep7();
    KingStepParts(map[
      Square(0, 0) := Piece(Rook, Black), Square(0, 1) := Piece(Knight, Black),
      Square(0, 2) := Piece(Bishop, Black), Square(0, 3) := Piece(King, Black),
      Square(0, 4) := Piece(Queen, Black), Square(0, 5) := Piece(Bishop, Black),
      Square(0, 6) := Piece(Knight, Black), Square(0, 7) := Piece(Rook, Black),
      Square(1, 0) := Piece(Pawn, Black), Square(1, 1) := Piece(Pawn, Black),
      Square(1, 2) := Piece(Pawn, Black), Square(1, 3) := Piece(Pawn, Black),
      Square(1, 4) := Piece(Pawn, Black), Square(1, 5) := Piece(Pawn, Black),
      Square(1, 6) := Piece(Pawn, Black), Square(1, 7) := Piece(Pawn, Black),
      Square(5, 0) := Piece(Pawn, White), Square(6, 1) := Piece(Pawn, White),
      Square(6, 2) := Piece(Pawn, White), Square(6, 3) := Piece(Pawn, White),
      Square(6, 4) := Piece(Pawn, White), Square(6, 5) := Piece(Pawn, White),
      Square(6, 6) := Piece(Pawn, White), Square(6, 7) := Piece(Pawn, White),
      Square(7, 0) := Piece(Rook, White), Square(7, 1) := Piece(Knight, White),
      Square(7, 2) := Piece(Bishop, White), Square(7, 3) := Piece(King, White),
      Square(7, 4) := Piece(Queen, White), Square(7, 5) := Piece(Bishop, White),
      Square(7, 6) := Piece(Knight, White), Square(7, 7) := Piece(Rook, White)
    ], White, Square(7, 3));
    OpeningMove6050WhitePawn();
    DangerParts(map[
      Square(0, 0) := Piece(Rook, Black), Square(0, 1) := Piece(Knight, Black),
      Square(0, 2) := Piece(Bishop, Black), Square(0, 3) := Piece(King, Black),
      Square(0, 4) := Piece(Queen, Black), Square(0, 5) := Piece(Bishop, Black),
      Square(0, 6) := Piece(Knight, Black), Square(0, 7) := Piece(Rook, Black),
      Square(1, 0) := Piece(Pawn, Black), Square(1, 1) := Piece(Pawn, Black),
      Square(1, 2) := Piece(Pawn, Black), Square(1, 3) := Piece(Pawn, Black),
      Square(1, 4) := Piece(Pawn, Black), Square(1, 5) := Piece(Pawn, Black),
      Square(1, 6) := Piece(Pawn, Black), Square(1, 7) := Piece(Pawn, Black),
      Square(5, 0) := Piece(Pawn, White), Square(6, 1) := Piece(Pawn, White),
      Square(6, 2) := Piece(Pawn, White), Square(6, 3) := Piece(Pawn, White),
      Square(6, 4) := Piece(Pawn, White), Square(6, 5) := Piece(Pawn, White),
      Square(6, 6) := Piece(Pawn, White), Square(6, 7) := Piece(Pawn, White),
      Square(7, 0) := Piece(Rook, White), Square(7, 1) := Piece(Knight, White),
      Square(7, 2) := Piece(Bishop, White), Square(7, 3) := Piece(King, White),
      Square(7, 4) := Piece(Queen, White), Square(7, 5) := Piece(Bishop, White),
      Square(7, 6) := Piece(Knight, White), Square(7, 7) := Piece(Rook, White)
    ], White, Square(7, 3));
  }

  lemma OpeningMove6050KeepsWhite()
    ensures !Exposes(Opening, White, Square(6, 0), Square(5, 0))
  {
    OpeningReady();
    OpeningMove6050();
    OpeningAt60();
    OpeningMove6050WhiteSafe();
    ExposesGuarded(Opening, White, Square(6, 0), Square(5, 0), map[
      Square(0, 0) := Piece(Rook, Black), Square(0, 1) := Piece(Knight, Black),
      Square(0, 2) := Piece(Bishop, Black), Square(0, 3) := Piece(King, Black),
      Square(0, 4) := Piece(Queen, Black), Square(0, 5) := Piece(Bishop, Black),
      Square(0, 6) := Piece(Knight, Black), Square(0, 7) := Piece(Rook, Black),
      Square(1, 0) := Piece(Pawn, Black), Square(1, 1) := Piece(Pawn, Black),
      Square(1, 2) := Piece(Pawn, Black), Square(1, 3) := Piece(Pawn, Black),
      Square(1, 4) := Piece(Pawn, Black), Square(1, 5) := Piece(Pawn, Black),
      Square(1, 6) := Piece(Pawn, Black), Square(1, 7) := Piece(Pawn, Black),
      Square(5, 0) := Piece(Pawn, White), Square(6, 1) := Piece(Pawn, White),
      Square(6, 2) := Piece(Pawn, White), Square(6, 3) := Piece(Pawn, White),
      Square(6, 4) := Piece(Pawn, White), Square(6, 5) := Piece(Pawn, White),
      Square(6, 6) := Piece(Pawn, White), Square(6, 7) := Piece(Pawn, White),
      Square(7, 0) := Piece(Rook, White), Square(7, 1) := Piece(Knight, White),
      Square(7, 2) := Piece(Bishop, White), Square(7, 3) := Piece(King, White),
      Square(7, 4) := Piece(Queen, White), Square(7, 5) := Piece(Bishop, White),
      Square(7, 6) := Piece(Knight, White), Square(7, 7) := Piece(Rook, White)
    ]);
  }

  lemma OpeningSplit605040()
    ensures [Square(5, 0), Square(4, 0)] == [Square(5, 0)] + ([Square(4, 0)] + [])
    ensures [Square(5, 0)] + [Square(4, 0)] == [Square(5, 0), Square(4, 0)]
  {
  }

  lemma PinnedKnightMove7466()
    ensures Relocate(PinnedKnight.board, Square(7, 4), Square(6, 6)) == map[
      Square(6, 6) := Piece(Knight, White), Square(7, 0) := Piece(Rook, Black),
      Square(7, 6) := Piece(King, White)
    ]
  {
  }

  lemma PinnedKnightReady()
    ensures Ready(PinnedKnight) && PinnedKnight.turn == White
    ensures KingSquare(PinnedKnight, White) == Square(7, 6) && KingSquare(PinnedKnight, Black) == Square(0, 3)
  {
  }

  lemma PinnedKnightAt74()
    ensures Square(7, 4) in PinnedKnight.board && PinnedKnight.board[Square(7, 4)] == Piece(Knight, White)
  {
  }

  lemma PinnedKnightMove7466WhiteLine2()
    ensures First(map[
      Square(6, 6) := Piece(Knight, White), Square(7, 0) := Piece(Rook, Black),
      Square(7, 6) := Piece(King, White)
    ], Square(7, 6), Offset(0, -1)) == Some(Piece(Rook, Black))
  {
  }

  lemma PinnedKnightMove7466WhiteCheck()
    ensures KingInDanger(map[
      Square(6, 6) := Piece(Knight, White), Square(7, 0) := Piece(Rook, Black),
      Square(7, 6) := Piece(King, White)
    ], White, Square(7, 6))
  {
    PinnedKnightMove7466WhiteLine2();
    StraightParts(map[
      Square(6, 6) := Piece(Knight, White), Square(7, 0) := Piece(Rook, Black),
      Square(7, 6) := Piece(King, White)
    ], White, Square(7, 6), Rook);
    DangerParts(map[
      Square(6, 6) := Piece(Knight, White), Square(7, 0) := Piece(Rook, Black),
      Square(7, 6) := Piece(King, White)
    ], White, Square(7, 6));
  }

  lemma PinnedKnightMove7466ExposesWhite()
    ensures Exposes(PinnedKnight, White, Square(7, 4), Square(6, 6))
  {
    PinnedKnightReady();
    PinnedKnightMove7466();
    PinnedKnightAt74();
    PinnedKnightMove7466WhiteCheck();
    ExposesGuarded(PinnedKnight, White, Square(7, 4), Square(6, 6), map[
      Square(6, 6) := Piece(Knight, White), Square(7, 0) := Piece(Rook, Black),
      Square(7, 6) := Piece(King, White)
    ]);
  }

  lemma PinnedKnightMove7462()
    ensures Relocate(PinnedKnight.board, Square(7, 4), Square(6, 2)) == map[
      Square(6, 2) := Piece(Knight, White), Square(6, 6) := Piece(Bishop, Black),
      Square(7, 0) := Piece(Rook, Black), Square(7, 6) := Piece(King, White)
    ]
  {
  }

  lemma PinnedKnightMove7462WhiteLine2()
    ensures First(map[
      Square(6, 2) := Piece(Knight, White), Square(6, 6) := Piece(Bishop, Black),
      Square(7, 0) := Piece(Rook, Black), Square(7, 6) := Piece(King, White)
    ], Square(7, 6), Offset(0, -1)) == Some(Piece(Rook, Black))
  {
  }

  lemma PinnedKnightMove7462WhiteCheck()
    ensures KingInDanger(map[
      Square(6, 2) := Piece(Knight, White), Square(6, 6) := Piece(Bishop, Black),
      Square(7, 0) := Piece(Rook, Black), Square(7, 6) := Piece(King, White)
    ], White, Square(7, 6))
  {
    PinnedKnightMove7462WhiteLine2();
    StraightParts(map[
      Square(6, 2) := Piece(Knight, White), Square(6, 6) := Piece(Bishop, Black),
      Square(7, 0) := Piece(Rook, Black), Square(7, 6) := Piece(King, White)
    ], White, Square(7, 6), Rook);
    DangerParts(map[
      Square(6, 2) := Piece(Knight, White), Square(6, 6) := Piece(Bishop, Black),
      Square(7, 0) := Piece(Rook, Black), Square(7, 6) := Piece(King, White)
    ], White, Square(7, 6));
  }

  lemma PinnedKnightMove7462ExposesWhite()
    ensures Exposes(PinnedKnight, White, Square(7, 4), Square(6, 2))
  {
    PinnedKnightReady();
    PinnedKnightMove7462();
    PinnedKnightAt74();
    PinnedKnightMove7462WhiteCheck();
    ExposesGuarded(PinnedKnight, White, Square(7, 4), Square(6, 2), map[
      Square(6, 2) := Piece(Knight, White), Square(6, 6) := Piece(Bishop, Black),
      Square(7, 0) := Piece(Rook, Black), Square(7, 6) := Piece(King, White)
    ]);
  }

  lemma PinnedKnightMove7455()
    ensures Relocate(PinnedKnight.board, Square(7, 4), Square(5, 5)) == map[
      Square(5, 5) := Piece(Knight, White), Square(6, 6) := Piece(Bishop, Black),
      Square(7, 0) := Piece(Rook, Black), Square(7, 6) := Piece(King, White)
    ]
  {
  }

  lemma PinnedKnightMove7455WhiteLine2()
    ensures First(map[
      Square(5, 5) := Piece(Knight, White), Square(6, 6) := Piece(Bishop, Black),
      Square(7, 0) := Piece(Rook, Black), Square(7, 6) := Piece(King, White)
    ], Square(7, 6), Offset(0, -1)) == Some(Piece(Rook, Black))
  {
  }

  lemma PinnedKnightMove7455WhiteCheck()
    ensures KingInDanger(map[
      Square(5, 5) := Piece(Knight, White), Square(6, 6) := Piece(Bishop, Black),
      Square(7, 0) := Piece(Rook, Black), Square(7, 6) := Piece(King, White)
    ], White, Square(7, 6))
  {
    PinnedKnightMove7455WhiteLine2();
    StraightParts(map[
      Square(5, 5) := Piece(Knight, White), Square(6, 6) := Piece(Bishop, Black),
      Square(7, 0) := Piece(Rook, Black), Square(7, 6) := Piece(King, White)
    ], White, Square(7, 6), Rook);
    DangerParts(map[
      Square(5, 5) := Piece(Knight, White), Square(6, 6) := Piece(Bishop, Black),
      Square(7, 0) := Piece(Rook, Black), Square(7, 6) := Piece(King, White)
    ], White, Square(7, 6));
  }

  lemma PinnedKnightMove7455ExposesWhite()
    ensures Exposes(PinnedKnight, White, Square(7, 4), Square(5, 5))
  {
    PinnedKnightReady();
    PinnedKnightMove7455();
    PinnedKnightAt74();
    PinnedKnightMove7455WhiteCheck();
    ExposesGuarded(PinnedKnight, White, Square(7, 4), Square(5, 5), map[
      Square(5, 5) := Piece(Knight, White), Square(6, 6) := Piece(Bishop, Black),
      Square(7, 0) := Piece(Rook, Black), Square(7, 6) := Piece(King, White)
    ]);
  }

  lemma PinnedKnightMove7453()
    ensures Relocate(PinnedKnight.board, Square(7, 4), Square(5, 3)) == map[
      Square(5, 3) := Piece(Knight, White), Square(6, 6) := Piece(Bishop, Black),
      Square(7, 0) := Piece(Rook, Black), Square(7, 6) := Piece(King, White)
    ]
  {
  }

  lemma PinnedKnightMove7453WhiteLine2()
    ensures First(map[
      Square(5, 3) := Piece(Knight, White), Square(6, 6) := Piece(Bishop, Black),
      Square(7, 0) := Piece(Rook, Black), Square(7, 6) := Piece(King, White)
    ], Square(7, 6), Offset(0, -1)) == Some(Piece(Rook, Black))
  {
  }

  lemma PinnedKnightMove7453WhiteCheck()
    ensures KingInDanger(map[
      Square(5, 3) := Piece(Knight, White), Square(6, 6) := Piece(Bishop, Black),
      Square(7, 0) := Piece(Rook, Black), Square(7, 6) := Piece(King, White)
    ], White, Square(7, 6))
  {
    PinnedKnightMove7453WhiteLine2();
    StraightParts(map[
      Square(5, 3) := Piece(Knight, White), Square(6, 6) := Piece(Bishop, Black),
      Square(7, 0) := Piece(Rook, Black), Square(7, 6) := Piece(King, White)
    ], White, Square(7, 6), Rook);
    DangerParts(map[
      Square(5, 3) := Piece(Knight, White), Square(6, 6) := Piece(Bishop, Black),
      Square(7, 0) := Piece(Rook, Black), Square(7, 6) := Piece(King, White)
    ], White, Square(7, 6));
  }

  lemma PinnedKnightMove7453ExposesWhite()
    ensures Exposes(PinnedKnight, White, Square(7, 4), Square(5, 3))
  {
    PinnedKnightReady();
    PinnedKnightMove7453();
    PinnedKnightAt74();
    PinnedKnightMove7453WhiteCheck();
    ExposesGuarded(PinnedKnight, White, Square(7, 4), Square(5, 3), map[
      Square(5, 3) := Piece(Knight, White), Square(6, 6) := Piece(Bishop, Black),
      Square(7, 0) := Piece(Rook, Black), Square(7, 6) := Piece(King, White)
    ]);
  }

  lemma PinnedKnightSplit7453556266()
    ensures [Square(5, 3), Square(5, 5), Square(6, 2), Square(6, 6)] == [Square(5, 3)] + ([Square(5, 5)] + ([Square(6, 2)] + ([Square(6, 6)] + [])))
  {
  }

  lemma PinnedBishopMove6574()
    ensures Relocate(PinnedBishop.board, Square(6, 5), Square(7, 4)) == map[
      Square(5, 4) := Piece(Bishop, Black), Square(7, 4) := Piece(Bishop, White),
      Square(7, 6) := Piece(King, White)
    ]
  {
  }

  lemma PinnedBishopReady()
    ensures Ready(PinnedBishop) && PinnedBishop.turn == White
    ensures KingSquare(PinnedBishop, White) == Square(7, 6) && KingSquare(PinnedBishop, Black) == Square(0, 3)
  {
  }

  lemma PinnedBishopAt65()
    ensures Square(6, 5) in PinnedBishop.board && PinnedBishop.board[Square(6, 5)] == Piece(Bishop, White)
  {
  }

  lemma PinnedBishopMove6574WhiteDiagonal1()
    ensures First(map[
      Square(5, 4) := Piece(Bishop, Black), Square(7, 4) := Piece(Bishop, White),
      Square(7, 6) := Piece(King, White)
    ], Square(7, 6), Offset(-1, -1)) == Some(Piece(Bishop, Black))
  {
  }

  lemma PinnedBishopMove6574WhiteCheck()
    ensures KingInDanger(map[
      Square(5, 4) := Piece(Bishop, Black), Square(7, 4) := Piece(Bishop, White),
      Square(7, 6) := Piece(King, White)
    ], White, Square(7, 6))
  {
    PinnedBishopMove6574WhiteDiagonal1();
    DiagonalParts(map[
      Square(5, 4) := Piece(Bishop, Black), Square(7, 4) := Piece(Bishop, White),
      Square(7, 6) := Piece(King, White)
    ], White, Square(7, 6), Bishop);
    DangerParts(map[
      Square(5, 4) := Piece(Bishop, Black), Square(7, 4) := Piece(Bishop, White),
      Square(7, 6) := Piece(King, White)
    ], White, Square(7, 6));
  }

  lemma PinnedBishopMove6574ExposesWhite()
    ensures Exposes(PinnedBishop, White, Square(6, 5), Square(7, 4))
  {
    PinnedBishopReady();
    PinnedBishopMove6574();
    PinnedBishopAt65();
    PinnedBishopMove6574WhiteCheck();
    ExposesGuarded(PinnedBishop, White, Square(6, 5), Square(7, 4), map[
      Square(5, 4) := Piece(Bishop, Black), Square(7, 4) := Piece(Bishop, White),
      Square(7, 6) := Piece(King, White)
    ]);
  }

  lemma PinnedBishopMove6556()
    ensures Relocate(PinnedBishop.board, Square(6, 5), Square(5, 6)) == map[
      Square(5, 4) := Piece(Bishop, Black), Square(5, 6) := Piece(Bishop, White),
      Square(7, 6) := Piece(King, White)
    ]
  {
  }

  lemma PinnedBishopMove6556WhiteDiagonal1()
    ensures First(map[
      Square(5, 4) := Piece(Bishop, Black), Square(5, 6) := Piece(Bishop, White),
      Square(7, 6) := Piece(King, White)
    ], Square(7, 6), Offset(-1, -1)) == Some(Piece(Bishop, Black))
  {
  }

  lemma PinnedBishopMove6556WhiteCheck()
    ensures KingInDanger(map[
      Square(5, 4) := Piece(Bishop, Black), Square(5, 6) := Piece(Bishop, White),
      Square(7, 6) := Piece(King, White)
    ], White, Square(7, 6))
  {
    PinnedBishopMove6556WhiteDiagonal1();
    DiagonalParts(map[
      Square(5, 4) := Piece(Bishop, Black), Square(5, 6) := Piece(Bishop, White),
      Square(7, 6) := Piece(King, White)
    ], White, Square(7, 6), Bishop);
    DangerParts(map[
      Square(5, 4) := Piece(Bishop, Black), Square(5, 6) := Piece(Bishop, White),
      Square(7, 6) := Piece(King, White)
    ], White, Square(7, 6));
  }

  lemma PinnedBishopMove6556ExposesWhite()
    ensures Exposes(PinnedBishop, White, Square(6, 5), Square(5, 6))
  {
    PinnedBishopReady();
    PinnedBishopMove6556();
    PinnedBishopAt65();
    PinnedBishopMove6556WhiteCheck();
    ExposesGuarded(PinnedBishop, White, Square(6, 5), Square(5, 6), map[
      Square(5, 4) := Piece(Bishop, Black), Square(5, 6) := Piece(Bishop, White),
      Square(7, 6) := Piece(King, White)
    ]);
  }

  lemma PinnedBishopMove6554()
    ensures Relocate(PinnedBishop.board, Square(6, 5), Square(5, 4)) == map[Square(5, 4) := Piece(Bishop, White), Square(7, 6) := Piece(King, White)]
  {
  }

  lemma PinnedBishopMove6554WhiteRook()
    ensures !SliderThreat(map[Square(5, 4) := Piece(Bishop, White), Square(7, 6) := Piece(King, White)], White, Square(7, 6), Orthogonals, Rook)
  {
  }

  lemma PinnedBishopMove6554WhiteBishop()
    ensures !SliderThreat(map[Square(5, 4) := Piece(Bishop, White), Square(7, 6) := Piece(King, White)], White, Square(7, 6), Diagonals, Bishop)
  {
  }

  lemma PinnedBishopMove6554WhiteKnight()
    ensures !LeapThreat(map[Square(5, 4) := Piece(Bishop, White), Square(7, 6) := Piece(King, White)], White, Square(7, 6), KnightJumps, Knight)
  {
  }

  lemma PinnedBishopMove6554WhiteKing()
    ensures !LeapThreat(map[Square(5, 4) := Piece(Bishop, White), Square(7, 6) := Piece(King, White)], White, Square(7, 6), KingSteps, King)
  {
  }

  lemma PinnedBishopMove6554WhitePawn()
    ensures !PawnThreat(map[Square(5, 4) := Piece(Bishop, White), Square(7, 6) := Piece(King, White)], White, Square(7, 6))
  {
  }

  lemma PinnedBishopMove6554WhiteSafe()
    ensures !KingInDanger(map[Square(5, 4) := Piece(Bishop, White), Square(7, 6) := Piece(King, White)], White, Square(7, 6))
  {
    PinnedBishopMove6554WhiteRook();
    PinnedBishopMove6554WhiteBishop();
    PinnedBishopMove6554WhiteKnight();
    PinnedBishopMove6554WhiteKing();
    PinnedBishopMove6554WhitePawn();
    DangerParts(map[Square(5, 4) := Piece(Bishop, White), Square(7, 6) := Piece(King, White)], White, Square(7, 6));
  }

  lemma PinnedBishopMove6554KeepsWhite()
    ensures !Exposes(PinnedBishop, White, Square(6, 5), Square(5, 4))
  {
    PinnedBishopReady();
    PinnedBishopMove6554();
    PinnedBishopAt65();
    PinnedBishopMove6554WhiteSafe();
    ExposesGuarded(PinnedBishop, White, Square(6, 5), Square(5, 4), map[Square(5, 4) := Piece(Bishop, White), Square(7, 6) := Piece(King, White)]);
  }

  lemma PinnedBishopSplit65545674()
    ensures [Square(5, 4), Square(5, 6), Square(7, 4)] == [Square(5, 4)] + ([Square(5, 6)] + ([Square(7, 4)] + []))
  {
  }

  lemma KingBesideMove7667()
    ensures Relocate(KingBeside.board, Square(7, 6), Square(6, 7)) == map[Square(6, 3) := Piece(Rook, Black), Square(6, 7) := Piece(King, White)]
  {
  }

  lemma KingBesideReady()
    ensures Ready(KingBeside) && KingBeside.turn == White
    ensures KingSquare(KingBeside, White) == Square(7, 6) && KingSquare(KingBeside, Black) == Square(0, 3)
  {
  }

  lemma KingBesideAt76()
    ensures Square(7, 6) in KingBeside.board && KingBeside.board[Square(7, 6)] == Piece(King, White)
  {
  }

  lemma KingBesideMove7667Rook()
    ensures SliderThreat(map[Square(6, 3) := Piece(Rook, Black), Square(6, 7) := Piece(King, White)], White, Square(6, 7), Orthogonals, Rook)
  {
  }

  lemma KingBesideMove7667Check()
    ensures KingInDanger(map[Square(6, 3) := Piece(Rook, Black), Square(6, 7) := Piece(King, White)], White, Square(6, 7))
  {
    KingBesideMove7667Rook();
    DangerParts(map[Square(6, 3) := Piece(Rook, Black), Square(6, 7) := Piece(King, White)], White, Square(6, 7));
  }

  lemma KingBesideMove7667ExposesWhite()
    ensures Exposes(KingBeside, White, Square(7, 6), Square(6, 7))
  {
    KingBesideReady();
    KingBesideMove7667();
    KingBesideAt76();
    KingBesideMove7667Check();
    ExposesKing(KingBeside, White, Square(7, 6), Square(6, 7), map[Square(6, 3) := Piece(Rook, Black), Square(6, 7) := Piece(King, White)], White);
  }

  lemma KingBesideMove7666()
    ensures Relocate(KingBeside.board, Square(7, 6), Square(6, 6)) == map[Square(6, 3) := Piece(Rook, Black), Square(6, 6) := Piece(King, White)]
  {
  }

  lemma KingBesideMove7666Rook()
    ensures SliderThreat(map[Square(6, 3) := Piece(Rook, Black), Square(6, 6) := Piece(King, White)], White, Square(6, 6), Orthogonals, Rook)
  {
  }

  lemma KingBesideMove7666Check()
    ensures KingInDanger(map[Square(6, 3) := Piece(Rook, Black), Square(6, 6) := Piece(King, White)], White, Square(6, 6))
  {
    KingBesideMove7666Rook();
    DangerParts(map[Square(6, 3) := Piece(Rook, Black), Square(6, 6) := Piece(King, White)], White, Square(6, 6));
  }

  lemma KingBesideMove7666ExposesWhite()
    ensures Exposes(KingBeside, White, Square(7, 6), Square(6, 6))
  {
    KingBesideReady();
    KingBesideMove7666();
    KingBesideAt76();
    KingBesideMove7666Check();
    ExposesKing(KingBeside, White, Square(7, 6), Square(6, 6), map[Square(6, 3) := Piece(Rook, Black), Square(6, 6) := Piece(King, White)], White);
  }

  lemma KingBesideMove7665()
    ensures Relocate(KingBeside.board, Square(7, 6), Square(6, 5)) == map[Square(6, 3) := Piece(Rook, Black), Square(6, 5) := Piece(King, White)]
  {
  }

  lemma KingBesideMove7665Rook()
    ensures SliderThreat(map[Square(6, 3) := Piece(Rook, Black), Square(6, 5) := Piece(King, White)], White, Square(6, 5), Orthogonals, Rook)
  {
  }

  lemma KingBesideMove7665Check()
    ensures KingInDanger(map[Square(6, 3) := Piece(Rook, Black), Square(6, 5) := Piece(King, White)], White, Square(6, 5))
  {
    KingBesideMove7665Rook();
    DangerParts(map[Square(6, 3) := Piece(Rook, Black), Square(6, 5) := Piece(King, White)], White, Square(6, 5));
  }

  lemma KingBesideMove7665ExposesWhite()
    ensures Exposes(KingBeside, White, Square(7, 6), Square(6, 5))
  {
    KingBesideReady();
    KingBesideMove7665();
    KingBesideAt76();
    KingBesideMove7665Check();
    ExposesKing(KingBeside, White, Square(7, 6), Square(6, 5), map[Square(6, 3) := Piece(Rook, Black), Square(6, 5) := Piece(King, White)], White);
  }

  lemma KingBesideMove7677()
    ensures Relocate(KingBeside.board, Square(7, 6), Square(7, 7)) == map[Square(6, 3) := Piece(Rook, Black), Square(7, 7) := Piece(King, White)]
  {
  }

  lemma KingBesideMove7677Rook()
    ensures !SliderThreat(map[Square(6, 3) := Piece(Rook, Black), Square(7, 7) := Piece(King, White)], White, Square(7, 7), Orthogonals, Rook)
  {
  }

  lemma KingBesideMove7677Bishop()
    ensures !SliderThreat(map[Square(6, 3) := Piece(Rook, Black), Square(7, 7) := Piece(King, White)], White, Square(7, 7), Diagonals, Bishop)
  {
  }

  lemma KingBesideMove7677Knight()
    ensures !LeapThreat(map[Square(6, 3) := Piece(Rook, Black), Square(7, 7) := Piece(King, White)], White, Square(7, 7), KnightJumps, Knight)
  {
  }

  lemma KingBesideMove7677King()
    ensures !LeapThreat(map[Square(6, 3) := Piece(Rook, Black), Square(7, 7) := Piece(King, White)], White, Square(7, 7), KingSteps, King)
  {
  }

  lemma KingBesideMove7677Pawn()
    ensures !PawnThreat(map[Square(6, 3) := Piece(Rook, Black), Square(7, 7) := Piece(King, White)], White, Square(7, 7))
  {
  }

  lemma KingBesideMove7677Safe()
    ensures !KingInDanger(map[Square(6, 3) := Piece(Rook, Black), Square(7, 7) := Piece(King, White)], White, Square(7, 7))
  {
    KingBesideMove7677Rook();
    KingBesideMove7677Bishop();
    KingBesideMove7677Knight();
    KingBesideMove7677King();
    KingBesideMove7677Pawn();
    DangerParts(map[Square(6, 3) := Piece(Rook, Black), Square(7, 7) := Piece(King, White)], White, Square(7, 7));
  }

  lemma KingBesideMove7677KeepsWhite()
    ensures !Exposes(KingBeside, White, Square(7, 6), Square(7, 7))
  {
    KingBesideReady();
    KingBesideMove7677();
    KingBesideAt76();
    KingBesideMove7677Safe();
    ExposesKing(KingBeside, White, Square(7, 6), Square(7, 7), map[Square(6, 3) := Piece(Rook, Black), Square(7, 7) := Piece(King, White)], White);
  }

  lemma KingBesideMove7675()
    ensures Relocate(KingBeside.board, Square(7, 6), Square(7, 5)) == map[Square(6, 3) := Piece(Rook, Black), Square(7, 5) := Piece(King, White)]
  {
  }

  lemma KingBesideMove7675Rook()
    ensures !SliderThreat(map[Square(6, 3) := Piece(Rook, Black), Square(7, 5) := Piece(King, White)], White, Square(7, 5), Orthogonals, Rook)
  {
  }

  lemma KingBesideMove7675Bishop()
    ensures !SliderThreat(map[Square(6, 3) := Piece(Rook, Black), Square(7, 5) := Piece(King, White)], White, Square(7, 5), Diagonals, Bishop)
  {
  }

  lemma KingBesideMove7675Knight()
    ensures !LeapThreat(map[Square(6, 3) := Piece(Rook, Black), Square(7, 5) := Piece(King, White)], White, Square(7, 5), KnightJumps, Knight)
  {
  }

  lemma KingBesideMove7675King()
    ensures !LeapThreat(map[Square(6, 3) := Piece(Rook, Black), Square(7, 5) := Piece(King, White)], White, Square(7, 5), KingSteps, King)
  {
  }

  lemma KingBesideMove7675Pawn()
    ensures !PawnThreat(map[Square(6, 3) := Piece(Rook, Black), Square(7, 5) := Piece(King, White)], White, Square(7, 5))
  {
  }

  lemma KingBesideMove7675Safe()
    ensures !KingInDanger(map[Square(6, 3) := Piece(Rook, Black), Square(7, 5) := Piece(King, White)], White, Square(7, 5))
  {
    KingBesideMove7675Rook();
    KingBesideMove7675Bishop();
    KingBesideMove7675Knight();
    KingBesideMove7675King();
    KingBesideMove7675Pawn();
    DangerParts(map[Square(6, 3) := Piece(Rook, Black), Square(7, 5) := Piece(King, White)], White, Square(7, 5));
  }

  lemma KingBesideMove7675KeepsWhite()
    ensures !Exposes(KingBeside, White, Square(7, 6), Square(7, 5))
  {
    KingBesideReady();
    KingBesideMove7675();
    KingBesideAt76();
    KingBesideMove7675Safe();
    ExposesKing(KingBeside, White, Square(7, 6), Square(7, 5), map[Square(6, 3) := Piece(Rook, Black), Square(7, 5) := Piece(King, White)], White);
  }

  lemma KingBesideSplit767577656667()
    ensures [Square(7, 5), Square(7, 7), Square(6, 5), Square(6, 6), Square(6, 7)] == [Square(7, 5)] + ([Square(7, 7)] + ([Square(6, 5)] + ([Square(6, 6)] + ([Square(6, 7)] + []))))
    ensures [Square(7, 5)] + [Square(7, 7)] == [Square(7, 5), Square(7, 7)]
  {
  }

  lemma OpeningReach6050()
    ensures Square(5, 0) in Moves(Opening.board, Piece(Pawn, White), Square(6, 0))
  {
    MovesMatchRules(Opening.board, Piece(Pawn, White), Square(6, 0), Square(5, 0));
  }

  lemma OpeningReach1020()
    ensures Square(2, 0) in Moves(Opening.board, Piece(Pawn, Black), Square(1, 0))
  {
    MovesMatchRules(Opening.board, Piece(Pawn, Black), Square(1, 0), Square(2, 0));
  }

  lemma OpeningMove1020()
    ensures Relocate(Opening.board, Square(1, 0), Square(2, 0)) == map[
      Square(0, 0) := Piece(Rook, Black), Square(0, 1) := Piece(Knight, Black),
      Square(0, 2) := Piece(Bishop, Black), Square(0, 3) := Piece(King, Black),
      Square(0, 4) := Piece(Queen, Black), Square(0, 5) := Piece(Bishop, Black),
      Square(0, 6) := Piece(Knight, Black), Square(0, 7) := Piece(Rook, Black),
      Square(1, 1) := Piece(Pawn, Black), Square(1, 2) := Piece(Pawn, Black),
      Square(1, 3) := Piece(Pawn, Black), Square(1, 4) := Piece(Pawn, Black),
      Square(1, 5) := Piece(Pawn, Black), Square(1, 6) := Piece(Pawn, Black),
      Square(1, 7) := Piece(Pawn, Black), Square(2, 0) := Piece(Pawn, Black),
      Square(6, 0) := Piece(Pawn, White), Square(6, 1) := Piece(Pawn, White),
      Square(6, 2) := Piece(Pawn, White), Square(6, 3) := Piece(Pawn, White),
      Square(6, 4) := Piece(Pawn, White), Square(6, 5) := Piece(Pawn, White),
      Square(6, 6) := Piece(Pawn, White), Square(6, 7) := Piece(Pawn, White),
      Square(7, 0) := Piece(Rook, White), Square(7, 1) := Piece(Knight, White),
      Square(7, 2) := Piece(Bishop, White), Square(7, 3) := Piece(King, White),
      Square(7, 4) := Piece(Queen, White), Square(7, 5) := Piece(Bishop, White),
      Square(7, 6) := Piece(Knight, White), Square(7, 7) := Piece(Rook, White)
    ]
  {
  }

  lemma OpeningAt10()
    ensures Square(1, 0) in Opening.board && Opening.board[Square(1, 0)] == Piece(Pawn, Black)
  {
  }

  lemma OpeningMove1020BlackLine0()
    ensures First(map[
      Square(0, 0) := Piece(Rook, Black), Square(0, 1) := Piece(Knight, Black),
      Square(0, 2) := Piece(Bishop, Black), Square(0, 3) := Piece(King, Black),
      Square(0, 4) := Piece(Queen, Black), Square(0, 5) := Piece(Bishop, Black),
      Square(0, 6) := Piece(Knight, Black), Square(0, 7) := Piece(Rook, Black),
      Square(1, 1) := Piece(Pawn, Black), Square(1, 2) := Piece(Pawn, Black),
      Square(1, 3) := Piece(Pawn, Black), Square(1, 4) := Piece(Pawn, Black),
      Square(1, 5) := Piece(Pawn, Black), Square(1, 6) := Piece(Pawn, Black),
      Square(1, 7) := Piece(Pawn, Black), Square(2, 0) := Piece(Pawn, Black),
      Square(6, 0) := Piece(Pawn, White), Square(6, 1) := Piece(Pawn, White),
      Square(6, 2) := Piece(Pawn, White), Square(6, 3) := Piece(Pawn, White),
      Square(6, 4) := Piece(Pawn, White), Square(6, 5) := Piece(Pawn, White),
      Square(6, 6) := Piece(Pawn, White), Square(6, 7) := Piece(Pawn, White),
      Square(7, 0) := Piece(Rook, White), Square(7, 1) := Piece(Knight, White),
      Square(7, 2) := Piece(Bishop, White), Square(7, 3) := Piece(King, White),
      Square(7, 4) := Piece(Queen, White), Square(7, 5) := Piece(Bishop, White),
      Square(7, 6) := Piece(Knight, White), Square(7, 7) := Piece(Rook, White)
    ], Square(0, 3), Offset(-1, 0)) == None
  {
  }

  lemma OpeningMove1020BlackLine1()
    ensures First(map[
      Square(0, 0) := Piece(Rook, Black), Square(0, 1) := Piece(Knight, Black),
      Square(0, 2) := Piece(Bishop, Black), Square(0, 3) := Piece(King, Black),
      Square(0, 4) := Piece(Queen, Black), Square(0, 5) := Piece(Bishop, Black),
      Square(0, 6) := Piece(Knight, Black), Square(0, 7) := Piece(Rook, Black),
      Square(1, 1) := Piece(Pawn, Black), Square(1, 2) := Piece(Pawn, Black),
      Square(1, 3) := Piece(Pawn, Black), Square(1, 4) := Piece(Pawn, Black),
      Square(1, 5) := Piece(Pawn, Black), Square(1, 6) := Piece(Pawn, Black),
      Square(1, 7) := Piece(Pawn, Black), Square(2, 0) := Piece(Pawn, Black),
      Square(6, 0) := Piece(Pawn, White), Square(6, 1) := Piece(Pawn, White),
      Square(6, 2) := Piece(Pawn, White), Square(6, 3) := Piece(Pawn, White),
      Square(6, 4) := Piece(Pawn, White), Square(6, 5) := Piece(Pawn, White),
      Square(6, 6) := Piece(Pawn, White), Square(6, 7) := Piece(Pawn, White),
      Square(7, 0) := Piece(Rook, White), Square(7, 1) := Piece(Knight, White),
      Square(7, 2) := Piece(Bishop, White), Square(7, 3) := Piece(King, White),
      Square(7, 4) := Piece(Queen, White), Square(7, 5) := Piece(Bishop, White),
      Square(7, 6) := Piece(Knight, White), Square(7, 7) := Piece(Rook, White)
    ], Square(0, 3), Offset(1, 0)) == Some(Piece(Pawn, Black))
  {
  }

  lemma OpeningMove1020BlackLine2()
    ensures First(map[
      Square(0, 0) := Piece(Rook, Black), Square(0, 1) := Piece(Knight, Black),
      Square(0, 2) := Piece(Bishop, Black), Square(0, 3) := Piece(King, Black),
      Square(0, 4) := Piece(Queen, Black), Square(0, 5) := Piece(Bishop, Black),
      Square(0, 6) := Piece(Knight, Black), Square(0, 7) := Piece(Rook, Black),
      Square(1, 1) := Piece(Pawn, Black), Square(1, 2) := Piece(Pawn, Black),
      Square(1, 3) := Piece(Pawn, Black), Square(1, 4) := Piece(Pawn, Black),
      Square(1, 5) := Piece(Pawn, Black), Square(1, 6) := Piece(Pawn, Black),
      Square(1, 7) := Piece(Pawn, Black), Square(2, 0) := Piece(Pawn, Black),
      Square(6, 0) := Piece(Pawn, White), Square(6, 1) := Piece(Pawn, White),
      Square(6, 2) := Piece(Pawn, White), Square(6, 3) := Piece(Pawn, White),
      Square(6, 4) := Piece(Pawn, White), Square(6, 5) := Piece(Pawn, White),
      Square(6, 6) := Piece(Pawn, White), Square(6, 7) := Piece(Pawn, White),
      Square(7, 0) := Piece(Rook, White), Square(7, 1) := Piece(Knight, White),
      Square(7, 2) := Piece(Bishop, White), Square(7, 3) := Piece(King, White),
      Square(7, 4) := Piece(Queen, White), Square(7, 5) := Piece(Bishop, White),
      Square(7, 6) := Piece(Knight, White), Square(7, 7) := Piece(Rook, White)
    ], Square(0, 3), Offset(0, -1)) == Some(Piece(Bishop, Black))
  {
  }

  lemma OpeningMove1020BlackLine3()
    ensures First(map[
      Square(0, 0) := Piece(Rook, Black), Square(0, 1) := Piece(Knight, Black),
      Square(0, 2) := Piece(Bishop, Black), Square(0, 3) := Piece(King, Black),
      Square(0, 4) := Piece(Queen, Black), Square(0, 5) := Piece(Bishop, Black),
      Square(0, 6) := Piece(Knight, Black), Square(0, 7) := Piece(Rook, Black),
      Square(1, 1) := Piece(Pawn, Black), Square(1, 2) := Piece(Pawn, Black),
      Square(1, 3) := Piece(Pawn, Black), Square(1, 4) := Piece(Pawn, Black),
      Square(1, 5) := Piece(Pawn, Black), Square(1, 6) := Piece(Pawn, Black),
      Square(1, 7) := Piece(Pawn, Black), Square(2, 0) := Piece(Pawn, Black),
      Square(6, 0) := Piece(Pawn, White), Square(6, 1) := Piece(Pawn, White),
      Square(6, 2) := Piece(Pawn, White), Square(6, 3) := Piece(Pawn, White),
      Square(6, 4) := Piece(Pawn, White), Square(6, 5) := Piece(Pawn, White),
      Square(6, 6) := Piece(Pawn, White), Square(6, 7) := Piece(Pawn, White),
      Square(7, 0) := Piece(Rook, White), Square(7, 1) := Piece(Knight, White),
      Square(7, 2) := Piece(Bishop, White), Square(7, 3) := Piece(King, White),
      Square(7, 4) := Piece(Queen, White), Square(7, 5) := Piece(Bishop, White),
      Square(7, 6) := Piece(Knight, White), Square(7, 7) := Piece(Rook, White)
    ], Square(0, 3), Offset(0, 1)) == Some(Piece(Queen, Black))
  {
  }

  lemma OpeningMove1020BlackDiagonal0()
    ensures First(map[
      Square(0, 0) := Piece(Rook, Black), Square(0, 1) := Piece(Knight, Black),
      Square(0, 2) := Piece(Bishop, Black), Square(0, 3) := Piece(King, Black),
      Square(0, 4) := Piece(Queen, Black), Square(0, 5) := Piece(Bishop, Black),
      Square(0, 6) := Piece(Knight, Black), Square(0, 7) := Piece(Rook, Black),
      Square(1, 1) := Piece(Pawn, Black), Square(1, 2) := Piece(Pawn, Black),
      Square(1, 3) := Piece(Pawn, Black), Square(1, 4) := Piece(Pawn, Black),
      Square(1, 5) := Piece(Pawn, Black), Square(1, 6) := Piece(Pawn, Black),
      Square(1, 7) := Piece(Pawn, Black), Square(2, 0) := Piece(Pawn, Black),
      Square(6, 0) := Piece(Pawn, White), Square(6, 1) := Piece(Pawn, White),
      Square(6, 2) := Piece(Pawn, White), Square(6, 3) := Piece(Pawn, White),
      Square(6, 4) := Piece(Pawn, White), Square(6, 5) := Piece(Pawn, White),
      Square(6, 6) := Piece(Pawn, White), Square(6, 7) := Piece(Pawn, White),
      Square(7, 0) := Piece(Rook, White), Square(7, 1) := Piece(Knight, White),
      Square(7, 2) := Piece(Bishop, White), Square(7, 3) := Piece(King, White),
      Square(7, 4) := Piece(Queen, White), Square(7, 5) := Piece(Bishop, White),
      Square(7, 6) := Piece(Knight, White), Square(7, 7) := Piece(Rook, White)
    ], Square(0, 3), Offset(-1, 1)) == None
  {
  }

  lemma OpeningMove1020BlackDiagonal1()
    ensures First(map[
      Square(0, 0) := Piece(Rook, Black), Square(0, 1) := Piece(Knight, Black),
      Square(0, 2) := Piece(Bishop, Black), Square(0, 3) := Piece(King, Black),
      Square(0, 4) := Piece(Queen, Black), Square(0, 5) := Piece(Bishop, Black),
      Square(0, 6) := Piece(Knight, Black), Square(0, 7) := Piece(Rook, Black),
      Square(1, 1) := Piece(Pawn, Black), Square(1, 2) := Piece(Pawn, Black),
      Square(1, 3) := Piece(Pawn, Black), Square(1, 4) := Piece(Pawn, Black),
      Square(1, 5) := Piece(Pawn, Black), Square(1, 6) := Piece(Pawn, Black),
      Square(1, 7) := Piece(Pawn, Black), Square(2, 0) := Piece(Pawn, Black),
      Square(6, 0) := Piece(Pawn, White), Square(6, 1) := Piece(Pawn, White),
      Square(6, 2) := Piece(Pawn, White), Square(6, 3) := Piece(Pawn, White),
      Square(6, 4) := Piece(Pawn, White), Square(6, 5) := Piece(Pawn, White),
      Square(6, 6) := Piece(Pawn, White), Square(6, 7) := Piece(Pawn, White),
      Square(7, 0) := Piece(Rook, White), Square(7, 1) := Piece(Knight, White),
      Square(7, 2) := Piece(Bishop, White), Square(7, 3) := Piece(King, White),
      Square(7, 4) := Piece(Queen, White), Square(7, 5) := Piece(Bishop, White),
      Square(7, 6) := Piece(Knight, White), Square(7, 7) := Piece(Rook, White)
    ], Square(0, 3), Offset(-1, -1)) == None
  {
  }

  lemma OpeningMove1020BlackDiagonal2()
    ensures First(map[
      Square(0, 0) := Piece(Rook, Black), Square(0, 1) := Piece(Knight, Black),
      Square(0, 2) := Piece(Bishop, Black), Square(0, 3) := Piece(King, Black),
      Square(0, 4) := Piece(Queen, Black), Square(0, 5) := Piece(Bishop, Black),
      Square(0, 6) := Piece(Knight, Black), Square(0, 7) := Piece(Rook, Black),
      Square(1, 1) := Piece(Pawn, Black), Square(1, 2) := Piece(Pawn, Black),
      Square(1, 3) := Piece(Pawn, Black), Square(1, 4) := Piece(Pawn, Black),
      Square(1, 5) := Piece(Pawn, Black), Square(1, 6) := Piece(Pawn, Black),
      Square(1, 7) := Piece(Pawn, Black), Square(2, 0) := Piece(Pawn, Black),
      Square(6, 0) := Piece(Pawn, White), Square(6, 1) := Piece(Pawn, White),
      Square(6, 2) := Piece(Pawn, White), Square(6, 3) := Piece(Pawn, White),
      Square(6, 4) := Piece(Pawn, White), Square(6, 5) := Piece(Pawn, White),
      Square(6, 6) := Piece(Pawn, White), Square(6, 7) := Piece(Pawn, White),
      Square(7, 0) := Piece(Rook, White), Square(7, 1) := Piece(Knight, White),
      Square(7, 2) := Piece(Bishop, White), Square(7, 3) := Piece(King, White),
      Square(7, 4) := Piece(Queen, White), Square(7, 5) := Piece(Bishop, White),
      Square(7, 6) := Piece(Knight, White), Square(7, 7) := Piece(Rook, White)
    ], Square(0, 3), Offset(1, -1)) == Some(Piece(Pawn, Black))
  {
  }

  lemma OpeningMove1020BlackDiagonal3()
    ensures First(map[
      Square(0, 0) := Piece(Rook, Black), Square(0, 1) := Piece(Knight, Black),
      Square(0, 2) := Piece(Bishop, Black), Square(0, 3) := Piece(King, Black),
      Square(0, 4) := Piece(Queen, Black), Square(0, 5) := Piece(Bishop, Black),
      Square(0, 6) := Piece(Knight, Black), Square(0, 7) := Piece(Rook, Black),
      Square(1, 1) := Piece(Pawn, Black), Square(1, 2) := Piece(Pawn, Black),
      Square(1, 3) := Piece(Pawn, Black), Square(1, 4) := Piece(Pawn, Black),
      Square(1, 5) := Piece(Pawn, Black), Square(1, 6) := Piece(Pawn, Black),
      Square(1, 7) := Piece(Pawn, Black), Square(2, 0) := Piece(Pawn, Black),
      Square(6, 0) := Piece(Pawn, White), Square(6, 1) := Piece(Pawn, White),
      Square(6, 2) := Piece(Pawn, White), Square(6, 3) := Piece(Pawn, White),
      Square(6, 4) := Piece(Pawn, White), Square(6, 5) := Piece(Pawn, White),
      Square(6, 6) := Piece(Pawn, White), Square(6, 7) := Piece(Pawn, White),
      Square(7, 0) := Piece(Rook, White), Square(7, 1) := Piece(Knight, White),
      Square(7, 2) := Piece(Bishop, White), Square(7, 3) := Piece(King, White),
      Square(7, 4) := Piece(Queen, White), Square(7, 5) := Piece(Bishop, White),
      Square(7, 6) := Piece(Knight, White), Square(7, 7) := Piece(Rook, White)
    ], Square(0, 3), Offset(1, 1)) == Some(Piece(Pawn, Black))
  {
  }

  lemma OpeningMove1020BlackKnight0()
    ensures !LeapHit(map[
      Square(0, 0) := Piece(Rook, Black), Square(0, 1) := Piece(Knight, Black),
      Square(0, 2) := Piece(Bishop, Black), Square(0, 3) := Piece(King, Black),
      Square(0, 4) := Piece(Queen, Black), Square(0, 5) := Piece(Bishop, Black),
      Square(0, 6) := Piece(Knight, Black), Square(0, 7) := Piece(Rook, Black),
      Square(1, 1) := Piece(Pawn, Black), Square(1, 2) := Piece(Pawn, Black),
      Square(1, 3) := Piece(Pawn, Black), Square(1, 4) := Piece(Pawn, Black),
      Square(1, 5) := Piece(Pawn, Black), Square(1, 6) := Piece(Pawn, Black),
      Square(1, 7) := Piece(Pawn, Black), Square(2, 0) := Piece(Pawn, Black),
      Square(6, 0) := Piece(Pawn, White), Square(6, 1) := Piece(Pawn, White),
      Square(6, 2) := Piece(Pawn, White), Square(6, 3) := Piece(Pawn, White),
      Square(6, 4) := Piece(Pawn, White), Square(6, 5) := Piece(Pawn, White),
      Square(6, 6) := Piece(Pawn, White), Square(6, 7) := Piece(Pawn, White),
      Square(7, 0) := Piece(Rook, White), Square(7, 1) := Piece(Knight, White),
      Square(7, 2) := Piece(Bishop, White), Square(7, 3) := Piece(King, White),
      Square(7, 4) := Piece(Queen, White), Square(7, 5) := Piece(Bishop, White),
      Square(7, 6) := Piece(Knight, White), Square(7, 7) := Piece(Rook, White)
    ], Black, Square(0, 3), Offset(1, -2), Knight)
  {
  }

  lemma OpeningMove1020BlackKnight1()
    ensures !LeapHit(map[
      Square(0, 0) := Piece(Rook, Black), Square(0, 1) := Piece(Knight, Black),
      Square(0, 2) := Piece(Bishop, Black), Square(0, 3) := Piece(King, Black),
      Square(0, 4) := Piece(Queen, Black), Square(0, 5) := Piece(Bishop, Black),
      Square(0, 6) := Piece(Knight, Black), Square(0, 7) := Piece(Rook, Black),
      Square(1, 1) := Piece(Pawn, Black), Square(1, 2) := Piece(Pawn, Black),
      Square(1, 3) := Piece(Pawn, Black), Square(1, 4) := Piece(Pawn, Black),
      Square(1, 5) := Piece(Pawn, Black), Square(1, 6) := Piece(Pawn, Black),
      Square(1, 7) := Piece(Pawn, Black), Square(2, 0) := Piece(Pawn, Black),
      Square(6, 0) := Piece(Pawn, White), Square(6, 1) := Piece(Pawn, White),
      Square(6, 2) := Piece(Pawn, White), Square(6, 3) := Piece(Pawn, White),
      Square(6, 4) := Piece(Pawn, White), Square(6, 5) := Piece(Pawn, White),
      Square(6, 6) := Piece(Pawn, White), Square(6, 7) := Piece(Pawn, White),
      Square(7, 0) := Piece(Rook, White), Square(7, 1) := Piece(Knight, White),
      Square(7, 2) := Piece(Bishop, White), Square(7, 3) := Piece(King, White),
      Square(7, 4) := Piece(Queen, White), Square(7, 5) := Piece(Bishop, White),
      Square(7, 6) := Piece(Knight, White), Square(7, 7) := Piece(Rook, White)
    ], Black, Square(0, 3), Offset(1, 2), Knight)
  {
  }

  lemma OpeningMove1020BlackKnight2()
    ensures !LeapHit(map[
      Square(0, 0) := Piece(Rook, Black), Square(0, 1) := Piece(Knight, Black),
      Square(0, 2) := Piece(Bishop, Black), Square(0, 3) := Piece(King, Black),
      Square(0, 4) := Piece(Queen, Black), Square(0, 5) := Piece(Bishop, Black),
      Square(0, 6) := Piece(Knight, Black), Square(0, 7) := Piece(Rook, Black),
      Square(1, 1) := Piece(Pawn, Black), Square(1, 2) := Piece(Pawn, Black),
      Square(1, 3) := Piece(Pawn, Black), Square(1, 4) := Piece(Pawn, Black),
      Square(1, 5) := Piece(Pawn, Black), Square(1, 6) := Piece(Pawn, Black),
      Square(1, 7) := Piece(Pawn, Black), Square(2, 0) := Piece(Pawn, Black),
      Square(6, 0) := Piece(Pawn, White), Square(6, 1) := Piece(Pawn, White),
      Square(6, 2) := Piece(Pawn, White), Square(6, 3) := Piece(Pawn, White),
      Square(6, 4) := Piece(Pawn, White), Square(6, 5) := Piece(Pawn, White),
      Square(6, 6) := Piece(Pawn, White), Square(6, 7) := Piece(Pawn, White),
      Square(7, 0) := Piece(Rook, White), Square(7, 1) := Piece(Knight, White),
      Square(7, 2) := Piece(Bishop, White), Square(7, 3) := Piece(King, White),
      Square(7, 4) := Piece(Queen, White), Square(7, 5) := Piece(Bishop, White),
      Square(7, 6) := Piece(Knight, White), Square(7, 7) := Piece(Rook, White)
    ], Black, Square(0, 3), Offset(2, -1), Knight)
  {
  }

  lemma OpeningMove1020BlackKnight3()
    ensures !LeapHit(map[
      Square(0, 0) := Piece(Rook, Black), Square(0, 1) := Piece(Knight, Black),
      Square(0, 2) := Piece(Bishop, Black), Square(0, 3) := Piece(King, Black),
      Square(0, 4) := Piece(Queen, Black), Square(0, 5) := Piece(Bishop, Black),
      Square(0, 6) := Piece(Knight, Black), Square(0, 7) := Piece(Rook, Black),
      Square(1, 1) := Piece(Pawn, Black), Square(1, 2) := Piece(Pawn, Black),
      Square(1, 3) := Piece(Pawn, Black), Square(1, 4) := Piece(Pawn, Black),
      Square(1, 5) := Piece(Pawn, Black), Square(1, 6) := Piece(Pawn, Black),
      Square(1, 7) := Piece(Pawn, Black), Square(2, 0) := Piece(Pawn, Black),
      Square(6, 0) := Piece(Pawn, White), Square(6, 1) := Piece(Pawn, White),
      Square(6, 2) := Piece(Pawn, White), Square(6, 3) := Piece(Pawn, White),
      Square(6, 4) := Piece(Pawn, White), Square(6, 5) := Piece(Pawn, White),
      Square(6, 6) := Piece(Pawn, White), Square(6, 7) := Piece(Pawn, White),
      Square(7, 0) := Piece(Rook, White), Square(7, 1) := Piece(Knight, White),
      Square(7, 2) := Piece(Bishop, White), Square(7, 3) := Piece(King, White),
      Square(7, 4) := Piece(Queen, White), Square(7, 5) := Piece(Bishop, White),
      Square(7, 6) := Piece(Knight, White), Square(7, 7) := Piece(Rook, White)
    ], Black, Square(0, 3), Offset(2, 1), Knight)
  {
  }

  lemma OpeningMove1020BlackKnight4()
    ensures !LeapHit(map[
      Square(0, 0) := Piece(Rook, Black), Square(0, 1) := Piece(Knight, Black),
      Square(0, 2) := Piece(Bishop, Black), Square(0, 3) := Piece(King, Black),
      Square(0, 4) := Piece(Queen, Black), Square(0, 5) := Piece(Bishop, Black),
      Square(0, 6) := Piece(Knight, Black), Square(0, 7) := Piece(Rook, Black),
      Square(1, 1) := Piece(Pawn, Black), Square(1, 2) := Piece(Pawn, Black),
      Square(1, 3) := Piece(Pawn, Black), Square(1, 4) := Piece(Pawn, Black),
      Square(1, 5) := Piece(Pawn, Black), Square(1, 6) := Piece(Pawn, Black),
      Square(1, 7) := Piece(Pawn, Black), Square(2, 0) := Piece(Pawn, Black),
      Square(6, 0) := Piece(Pawn, White), Square(6, 1) := Piece(Pawn, White),
      Square(6, 2) := Piece(Pawn, White), Square(6, 3) := Piece(Pawn, White),
      Square(6, 4) := Piece(Pawn, White), Square(6, 5) := Piece(Pawn, White),
      Square(6, 6) := Piece(Pawn, White), Square(6, 7) := Piece(Pawn, White),
      Square(7, 0) := Piece(Rook, White), Square(7, 1) := Piece(Knight, White),
      Square(7, 2) := Piece(Bishop, White), Square(7, 3) := Piece(King, White),
      Square(7, 4) := Piece(Queen, White), Square(7, 5) := Piece(Bishop, White),
      Square(7, 6) := Piece(Knight, White), Square(7, 7) := Piece(Rook, White)
    ], Black, Square(0, 3), Offset(-1, -2), Knight)
  {
  }

  lemma OpeningMove1020BlackKnight5()
    ensures !LeapHit(map[
      Square(0, 0) := Piece(Rook, Black), Square(0, 1) := Piece(Knight, Black),
      Square(0, 2) := Piece(Bishop, Black), Square(0, 3) := Piece(King, Black),
      Square(0, 4) := Piece(Queen, Black), Square(0, 5) := Piece(Bishop, Black),
      Square(0, 6) := Piece(Knight, Black), Square(0, 7) := Piece(Rook, Black),
      Square(1, 1) := Piece(Pawn, Black), Square(1, 2) := Piece(Pawn, Black),
      Square(1, 3) := Piece(Pawn, Black), Square(1, 4) := Piece(Pawn, Black),
      Square(1, 5) := Piece(Pawn, Black), Square(1, 6) := Piece(Pawn, Black),
      Square(1, 7) := Piece(Pawn, Black), Square(2, 0) := Piece(Pawn, Black),
      Square(6, 0) := Piece(Pawn, White), Square(6, 1) := Piece(Pawn, White),
      Square(6, 2) := Piece(Pawn, White), Square(6, 3) := Piece(Pawn, White),
      Square(6, 4) := Piece(Pawn, White), Square(6, 5) := Piece(Pawn, White),
      Square(6, 6) := Piece(Pawn, White), Square(6, 7) := Piece(Pawn, White),
      Square(7, 0) := Piece(Rook, White), Square(7, 1) := Piece(Knight, White),
      Square(7, 2) := Piece(Bishop, White), Square(7, 3) := Piece(King, White),
      Square(7, 4) := Piece(Queen, White), Square(7, 5) := Piece(Bishop, White),
      Square(7, 6) := Piece(Knight, White), Square(7, 7) := Piece(Rook, White)
    ], Black, Square(0, 3), Offset(-1, 2), Knight)
  {
  }

  lemma OpeningMove1020BlackKnight6()
    ensures !LeapHit(map[
      Square(0, 0) := Piece(Rook, Black), Square(0, 1) := Piece(Knight, Black),
      Square(0, 2) := Piece(Bishop, Black), Square(0, 3) := Piece(King, Black),
      Square(0, 4) := Piece(Queen, Black), Square(0, 5) := Piece(Bishop, Black),
      Square(0, 6) := Piece(Knight, Black), Square(0, 7) := Piece(Rook, Black),
      Square(1, 1) := Piece(Pawn, Black), Square(1, 2) := Piece(Pawn, Black),
      Square(1, 3) := Piece(Pawn, Black), Square(1, 4) := Piece(Pawn, Black),
      Square(1, 5) := Piece(Pawn, Black), Square(1, 6) := Piece(Pawn, Black),
      Square(1, 7) := Piece(Pawn, Black), Square(2, 0) := Piece(Pawn, Black),
      Square(6, 0) := Piece(Pawn, White), Square(6, 1) := Piece(Pawn, White),
      Square(6, 2) := Piece(Pawn, White), Square(6, 3) := Piece(Pawn, White),
      Square(6, 4) := Piece(Pawn, White), Square(6, 5) := Piece(Pawn, White),
      Square(6, 6) := Piece(Pawn, White), Square(6, 7) := Piece(Pawn, White),
      Square(7, 0) := Piece(Rook, White), Square(7, 1) := Piece(Knight, White),
      Square(7, 2) := Piece(Bishop, White), Square(7, 3) := Piece(King, White),
      Square(7, 4) := Piece(Queen, White), Square(7, 5) := Piece(Bishop, White),
      Square(7, 6) := Piece(Knight, White), Square(7, 7) := Piece(Rook, White)
    ], Black, Square(0, 3), Offset(-2, -1), Knight)
  {
  }

  lemma OpeningMove1020BlackKnight7()
    ensures !LeapHit(map[
      Square(0, 0) := Piece(Rook, Black), Square(0, 1) := Piece(Knight, Black),
      Square(0, 2) := Piece(Bishop, Black), Square(0, 3) := Piece(King, Black),
      Square(0, 4) := Piece(Queen, Black), Square(0, 5) := Piece(Bishop, Black),
      Square(0, 6) := Piece(Knight, Black), Square(0, 7) := Piece(Rook, Black),
      Square(1, 1) := Piece(Pawn, Black), Square(1, 2) := Piece(Pawn, Black),
      Square(1, 3) := Piece(Pawn, Black), Square(1, 4) := Piece(Pawn, Black),
      Square(1, 5) := Piece(Pawn, Black), Square(1, 6) := Piece(Pawn, Black),
      Square(1, 7) := Piece(Pawn, Black), Square(2, 0) := Piece(Pawn, Black),
      Square(6, 0) := Piece(Pawn, White), Square(6, 1) := Piece(Pawn, White),
      Square(6, 2) := Piece(Pawn, White), Square(6, 3) := Piece(Pawn, White),
      Square(6, 4) := Piece(Pawn, White), Square(6, 5) := Piece(Pawn, White),
      Square(6, 6) := Piece(Pawn, White), Square(6, 7) := Piece(Pawn, White),
      Square(7, 0) := Piece(Rook, White), Square(7, 1) := Piece(Knight, White),
      Square(7, 2) := Piece(Bishop, White), Square(7, 3) := Piece(King, White),
      Square(7, 4) := Piece(Queen, White), Square(7, 5) := Piece(Bishop, White),
      Square(7, 6) := Piece(Knight, White), Square(7, 7) := Piece(Rook, White)
    ], Black, Square(0, 3), Offset(-2, 1), Knight)
  {
  }

  lemma OpeningMove1020BlackStep0()
    ensures !LeapHit(map[
      Square(0, 0) := Piece(Rook, Black), Square(0, 1) := Piece(Knight, Black),
      Square(0, 2) := Piece(Bishop, Black), Square(0, 3) := Piece(King, Black),
      Square(0, 4) := Piece(Queen, Black), Square(0, 5) := Piece(Bishop, Black),
      Square(0, 6) := Piece(Knight, Black), Square(0, 7) := Piece(Rook, Black),
      Square(1, 1) := Piece(Pawn, Black), Square(1, 2) := Piece(Pawn, Black),
      Square(1, 3) := Piece(Pawn, Black), Square(1, 4) := Piece(Pawn, Black),
      Square(1, 5) := Piece(Pawn, Black), Square(1, 6) := Piece(Pawn, Black),
      Square(1, 7) := Piece(Pawn, Black), Square(2, 0) := Piece(Pawn, Black),
      Square(6, 0) := Piece(Pawn, White), Square(6, 1) := Piece(Pawn, White),
      Square(6, 2) := Piece(Pawn, White), Square(6, 3) := Piece(Pawn, White),
      Square(6, 4) := Piece(Pawn, White), Square(6, 5) := Piece(Pawn, White),
      Square(6, 6) := Piece(Pawn, White), Square(6, 7) := Piece(Pawn, White),
      Square(7, 0) := Piece(Rook, White), Square(7, 1) := Piece(Knight, White),
      Square(7, 2) := Piece(Bishop, White), Square(7, 3) := Piece(King, White),
      Square(7, 4) := Piece(Queen, White), Square(7, 5) := Piece(Bishop, White),
      Square(7, 6) := Piece(Knight, White), Square(7, 7) := Piece(Rook, White)
    ], Black, Square(0, 3), Offset(0, -1), King)
  {
  }

  lemma OpeningMove1020BlackStep1()
    ensures !LeapHit(map[
      Square(0, 0) := Piece(Rook, Black), Square(0, 1) := Piece(Knight, Black),
      Square(0, 2) := Piece(Bishop, Black), Square(0, 3) := Piece(King, Black),
      Square(0, 4) := Piece(Queen, Black), Square(0, 5) := Piece(Bishop, Black),
      Square(0, 6) := Piece(Knight, Black), Square(0, 7) := Piece(Rook, Black),
      Square(1, 1) := Piece(Pawn, Black), Square(1, 2) := Piece(Pawn, Black),
      Square(1, 3) := Piece(Pawn, Black), Square(1, 4) := Piece(Pawn, Black),
      Square(1, 5) := Piece(Pawn, Black), Square(1, 6) := Piece(Pawn, Black),
      Square(1, 7) := Piece(Pawn, Black), Square(2, 0) := Piece(Pawn, Black),
      Square(6, 0) := Piece(Pawn, White), Square(6, 1) := Piece(Pawn, White),
      Square(6, 2) := Piece(Pawn, White), Square(6, 3) := Piece(Pawn, White),
      Square(6, 4) := Piece(Pawn, White), Square(6, 5) := Piece(Pawn, White),
      Square(6, 6) := Piece(Pawn, White), Square(6, 7) := Piece(Pawn, White),
      Square(7, 0) := Piece(Rook, White), Square(7, 1) := Piece(Knight, White),
      Square(7, 2) := Piece(Bishop, White), Square(7, 3) := Piece(King, White),
      Square(7, 4) := Piece(Queen, White), Square(7, 5) := Piece(Bishop, White),
      Square(7, 6) := Piece(Knight, White), Square(7, 7) := Piece(Rook, White)
    ], Black, Square(0, 3), Offset(0, 1), King)
  {
  }

  lemma OpeningMove1020BlackStep2()
    ensures !LeapHit(map[
      Square(0, 0) := Piece(Rook, Black), Square(0, 1) := Piece(Knight, Black),
      Square(0, 2) := Piece(Bishop, Black), Square(0, 3) := Piece(King, Black),
      Square(0, 4) := Piece(Queen, Black), Square(0, 5) := Piece(Bishop, Black),
      Square(0, 6) := Piece(Knight, Black), Square(0, 7) := Piece(Rook, Black),
      Square(1, 1) := Piece(Pawn, Black), Square(1, 2) := Piece(Pawn, Black),
      Square(1, 3) := Piece(Pawn, Black), Square(1, 4) := Piece(Pawn, Black),
      Square(1, 5) := Piece(Pawn, Black), Square(1, 6) := Piece(Pawn, Black),
      Square(1, 7) := Piece(Pawn, Black), Square(2, 0) := Piece(Pawn, Black),
      Square(6, 0) := Piece(Pawn, White), Square(6, 1) := Piece(Pawn, White),
      Square(6, 2) := Piece(Pawn, White), Square(6, 3) := Piece(Pawn, White),
      Square(6, 4) := Piece(Pawn, White), Square(6, 5) := Piece(Pawn, White),
      Square(6, 6) := Piece(Pawn, White), Square(6, 7) := Piece(Pawn, White),
      Square(7, 0) := Piece(Rook, White), Square(7, 1) := Piece(Knight, White),
      Square(7, 2) := Piece(Bishop, White), Square(7, 3) := Piece(King, White),
      Square(7, 4) := Piece(Queen, White), Square(7, 5) := Piece(Bishop, White),
      Square(7, 6) := Piece(Knight, White), Square(7, 7) := Piece(Rook, White)
    ], Black, Square(0, 3), Offset(1, -1), King)
  {
  }

  lemma OpeningMove1020BlackStep3()
    ensures !LeapHit(map[
      Square(0, 0) := Piece(Rook, Black), Square(0, 1) := Piece(Knight, Black),
      Square(0, 2) := Piece(Bishop, Black), Square(0, 3) := Piece(King, Black),
      Square(0, 4) := Piece(Queen, Black), Square(0, 5) := Piece(Bishop, Black),
      Square(0, 6) := Piece(Knight, Black), Square(0, 7) := Piece(Rook, Black),
      Square(1, 1) := Piece(Pawn, Black), Square(1, 2) := Piece(Pawn, Black),
      Square(1, 3) := Piece(Pawn, Black), Square(1, 4) := Piece(Pawn, Black),
      Square(1, 5) := Piece(Pawn, Black), Square(1, 6) := Piece(Pawn, Black),
      Square(1, 7) := Piece(Pawn, Black), Square(2, 0) := Piece(Pawn, Black),
      Square(6, 0) := Piece(Pawn, White), Square(6, 1) := Piece(Pawn, White),
      Square(6, 2) := Piece(Pawn, White), Square(6, 3) := Piece(Pawn, White),
      Square(6, 4) := Piece(Pawn, White), Square(6, 5) := Piece(Pawn, White),
      Square(6, 6) := Piece(Pawn, White), Square(6, 7) := Piece(Pawn, White),
      Square(7, 0) := Piece(Rook, White), Square(7, 1) := Piece(Knight, White),
      Square(7, 2) := Piece(Bishop, White), Square(7, 3) := Piece(King, White),
      Square(7, 4) := Piece(Queen, White), Square(7, 5) := Piece(Bishop, White),
      Square(7, 6) := Piece(Knight, White), Square(7, 7) := Piece(Rook, White)
    ], Black, Square(0, 3), Offset(1, 0), King)
  {
  }

  lemma OpeningMove1020BlackStep4()
    ensures !LeapHit(map[
      Square(0, 0) := Piece(Rook, Black), Square(0, 1) := Piece(Knight, Black),
      Square(0, 2) := Piece(Bishop, Black), Square(0, 3) := Piece(King, Black),
      Square(0, 4) := Piece(Queen, Black), Square(0, 5) := Piece(Bishop, Black),
      Square(0, 6) := Piece(Knight, Black), Square(0, 7) := Piece(Rook, Black),
      Square(1, 1) := Piece(Pawn, Black), Square(1, 2) := Piece(Pawn, Black),
      Square(1, 3) := Piece(Pawn, Black), Square(1, 4) := Piece(Pawn, Black),
      Square(1, 5) := Piece(Pawn, Black), Square(1, 6) := Piece(Pawn, Black),
      Square(1, 7) := Piece(Pawn, Black), Square(2, 0) := Piece(Pawn, Black),
      Square(6, 0) := Piece(Pawn, White), Square(6, 1) := Piece(Pawn, White),
      Square(6, 2) := Piece(Pawn, White), Square(6, 3) := Piece(Pawn, White),
      Square(6, 4) := Piece(Pawn, White), Square(6, 5) := Piece(Pawn, White),
      Square(6, 6) := Piece(Pawn, White), Square(6, 7) := Piece(Pawn, White),
      Square(7, 0) := Piece(Rook, White), Square(7, 1) := Piece(Knight, White),
      Square(7, 2) := Piece(Bishop, White), Square(7, 3) := Piece(King, White),
      Square(7, 4) := Piece(Queen, White), Square(7, 5) := Piece(Bishop, White),
      Square(7, 6) := Piece(Knight, White), Square(7, 7) := Piece(Rook, White)
    ], Black, Square(0, 3), Offset(1, 1), King)
  {
  }

  lemma OpeningMove1020BlackStep5()
    ensures !LeapHit(map[
      Square(0, 0) := Piece(Rook, Black), Square(0, 1) := Piece(Knight, Black),
      Square(0, 2) := Piece(Bishop, Black), Square(0, 3) := Piece(King, Black),
      Square(0, 4) := Piece(Queen, Black), Square(0, 5) := Piece(Bishop, Black),
      Square(0, 6) := Piece(Knight, Black), Square(0, 7) := Piece(Rook, Black),
      Square(1, 1) := Piece(Pawn, Black), Square(1, 2) := Piece(Pawn, Black),
      Square(1, 3) := Piece(Pawn, Black), Square(1, 4) := Piece(Pawn, Black),
      Square(1, 5) := Piece(Pawn, Black), Square(1, 6) := Piece(Pawn, Black),
      Square(1, 7) := Piece(Pawn, Black), Square(2, 0) := Piece(Pawn, Black),
      Square(6, 0) := Piece(Pawn, White), Square(6, 1) := Piece(Pawn, White),
      Square(6, 2) := Piece(Pawn, White), Square(6, 3) := Piece(Pawn, White),
      Square(6, 4) := Piece(Pawn, White), Square(6, 5) := Piece(Pawn, White),
      Square(6, 6) := Piece(Pawn, White), Square(6, 7) := Piece(Pawn, White),
      Square(7, 0) := Piece(Rook, White), Square(7, 1) := Piece(Knight, White),
      Square(7, 2) := Piece(Bishop, White), Square(7, 3) := Piece(King, White),
      Square(7, 4) := Piece(Queen, White), Square(7, 5) := Piece(Bishop, White),
      Square(7, 6) := Piece(Knight, White), Square(7, 7) := Piece(Rook, White)
    ], Black, Square(0, 3), Offset(-1, -1), King)
  {
  }

  lemma OpeningMove1020BlackStep6()
    ensures !LeapHit(map[
      Square(0, 0) := Piece(Rook, Black), Square(0, 1) := Piece(Knight, Black),
      Square(0, 2) := Piece(Bishop, Black), Square(0, 3) := Piece(King, Black),
      Square(0, 4) := Piece(Queen, Black), Square(0, 5) := Piece(Bishop, Black),
      Square(0, 6) := Piece(Knight, Black), Square(0, 7) := Piece(Rook, Black),
      Square(1, 1) := Piece(Pawn, Black), Square(1, 2) := Piece(Pawn, Black),
      Square(1, 3) := Piece(Pawn, Black), Square(1, 4) := Piece(Pawn, Black),
      Square(1, 5) := Piece(Pawn, Black), Square(1, 6) := Piece(Pawn, Black),
      Square(1, 7) := Piece(Pawn, Black), Square(2, 0) := Piece(Pawn, Black),
      Square(6, 0) := Piece(Pawn, White), Square(6, 1) := Piece(Pawn, White),
      Square(6, 2) := Piece(Pawn, White), Square(6, 3) := Piece(Pawn, White),
      Square(6, 4) := Piece(Pawn, White), Square(6, 5) := Piece(Pawn, White),
      Square(6, 6) := Piece(Pawn, White), Square(6, 7) := Piece(Pawn, White),
      Square(7, 0) := Piece(Rook, White), Square(7, 1) := Piece(Knight, White),
      Square(7, 2) := Piece(Bishop, White), Square(7, 3) := Piece(King, White),
      Square(7, 4) := Piece(Queen, White), Square(7, 5) := Piece(Bishop, White),
      Square(7, 6) := Piece(Knight, White), Square(7, 7) := Piece(Rook, White)
    ], Black, Square(0, 3), Offset(-1, 0), King)
  {
  }

  lemma OpeningMove1020BlackStep7()
    ensures !LeapHit(map[
      Square(0, 0) := Piece(Rook, Black), Square(0, 1) := Piece(Knight, Black),
      Square(0, 2) := Piece(Bishop, Black), Square(0, 3) := Piece(King, Black),
      Square(0, 4) := Piece(Queen, Black), Square(0, 5) := Piece(Bishop, Black),
      Square(0, 6) := Piece(Knight, Black), Square(0, 7) := Piece(Rook, Black),
      Square(1, 1) := Piece(Pawn, Black), Square(1, 2) := Piece(Pawn, Black),
      Square(1, 3) := Piece(Pawn, Black), Square(1, 4) := Piece(Pawn, Black),
      Square(1, 5) := Piece(Pawn, Black), Square(1, 6) := Piece(Pawn, Black),
      Square(1, 7) := Piece(Pawn, Black), Square(2, 0) := Piece(Pawn, Black),
      Square(6, 0) := Piece(Pawn, White), Square(6, 1) := Piece(Pawn, White),
      Square(6, 2) := Piece(Pawn, White), Square(6, 3) := Piece(Pawn, White),
      Square(6, 4) := Piece(Pawn, White), Square(6, 5) := Piece(Pawn, White),
      Square(6, 6) := Piece(Pawn, White), Square(6, 7) := Piece(Pawn, White),
      Square(7, 0) := Piece(Rook, White), Square(7, 1) := Piece(Knight, White),
      Square(7, 2) := Piece(Bishop, White), Square(7, 3) := Piece(King, White),
      Square(7, 4) := Piece(Queen, White), Square(7, 5) := Piece(Bishop, White),
      Square(7, 6) := Piece(Knight, White), Square(7, 7) := Piece(Rook, White)
    ], Black, Square(0, 3), Offset(-1, 1), King)
  {
  }

  lemma OpeningMove1020BlackPawn()
    ensures !PawnThreat(map[
      Square(0, 0) := Piece(Rook, Black), Square(0, 1) := Piece(Knight, Black),
      Square(0, 2) := Piece(Bishop, Black), Square(0, 3) := Piece(King, Black),
      Square(0, 4) := Piece(Queen, Black), Square(0, 5) := Piece(Bishop, Black),
      Square(0, 6) := Piece(Knight, Black), Square(0, 7) := Piece(Rook, Black),
      Square(1, 1) := Piece(Pawn, Black), Square(1, 2) := Piece(Pawn, Black),
      Square(1, 3) := Piece(Pawn, Black), Square(1, 4) := Piece(Pawn, Black),
      Square(1, 5) := Piece(Pawn, Black), Square(1, 6) := Piece(Pawn, Black),
      Square(1, 7) := Piece(Pawn, Black), Square(2, 0) := Piece(Pawn, Black),
      Square(6, 0) := Piece(Pawn, White), Square(6, 1) := Piece(Pawn, White),
      Square(6, 2) := Piece(Pawn, White), Square(6, 3) := Piece(Pawn, White),
      Square(6, 4) := Piece(Pawn, White), Square(6, 5) := Piece(Pawn, White),
      Square(6, 6) := Piece(Pawn, White), Square(6, 7) := Piece(Pawn, White),
      Square(7, 0) := Piece(Rook, White), Square(7, 1) := Piece(Knight, White),
      Square(7, 2) := Piece(Bishop, White), Square(7, 3) := Piece(King, White),
      Square(7, 4) := Piece(Queen, White), Square(7, 5) := Piece(Bishop, White),
      Square(7, 6) := Piece(Knight, White), Square(7, 7) := Piece(Rook, White)
    ], Black, Square(0, 3))
  {
  }

  lemma OpeningMove1020BlackSafe()
    ensures !KingInDanger(map[
      Square(0, 0) := Piece(Rook, Black), Square(0, 1) := Piece(Knight, Black),
      Square(0, 2) := Piece(Bishop, Black), Square(0, 3) := Piece(King, Black),
      Square(0, 4) := Piece(Queen, Black), Square(0, 5) := Piece(Bishop, Black),
      Square(0, 6) := Piece(Knight, Black), Square(0, 7) := Piece(Rook, Black),
      Square(1, 1) := Piece(Pawn, Black), Square(1, 2) := Piece(Pawn, Black),
      Square(1, 3) := Piece(Pawn, Black), Square(1, 4) := Piece(Pawn, Black),
      Square(1, 5) := Piece(Pawn, Black), Square(1, 6) := Piece(Pawn, Black),
      Square(1, 7) := Piece(Pawn, Black), Square(2, 0) := Piece(Pawn, Black),
      Square(6, 0) := Piece(Pawn, White), Square(6, 1) := Piece(Pawn, White),
      Square(6, 2) := Piece(Pawn, White), Square(6, 3) := Piece(Pawn, White),
      Square(6, 4) := Piece(Pawn, White), Square(6, 5) := Piece(Pawn, White),
      Square(6, 6) := Piece(Pawn, White), Square(6, 7) := Piece(Pawn, White),
      Square(7, 0) := Piece(Rook, White), Square(7, 1) := Piece(Knight, White),
      Square(7, 2) := Piece(Bishop, White), Square(7, 3) := Piece(King, White),
      Square(7, 4) := Piece(Queen, White), Square(7, 5) := Piece(Bishop, White),
      Square(7, 6) := Piece(Knight, White), Square(7, 7) := Piece(Rook, White)
    ], Black, Square(0, 3))
  {
    OpeningMove1020BlackLine0();
    OpeningMove1020BlackLine1();
    OpeningMove1020BlackLine2();
    OpeningMove1020BlackLine3();
    StraightParts(map[
      Square(0, 0) := Piece(Rook, Black), Square(0, 1) := Piece(Knight, Black),
      Square(0, 2) := Piece(Bishop, Black), Square(0, 3) := Piece(King, Black),
      Square(0, 4) := Piece(Queen, Black), Square(0, 5) := Piece(Bishop, Black),
      Square(0, 6) := Piece(Knight, Black), Square(0, 7) := Piece(Rook, Black),
      Square(1, 1) := Piece(Pawn, Black), Square(1, 2) := Piece(Pawn, Black),
      Square(1, 3) := Piece(Pawn, Black), Square(1, 4) := Piece(Pawn, Black),
      Square(1, 5) := Piece(Pawn, Black), Square(1, 6) := Piece(Pawn, Black),
      Square(1, 7) := Piece(Pawn, Black), Square(2, 0) := Piece(Pawn, Black),
      Square(6, 0) := Piece(Pawn, White), Square(6, 1) := Piece(Pawn, White),
      Square(6, 2) := Piece(Pawn, White), Square(6, 3) := Piece(Pawn, White),
      Square(6, 4) := Piece(Pawn, White), Square(6, 5) := Piece(Pawn, White),
      Square(6, 6) := Piece(Pawn, White), Square(6, 7) := Piece(Pawn, White),
      Square(7, 0) := Piece(Rook, White), Square(7, 1) := Piece(Knight, White),
      Square(7, 2) := Piece(Bishop, White), Square(7, 3) := Piece(King, White),
      Square(7, 4) := Piece(Queen, White), Square(7, 5) := Piece(Bishop, White),
      Square(7, 6) := Piece(Knight, White), Square(7, 7) := Piece(Rook, White)
    ], Black, Square(0, 3), Rook);
    OpeningMove1020BlackDiagonal0();
    OpeningMove1020BlackDiagonal1();
    OpeningMove1020BlackDiagonal2();
    OpeningMove1020BlackDiagonal3();
    DiagonalParts(map[
      Square(0, 0) := Piece(Rook, Black), Square(0, 1) := Piece(Knight, Black),
      Square(0, 2) := Piece(Bishop, Black), Square(0, 3) := Piece(King, Black),
      Square(0, 4) := Piece(Queen, Black), Square(0, 5) := Piece(Bishop, Black),
      Square(0, 6) := Piece(Knight, Black), Square(0, 7) := Piece(Rook, Black),
      Square(1, 1) := Piece(Pawn, Black), Square(1, 2) := Piece(Pawn, Black),
      Square(1, 3) := Piece(Pawn, Black), Square(1, 4) := Piece(Pawn, Black),
      Square(1, 5) := Piece(Pawn, Black), Square(1, 6) := Piece(Pawn, Black),
      Square(1, 7) := Piece(Pawn, Black), Square(2, 0) := Piece(Pawn, Black),
      Square(6, 0) := Piece(Pawn, White), Square(6, 1) := Piece(Pawn, White),
      Square(6, 2) := Piece(Pawn, White), Square(6, 3) := Piece(Pawn, White),
      Square(6, 4) := Piece(Pawn, White), Square(6, 5) := Piece(Pawn, White),
      Square(6, 6) := Piece(Pawn, White), Square(6, 7) := Piece(Pawn, White),
      Square(7, 0) := Piece(Rook, White), Square(7, 1) := Piece(Knight, White),
      Square(7, 2) := Piece(Bishop, White), Square(7, 3) := Piece(King, White),
      Square(7, 4) := Piece(Queen, White), Square(7, 5) := Piece(Bishop, White),
      Square(7, 6) := Piece(Knight, White), Square(7, 7) := Piece(Rook, White)
    ], Black, Square(0, 3), Bishop);
    OpeningMove1020BlackKnight0();
    OpeningMove1020BlackKnight1();
    OpeningMove1020BlackKnight2();
    OpeningMove1020BlackKnight3();
    OpeningMove1020BlackKnight4();
    OpeningMove1020BlackKnight5();
    OpeningMove1020BlackKnight6();
    OpeningMove1020BlackKnight7();
    KnightParts(map[
      Square(0, 0) := Piece(Rook, Black), Square(0, 1) := Piece(Knight, Black),
      Square(0, 2) := Piece(Bishop, Black), Square(0, 3) := Piece(King, Black),
      Square(0, 4) := Piece(Queen, Black), Square(0, 5) := Piece(Bishop, Black),
      Square(0, 6) := Piece(Knight, Black), Square(0, 7) := Piece(Rook, Black),
      Square(1, 1) := Piece(Pawn, Black), Square(1, 2) := Piece(Pawn, Black),
      Square(1, 3) := Piece(Pawn, Black), Square(1, 4) := Piece(Pawn, Black),
      Square(1, 5) := Piece(Pawn, Black), Square(1, 6) := Piece(Pawn, Black),
      Square(1, 7) := Piece(Pawn, Black), Square(2, 0) := Piece(Pawn, Black),
      Square(6, 0) := Piece(Pawn, White), Square(6, 1) := Piece(Pawn, White),
      Square(6, 2) := Piece(Pawn, White), Square(6, 3) := Piece(Pawn, White),
      Square(6, 4) := Piece(Pawn, White), Square(6, 5) := Piece(Pawn, White),
      Square(6, 6) := Piece(Pawn, White), Square(6, 7) := Piece(Pawn, White),
      Square(7, 0) := Piece(Rook, White), Square(7, 1) := Piece(Knight, White),
      Square(7, 2) := Piece(Bishop, White), Square(7, 3) := Piece(King, White),
      Square(7, 4) := Piece(Queen, White), Square(7, 5) := Piece(Bishop, White),
      Square(7, 6) := Piece(Knight, White), Square(7, 7) := Piece(Rook, White)
    ], Black, Square(0, 3));
    OpeningMove1020BlackStep0();
    OpeningMove1020BlackStep1();
    OpeningMove1020BlackStep2();
    OpeningMove1020BlackStep3();
    OpeningMove1020BlackStep4();
    OpeningMove1020BlackStep5();
    OpeningMove1020BlackStep6();
    OpeningMove1020BlackStep7();
    KingStepParts(map[
      Square(0, 0) := Piece(Rook, Black), Square(0, 1) := Piece(Knight, Black),
      Square(0, 2) := Piece(Bishop, Black), Square(0, 3) := Piece(King, Black),
      Square(0, 4) := Piece(Queen, Black), Square(0, 5) := Piece(Bishop, Black),
      Square(0, 6) := Piece(Knight, Black), Square(0, 7) := Piece(Rook, Black),
      Square(1, 1) := Piece(Pawn, Black), Square(1, 2) := Piece(Pawn, Black),
      Square(1, 3) := Piece(Pawn, Black), Square(1, 4) := Piece(Pawn, Black),
      Square(1, 5) := Piece(Pawn, Black), Square(1, 6) := Piece(Pawn, Black),
      Square(1, 7) := Piece(Pawn, Black), Square(2, 0) := Piece(Pawn, Black),
      Square(6, 0) := Piece(Pawn, White), Square(6, 1) := Piece(Pawn, White),
      Square(6, 2) := Piece(Pawn, White), Square(6, 3) := Piece(Pawn, White),
      Square(6, 4) := Piece(Pawn, White), Square(6, 5) := Piece(Pawn, White),
      Square(6, 6) := Piece(Pawn, White), Square(6, 7) := Piece(Pawn, White),
      Square(7, 0) := Piece(Rook, White), Square(7, 1) := Piece(Knight, White),
      Square(7, 2) := Piece(Bishop, White), Square(7, 3) := Piece(King, White),
      Square(7, 4) := Piece(Queen, White), Square(7, 5) := Piece(Bishop, White),
      Square(7, 6) := Piece(Knight, White), Square(7, 7) := Piece(Rook, White)
    ], Black, Square(0, 3));
    OpeningMove1020BlackPawn();
    DangerParts(map[
      Square(0, 0) := Piece(Rook, Black), Square(0, 1) := Piece(Knight, Black),
      Square(0, 2) := Piece(Bishop, Black), Square(0, 3) := Piece(King, Black),
      Square(0, 4) := Piece(Queen, Black), Square(0, 5) := Piece(Bishop, Black),
      Square(0, 6) := Piece(Knight, Black), Square(0, 7) := Piece(Rook, Black),
      Square(1, 1) := Piece(Pawn, Black), Square(1, 2) := Piece(Pawn, Black),
      Square(1, 3) := Piece(Pawn, Black), Square(1, 4) := Piece(Pawn, Black),
      Square(1, 5) := Piece(Pawn, Black), Square(1, 6) := Piece(Pawn, Black),
      Square(1, 7) := Piece(Pawn, Black), Square(2, 0) := Piece(Pawn, Black),
      Square(6, 0) := Piece(Pawn, White), Square(6, 1) := Piece(Pawn, White),
      Square(6, 2) := Piece(Pawn, White), Square(6, 3) := Piece(Pawn, White),
      Square(6, 4) := Piece(Pawn, White), Square(6, 5) := Piece(Pawn, White),
      Square(6, 6) := Piece(Pawn, White), Square(6, 7) := Piece(Pawn, White),
      Square(7, 0) := Piece(Rook, White), Square(7, 1) := Piece(Knight, White),
      Square(7, 2) := Piece(Bishop, White), Square(7, 3) := Piece(King, White),
      Square(7, 4) := Piece(Queen, White), Square(7, 5) := Piece(Bishop, White),
      Square(7, 6) := Piece(Knight, White), Square(7, 7) := Piece(Rook, White)
    ], Black, Square(0, 3));
  }

  lemma OpeningMove1020KeepsBlack()
    ensures !Exposes(Opening, Black, Square(1, 0), Square(2, 0))
  {
    OpeningReady();
    OpeningMove1020();
    OpeningAt10();
    OpeningMove1020BlackSafe();
    ExposesGuarded(Opening, Black, Square(1, 0), Square(2, 0), map[
      Square(0, 0) := Piece(Rook, Black), Square(0, 1) := Piece(Knight, Black),
      Square(0, 2) := Piece(Bishop, Black), Square(0, 3) := Piece(King, Black),
      Square(0, 4) := Piece(Queen, Black), Square(0, 5) := Piece(Bishop, Black),
      Square(0, 6) := Piece(Knight, Black), Square(0, 7) := Piece(Rook, Black),
      Square(1, 1) := Piece(Pawn, Black), Square(1, 2) := Piece(Pawn, Black),
      Square(1, 3) := Piece(Pawn, Black), Square(1, 4) := Piece(Pawn, Black),
      Square(1, 5) := Piece(Pawn, Black), Square(1, 6) := Piece(Pawn, Black),
      Square(1, 7) := Piece(Pawn, Black), Square(2, 0) := Piece(Pawn, Black),
      Square(6, 0) := Piece(Pawn, White), Square(6, 1) := Piece(Pawn, White),
      Square(6, 2) := Piece(Pawn, White), Square(6, 3) := Piece(Pawn, White),
      Square(6, 4) := Piece(Pawn, White), Square(6, 5) := Piece(Pawn, White),
      Square(6, 6) := Piece(Pawn, White), Square(6, 7) := Piece(Pawn, White),
      Square(7, 0) := Piece(Rook, White), Square(7, 1) := Piece(Knight, White),
      Square(7, 2) := Piece(Bishop, White), Square(7, 3) := Piece(King, White),
      Square(7, 4) := Piece(Queen, White), Square(7, 5) := Piece(Bishop, White),
      Square(7, 6) := Piece(Knight, White), Square(7, 7) := Piece(Rook, White)
    ]);
  }

  lemma BackRankMoves06()
    ensures Moves(BackRank.board, Piece(King, Black), Square(0, 6)) == [Square(0, 5), Square(0, 7)]
  {
  }

  lemma BackRankReady()
    ensures Ready(BackRank) && BackRank.turn == White
    ensures KingSquare(BackRank, White) == Square(7, 6) && KingSquare(BackRank, Black) == Square(0, 6)
  {
  }

  lemma BackRankAt06()
    ensures Square(0, 6) in BackRank.board && BackRank.board[Square(0, 6)] == Piece(King, Black)
  {
  }

  lemma BackRankMove0607()
    ensures Relocate(BackRank.board, Square(0, 6), Square(0, 7)) == map[
      Square(0, 0) := Piece(Rook, White), Square(0, 7) := Piece(King, Black),
      Square(1, 5) := Piece(Pawn, Black), Square(1, 6) := Piece(Pawn, Black),
      Square(1, 7) := Piece(Pawn, Black), Square(7, 6) := Piece(King, White)
    ]
  {
  }

  lemma BackRankMove0607Line2()
    ensures First(map[
      Square(0, 0) := Piece(Rook, White), Square(0, 7) := Piece(King, Black),
      Square(1, 5) := Piece(Pawn, Black), Square(1, 6) := Piece(Pawn, Black),
      Square(1, 7) := Piece(Pawn, Black), Square(7, 6) := Piece(King, White)
    ], Square(0, 7), Offset(0, -1)) == Some(Piece(Rook, White))
  {
  }

  lemma BackRankMove0607Check()
    ensures KingInDanger(map[
      Square(0, 0) := Piece(Rook, White), Square(0, 7) := Piece(King, Black),
      Square(1, 5) := Piece(Pawn, Black), Square(1, 6) := Piece(Pawn, Black),
      Square(1, 7) := Piece(Pawn, Black), Square(7, 6) := Piece(King, White)
    ], Black, Square(0, 7))
  {
    BackRankMove0607Line2();
    StraightParts(map[
      Square(0, 0) := Piece(Rook, White), Square(0, 7) := Piece(King, Black),
      Square(1, 5) := Piece(Pawn, Black), Square(1, 6) := Piece(Pawn, Black),
      Square(1, 7) := Piece(Pawn, Black), Square(7, 6) := Piece(King, White)
    ], Black, Square(0, 7), Rook);
    DangerParts(map[
      Square(0, 0) := Piece(Rook, White), Square(0, 7) := Piece(King, Black),
      Square(1, 5) := Piece(Pawn, Black), Square(1, 6) := Piece(Pawn, Black),
      Square(1, 7) := Piece(Pawn, Black), Square(7, 6) := Piece(King, White)
    ], Black, Square(0, 7));
  }

  lemma BackRankMove0607ExposesBlack()
    ensures Exposes(BackRank, Black, Square(0, 6), Square(0, 7))
  {
    BackRankReady();
    BackRankMove0607();
    BackRankAt06();
    BackRankMove0607Check();
    ExposesKing(BackRank, Black, Square(0, 6), Square(0, 7), map[
      Square(0, 0) := Piece(Rook, White), Square(0, 7) := Piece(King, Black),
      Square(1, 5) := Piece(Pawn, Black), Square(1, 6) := Piece(Pawn, Black),
      Square(1, 7) := Piece(Pawn, Black), Square(7, 6) := Piece(King, White)
    ], Black);
  }

  lemma BackRankMove0605()
    ensures Relocate(BackRank.board, Square(0, 6), Square(0, 5)) == map[
      Square(0, 0) := Piece(Rook, White), Square(0, 5) := Piece(King, Black),
      Square(1, 5) := Piece(Pawn, Black), Square(1, 6) := Piece(Pawn, Black),
      Square(1, 7) := Piece(Pawn, Black), Square(7, 6) := Piece(King, White)
    ]
  {
  }

  lemma BackRankMove0605Line2()
    ensures First(map[
      Square(0, 0) := Piece(Rook, White), Square(0, 5) := Piece(King, Black),
      Square(1, 5) := Piece(Pawn, Black), Square(1, 6) := Piece(Pawn, Black),
      Square(1, 7) := Piece(Pawn, Black), Square(7, 6) := Piece(King, White)
    ], Square(0, 5), Offset(0, -1)) == Some(Piece(Rook, White))
  {
  }

  lemma BackRankMove0605Check()
    ensures KingInDanger(map[
      Square(0, 0) := Piece(Rook, White), Square(0, 5) := Piece(King, Black),
      Square(1, 5) := Piece(Pawn, Black), Square(1, 6) := Piece(Pawn, Black),
      Square(1, 7) := Piece(Pawn, Black), Square(7, 6) := Piece(King, White)
    ], Black, Square(0, 5))
  {
    BackRankMove0605Line2();
    StraightParts(map[
      Square(0, 0) := Piece(Rook, White), Square(0, 5) := Piece(King, Black),
      Square(1, 5) := Piece(Pawn, Black), Square(1, 6) := Piece(Pawn, Black),
      Square(1, 7) := Piece(Pawn, Black), Square(7, 6) := Piece(King, White)
    ], Black, Square(0, 5), Rook);
    DangerParts(map[
      Square(0, 0) := Piece(Rook, White), Square(0, 5) := Piece(King, Black),
      Square(1, 5) := Piece(Pawn, Black), Square(1, 6) := Piece(Pawn, Black),
      Square(1, 7) := Piece(Pawn, Black), Square(7, 6) := Piece(King, White)
    ], Black, Square(0, 5));
  }

  lemma BackRankMove0605ExposesBlack()
    ensures Exposes(BackRank, Black, Square(0, 6), Square(0, 5))
  {
    BackRankReady();
    BackRankMove0605();
    BackRankAt06();
    BackRankMove0605Check();
    ExposesKing(BackRank, Black, Square(0, 6), Square(0, 5), map[
      Square(0, 0) := Piece(Rook, White), Square(0, 5) := Piece(King, Black),
      Square(1, 5) := Piece(Pawn, Black), Square(1, 6) := Piece(Pawn, Black),
      Square(1, 7) := Piece(Pawn, Black), Square(7, 6) := Piece(King, White)
    ], Black);
  }

  lemma BackRankSplit060507()
    ensures [Square(0, 5), Square(0, 7)] == [Square(0, 5)] + ([Square(0, 7)] + [])
  {
  }

  lemma BackRankStuck06()
    ensures Stuck(BackRank, Black, Square(0, 6))
  {
    BackRankReady();
    BackRankAt06();
    BackRankMoves06();
    BackRankMove0607ExposesBlack();
    BackRankMove0605ExposesBlack();
    BackRankSplit060507();
    SafeNil(BackRank, Black, Square(0, 6));
    SafeDrop(BackRank, Black, Square(0, 6), Square(0, 7), [], []);
    SafeDrop(BackRank, Black, Square(0, 6), Square(0, 5), [Square(0, 7)] + [], []);
  }

  lemma BackRankMoves15()
    ensures Moves(BackRank.board, Piece(Pawn, Black), Square(1, 5)) == [Square(2, 5), Square(3, 5)]
  {
  }

  lemma BackRankAt15()
    ensures Square(1, 5) in BackRank.board && BackRank.board[Square(1, 5)] == Piece(Pawn, Black)
  {
  }

  lemma BackRankMove1535()
    ensures Relocate(BackRank.board, Square(1, 5), Square(3, 5)) == map[
      Square(0, 0) := Piece(Rook, White), Square(0, 6) := Piece(King, Black),
      Square(1, 6) := Piece(Pawn, Black), Square(1, 7) := Piece(Pawn, Black),
      Square(3, 5) := Piece(Pawn, Black), Square(7, 6) := Piece(King, White)
    ]
  {
  }

  lemma BackRankMove1535BlackLine2()
    ensures First(map[
      Square(0, 0) := Piece(Rook, White), Square(0, 6) := Piece(King, Black),
      Square(1, 6) := Piece(Pawn, Black), Square(1, 7) := Piece(Pawn, Black),
      Square(3, 5) := Piece(Pawn, Black), Square(7, 6) := Piece(King, White)
    ], Square(0, 6), Offset(0, -1)) == Some(Piece(Rook, White))
  {
  }

  lemma BackRankMove1535BlackCheck()
    ensures KingInDanger(map[
      Square(0, 0) := Piece(Rook, White), Square(0, 6) := Piece(King, Black),
      Square(1, 6) := Piece(Pawn, Black), Square(1, 7) := Piece(Pawn, Black),
      Square(3, 5) := Piece(Pawn, Black), Square(7, 6) := Piece(King, White)
    ], Black, Square(0, 6))
  {
    BackRankMove1535BlackLine2();
    StraightParts(map[
      Square(0, 0) := Piece(Rook, White), Square(0, 6) := Piece(King, Black),
      Square(1, 6) := Piece(Pawn, Black), Square(1, 7) := Piece(Pawn, Black),
      Square(3, 5) := Piece(Pawn, Black), Square(7, 6) := Piece(King, White)
    ], Black, Square(0, 6), Rook);
    DangerParts(map[
      Square(0, 0) := Piece(Rook, White), Square(0, 6) := Piece(King, Black),
      Square(1, 6) := Piece(Pawn, Black), Square(1, 7) := Piece(Pawn, Black),
      Square(3, 5) := Piece(Pawn, Black), Square(7, 6) := Piece(King, White)
    ], Black, Square(0, 6));
  }

  lemma BackRankMove1535ExposesBlack()
    ensures Exposes(BackRank, Black, Square(1, 5), Square(3, 5))
  {
    BackRankReady();
    BackRankMove1535();
    BackRankAt15();
    BackRankMove1535BlackCheck();
    ExposesGuarded(BackRank, Black, Square(1, 5), Square(3, 5), map[
      Square(0, 0) := Piece(Rook, White), Square(0, 6) := Piece(King, Black),
      Square(1, 6) := Piece(Pawn, Black), Square(1, 7) := Piece(Pawn, Black),
      Square(3, 5) := Piece(Pawn, Black), Square(7, 6) := Piece(King, White)
    ]);
  }

  lemma BackRankMove1525()
    ensures Relocate(BackRank.board, Square(1, 5), Square(2, 5)) == map[
      Square(0, 0) := Piece(Rook, White), Square(0, 6) := Piece(King, Black),
      Square(1, 6) := Piece(Pawn, Black), Square(1, 7) := Piece(Pawn, Black),
      Square(2, 5) := Piece(Pawn, Black), Square(7, 6) := Piece(King, White)
    ]
  {
  }

  lemma BackRankMove1525BlackLine2()
    ensures First(map[
      Square(0, 0) := Piece(Rook, White), Square(0, 6) := Piece(King, Black),
      Square(1, 6) := Piece(Pawn, Black), Square(1, 7) := Piece(Pawn, Black),
      Square(2, 5) := Piece(Pawn, Black), Square(7, 6) := Piece(King, White)
    ], Square(0, 6), Offset(0, -1)) == Some(Piece(Rook, White))
  {
  }

  lemma BackRankMove1525BlackCheck()
    ensures KingInDanger(map[
      Square(0, 0) := Piece(Rook, White), Square(0, 6) := Piece(King, Black),
      Square(1, 6) := Piece(Pawn, Black), Square(1, 7) := Piece(Pawn, Black),
      Square(2, 5) := Piece(Pawn, Black), Square(7, 6) := Piece(King, White)
    ], Black, Square(0, 6))
  {
    BackRankMove1525BlackLine2();
    StraightParts(map[
      Square(0, 0) := Piece(Rook, White), Square(0, 6) := Piece(King, Black),
      Square(1, 6) := Piece(Pawn, Black), Square(1, 7) := Piece(Pawn, Black),
      Square(2, 5) := Piece(Pawn, Black), Square(7, 6) := Piece(King, White)
    ], Black, Square(0, 6), Rook);
    DangerParts(map[
      Square(0, 0) := Piece(Rook, White), Square(0, 6) := Piece(King, Black),
      Square(1, 6) := Piece(Pawn, Black), Square(1, 7) := Piece(Pawn, Black),
      Square(2, 5) := Piece(Pawn, Black), Square(7, 6) := Piece(King, White)
    ], Black, Square(0, 6));
  }

  lemma BackRankMove1525ExposesBlack()
    ensures Exposes(BackRank, Black, Square(1, 5), Square(2, 5))
  {
    BackRankReady();
    BackRankMove1525();
    BackRankAt15();
    BackRankMove1525BlackCheck();
    ExposesGuarded(BackRank, Black, Square(1, 5), Square(2, 5), map[
      Square(0, 0) := Piece(Rook, White), Square(0, 6) := Piece(King, Black),
      Square(1, 6) := Piece(Pawn, Black), Square(1, 7) := Piece(Pawn, Black),
      Square(2, 5) := Piece(Pawn, Black), Square(7, 6) := Piece(King, White)
    ]);
  }

  lemma BackRankSplit152535()
    ensures [Square(2, 5), Square(3, 5)] == [Square(2, 5)] + ([Square(3, 5)] + [])
  {
  }

  lemma BackRankStuck15()
    ensures Stuck(BackRank, Black, Square(1, 5))
  {
    BackRankReady();
    BackRankAt15();
    BackRankMoves15();
    BackRankMove1535ExposesBlack();
    BackRankMove1525ExposesBlack();
    BackRankSplit152535();
    SafeNil(BackRank, Black, Square(1, 5));
    SafeDrop(BackRank, Black, Square(1, 5), Square(3, 5), [], []);
    SafeDrop(BackRank, Black, Square(1, 5), Square(2, 5), [Square(3, 5)] + [], []);
  }

  lemma BackRankMoves16()
    ensures Moves(BackRank.board, Piece(Pawn, Black), Square(1, 6)) == [Square(2, 6), Square(3, 6)]
  {
  }

  lemma BackRankAt16()
    ensures Square(1, 6) in BackRank.board && BackRank.board[Square(1, 6)] == Piece(Pawn, Black)
  {
  }

  lemma BackRankMove1636()
    ensures Relocate(BackRank.board, Square(1, 6), Square(3, 6)) == map[
      Square(0, 0) := Piece(Rook, White), Square(0, 6) := Piece(King, Black),
      Square(1, 5) := Piece(Pawn, Black), Square(1, 7) := Piece(Pawn, Black),
      Square(3, 6) := Piece(Pawn, Black), Square(7, 6) := Piece(King, White)
    ]
  {
  }

  lemma BackRankMove1636BlackLine2()
    ensures First(map[
      Square(0, 0) := Piece(Rook, White), Square(0, 6) := Piece(King, Black),
      Square(1, 5) := Piece(Pawn, Black), Square(1, 7) := Piece(Pawn, Black),
      Square(3, 6) := Piece(Pawn, Black), Square(7, 6) := Piece(King, White)
    ], Square(0, 6), Offset(0, -1)) == Some(Piece(Rook, White))
  {
  }

  lemma BackRankMove1636BlackCheck()
    ensures KingInDanger(map[
      Square(0, 0) := Piece(Rook, White), Square(0, 6) := Piece(King, Black),
      Square(1, 5) := Piece(Pawn, Black), Square(1, 7) := Piece(Pawn, Black),
      Square(3, 6) := Piece(Pawn, Black), Square(7, 6) := Piece(King, White)
    ], Black, Square(0, 6))
  {
    BackRankMove1636BlackLine2();
    StraightParts(map[
      Square(0, 0) := Piece(Rook, White), Square(0, 6) := Piece(King, Black),
      Square(1, 5) := Piece(Pawn, Black), Square(1, 7) := Piece(Pawn, Black),
      Square(3, 6) := Piece(Pawn, Black), Square(7, 6) := Piece(King, White)
    ], Black, Square(0, 6), Rook);
    DangerParts(map[
      Square(0, 0) := Piece(Rook, White), Square(0, 6) := Piece(King, Black),
      Square(1, 5) := Piece(Pawn, Black), Square(1, 7) := Piece(Pawn, Black),
      Square(3, 6) := Piece(Pawn, Black), Square(7, 6) := Piece(King, White)
    ], Black, Square(0, 6));
  }

  lemma BackRankMove1636ExposesBlack()
    ensures Exposes(BackRank, Black, Square(1, 6), Square(3, 6))
  {
    BackRankReady();
    BackRankMove1636();
    BackRankAt16();
    BackRankMove1636BlackCheck();
    ExposesGuarded(BackRank, Black, Square(1, 6), Square(3, 6), map[
      Square(0, 0) := Piece(Rook, White), Square(0, 6) := Piece(King, Black),
      Square(1, 5) := Piece(Pawn, Black), Square(1, 7) := Piece(Pawn, Black),
      Square(3, 6) := Piece(Pawn, Black), Square(7, 6) := Piece(King, White)
    ]);
  }

  lemma BackRankMove1626()
    ensures Relocate(BackRank.board, Square(1, 6), Square(2, 6)) == map[
      Square(0, 0) := Piece(Rook, White), Square(0, 6) := Piece(King, Black),
      Square(1, 5) := Piece(Pawn, Black), Square(1, 7) := Piece(Pawn, Black),
      Square(2, 6) := Piece(Pawn, Black), Square(7, 6) := Piece(King, White)
    ]
  {
  }

  lemma BackRankMove1626BlackLine2()
    ensures First(map[
      Square(0, 0) := Piece(Rook, White), Square(0, 6) := Piece(King, Black),
      Square(1, 5) := Piece(Pawn, Black), Square(1, 7) := Piece(Pawn, Black),
      Square(2, 6) := Piece(Pawn, Black), Square(7, 6) := Piece(King, White)
    ], Square(0, 6), Offset(0, -1)) == Some(Piece(Rook, White))
  {
  }

  lemma BackRankMove1626BlackCheck()
    ensures KingInDanger(map[
      Square(0, 0) := Piece(Rook, White), Square(0, 6) := Piece(King, Black),
      Square(1, 5) := Piece(Pawn, Black), Square(1, 7) := Piece(Pawn, Black),
      Square(2, 6) := Piece(Pawn, Black), Square(7, 6) := Piece(King, White)
    ], Black, Square(0, 6))
  {
    BackRankMove1626BlackLine2();
    StraightParts(map[
      Square(0, 0) := Piece(Rook, White), Square(0, 6) := Piece(King, Black),
      Square(1, 5) := Piece(Pawn, Black), Square(1, 7) := Piece(Pawn, Black),
      Square(2, 6) := Piece(Pawn, Black), Square(7, 6) := Piece(King, White)
    ], Black, Square(0, 6), Rook);
    DangerParts(map[
      Square(0, 0) := Piece(Rook, White), Square(0, 6) := Piece(King, Black),
      Square(1, 5) := Piece(Pawn, Black), Square(1, 7) := Piece(Pawn, Black),
      Square(2, 6) := Piece(Pawn, Black), Square(7, 6) := Piece(King, White)
    ], Black, Square(0, 6));
  }

  lemma BackRankMove1626ExposesBlack()
    ensures Exposes(BackRank, Black, Square(1, 6), Square(2, 6))
  {
    BackRankReady();
    BackRankMove1626();
    BackRankAt16();
    BackRankMove1626BlackCheck();
    ExposesGuarded(BackRank, Black, Square(1, 6), Square(2, 6), map[
      Square(0, 0) := Piece(Rook, White), Square(0, 6) := Piece(King, Black),
      Square(1, 5) := Piece(Pawn, Black), Square(1, 7) := Piece(Pawn, Black),
      Square(2, 6) := Piece(Pawn, Black), Square(7, 6) := Piece(King, White)
    ]);
  }

  lemma BackRankSplit162636()
    ensures [Square(2, 6), Square(3, 6)] == [Square(2, 6)] + ([Square(3, 6)] + [])
  {
  }

  lemma BackRankStuck16()
    ensures Stuck(BackRank, Black, Square(1, 6))
  {
    BackRankReady();
    BackRankAt16();
    BackRankMoves16();
    BackRankMove1636ExposesBlack();
    BackRankMove1626ExposesBlack();
    BackRankSplit162636();
    SafeNil(BackRank, Black, Square(1, 6));
    SafeDrop(BackRank, Black, Square(1, 6), Square(3, 6), [], []);
    SafeDrop(BackRank, Black, Square(1, 6), Square(2, 6), [Square(3, 6)] + [], []);
  }

  lemma BackRankMoves17()
    ensures Moves(BackRank.board, Piece(Pawn, Black), Square(1, 7)) == [Square(2, 7), Square(3, 7)]
  {
  }

  lemma BackRankAt17()
    ensures Square(1, 7) in BackRank.board && BackRank.board[Square(1, 7)] == Piece(Pawn, Black)
  {
  }

  lemma BackRankMove1737()
    ensures Relocate(BackRank.board, Square(1, 7), Square(3, 7)) == map[
      Square(0, 0) := Piece(Rook, White), Square(0, 6) := Piece(King, Black),
      Square(1, 5) := Piece(Pawn, Black), Square(1, 6) := Piece(Pawn, Black),
      Square(3, 7) := Piece(Pawn, Black), Square(7, 6) := Piece(King, White)
    ]
  {
  }

  lemma BackRankMove1737BlackLine2()
    ensures First(map[
      Square(0, 0) := Piece(Rook, White), Square(0, 6) := Piece(King, Black),
      Square(1, 5) := Piece(Pawn, Black), Square(1, 6) := Piece(Pawn, Black),
      Square(3, 7) := Piece(Pawn, Black), Square(7, 6) := Piece(King, White)
    ], Square(0, 6), Offset(0, -1)) == Some(Piece(Rook, White))
  {
  }

  lemma BackRankMove1737BlackCheck()
    ensures KingInDanger(map[
      Square(0, 0) := Piece(Rook, White), Square(0, 6) := Piece(King, Black),
      Square(1, 5) := Piece(Pawn, Black), Square(1, 6) := Piece(Pawn, Black),
      Square(3, 7) := Piece(Pawn, Black), Square(7, 6) := Piece(King, White)
    ], Black, Square(0, 6))
  {
    BackRankMove1737BlackLine2();
    StraightParts(map[
      Square(0, 0) := Piece(Rook, White), Square(0, 6) := Piece(King, Black),
      Square(1, 5) := Piece(Pawn, Black), Square(1, 6) := Piece(Pawn, Black),
      Square(3, 7) := Piece(Pawn, Black), Square(7, 6) := Piece(King, White)
    ], Black, Square(0, 6), Rook);
    DangerParts(map[
      Square(0, 0) := Piece(Rook, White), Square(0, 6) := Piece(King, Black),
      Square(1, 5) := Piece(Pawn, Black), Square(1, 6) := Piece(Pawn, Black),
      Square(3, 7) := Piece(Pawn, Black), Square(7, 6) := Piece(King, White)
    ], Black, Square(0, 6));
  }

  lemma BackRankMove1737ExposesBlack()
    ensures Exposes(BackRank, Black, Square(1, 7), Square(3, 7))
  {
    BackRankReady();
    BackRankMove1737();
    BackRankAt17();
    BackRankMove1737BlackCheck();
    ExposesGuarded(BackRank, Black, Square(1, 7), Square(3, 7), map[
      Square(0, 0) := Piece(Rook, White), Square(0, 6) := Piece(King, Black),
      Square(1, 5) := Piece(Pawn, Black), Square(1, 6) := Piece(Pawn, Black),
      Square(3, 7) := Piece(Pawn, Black), Square(7, 6) := Piece(King, White)
    ]);
  }

  lemma BackRankMove1727()
    ensures Relocate(BackRank.board, Square(1, 7), Square(2, 7)) == map[
      Square(0, 0) := Piece(Rook, White), Square(0, 6) := Piece(King, Black),
      Square(1, 5) := Piece(Pawn, Black), Square(1, 6) := Piece(Pawn, Black),
      Square(2, 7) := Piece(Pawn, Black), Square(7, 6) := Piece(King, White)
    ]
  {
  }

  lemma BackRankMove1727BlackLine2()
    ensures First(map[
      Square(0, 0) := Piece(Rook, White), Square(0, 6) := Piece(King, Black),
      Square(1, 5) := Piece(Pawn, Black), Square(1, 6) := Piece(Pawn, Black),
      Square(2, 7) := Piece(Pawn, Black), Square(7, 6) := Piece(King, White)
    ], Square(0, 6), Offset(0, -1)) == Some(Piece(Rook, White))
  {
  }

  lemma BackRankMove1727BlackCheck()
    ensures KingInDanger(map[
      Square(0, 0) := Piece(Rook, White), Square(0, 6) := Piece(King, Black),
      Square(1, 5) := Piece(Pawn, Black), Square(1, 6) := Piece(Pawn, Black),
      Square(2, 7) := Piece(Pawn, Black), Square(7, 6) := Piece(King, White)
    ], Black, Square(0, 6))
  {
    BackRankMove1727BlackLine2();
    StraightParts(map[
      Square(0, 0) := Piece(Rook, White), Square(0, 6) := Piece(King, Black),
      Square(1, 5) := Piece(Pawn, Black), Square(1, 6) := Piece(Pawn, Black),
      Square(2, 7) := Piece(Pawn, Black), Square(7, 6) := Piece(King, White)
    ], Black, Square(0, 6), Rook);
    DangerParts(map[
      Square(0, 0) := Piece(Rook, White), Square(0, 6) := Piece(King, Black),
      Square(1, 5) := Piece(Pawn, Black), Square(1, 6) := Piece(Pawn, Black),
      Square(2, 7) := Piece(Pawn, Black), Square(7, 6) := Piece(King, White)
    ], Black, Square(0, 6));
  }

  lemma BackRankMove1727ExposesBlack()
    ensures Exposes(BackRank, Black, Square(1, 7), Square(2, 7))
  {
    BackRankReady();
    BackRankMove1727();
    BackRankAt17();
    BackRankMove1727BlackCheck();
    ExposesGuarded(BackRank, Black, Square(1, 7), Square(2, 7), map[
      Square(0, 0) := Piece(Rook, White), Square(0, 6) := Piece(King, Black),
      Square(1, 5) := Piece(Pawn, Black), Square(1, 6) := Piece(Pawn, Black),
      Square(2, 7) := Piece(Pawn, Black), Square(7, 6) := Piece(King, White)
    ]);
  }

  lemma BackRankSplit172737()
    ensures [Square(2, 7), Square(3, 7)] == [Square(2, 7)] + ([Square(3, 7)] + [])
  {
  }

  lemma BackRankStuck17()
    ensures Stuck(BackRank, Black, Square(1, 7))
  {
    BackRankReady();
    BackRankAt17();
    BackRankMoves17();
    BackRankMove1737ExposesBlack();
    BackRankMove1727ExposesBlack();
    BackRankSplit172737();
    SafeNil(BackRank, Black, Square(1, 7));
    SafeDrop(BackRank, Black, Square(1, 7), Square(3, 7), [], []);
    SafeDrop(BackRank, Black, Square(1, 7), Square(2, 7), [Square(3, 7)] + [], []);
  }

  lemma BackRankOwnersBlack()
    ensures forall s :: Holds(BackRank.board, s, Black) ==> s in {Square(0, 6), Square(1, 5), Square(1, 6), Square(1, 7)}
  {
  }

  lemma BackRankMoves76()
    ensures Moves(BackRank.board, Piece(King, White), Square(7, 6)) == [Square(7, 5), Square(7, 7), Square(6, 5), Square(6, 6), Square(6, 7)]
  {
  }

  lemma BackRankMove7675()
    ensures Relocate(BackRank.board, Square(7, 6), Square(7, 5)) == map[
      Square(0, 0) := Piece(Rook, White), Square(0, 6) := Piece(King, Black),
      Square(1, 5) := Piece(Pawn, Black), Square(1, 6) := Piece(Pawn, Black),
      Square(1, 7) := Piece(Pawn, Black), Square(7, 5) := Piece(King, White)
    ]
  {
  }

  lemma BackRankAt76()
    ensures Square(7, 6) in BackRank.board && BackRank.board[Square(7, 6)] == Piece(King, White)
  {
  }

  lemma BackRankMove7675Line0()
    ensures First(map[
      Square(0, 0) := Piece(Rook, White), Square(0, 6) := Piece(King, Black),
      Square(1, 5) := Piece(Pawn, Black), Square(1, 6) := Piece(Pawn, Black),
      Square(1, 7) := Piece(Pawn, Black), Square(7, 5) := Piece(King, White)
    ], Square(7, 5), Offset(-1, 0)) == Some(Piece(Pawn, Black))
  {
  }

  lemma BackRankMove7675Line1()
    ensures First(map[
      Square(0, 0) := Piece(Rook, White), Square(0, 6) := Piece(King, Black),
      Square(1, 5) := Piece(Pawn, Black), Square(1, 6) := Piece(Pawn, Black),
      Square(1, 7) := Piece(Pawn, Black), Square(7, 5) := Piece(King, White)
    ], Square(7, 5), Offset(1, 0)) == None
  {
  }

  lemma BackRankMove7675Line2()
    ensures First(map[
      Square(0, 0) := Piece(Rook, White), Square(0, 6) := Piece(King, Black),
      Square(1, 5) := Piece(Pawn, Black), Square(1, 6) := Piece(Pawn, Black),
      Square(1, 7) := Piece(Pawn, Black), Square(7, 5) := Piece(King, White)
    ], Square(7, 5), Offset(0, -1)) == None
  {
  }

  lemma BackRankMove7675Line3()
    ensures First(map[
      Square(0, 0) := Piece(Rook, White), Square(0, 6) := Piece(King, Black),
      Square(1, 5) := Piece(Pawn, Black), Square(1, 6) := Piece(Pawn, Black),
      Square(1, 7) := Piece(Pawn, Black), Square(7, 5) := Piece(King, White)
    ], Square(7, 5), Offset(0, 1)) == None
  {
  }

  lemma BackRankMove7675Diagonal0()
    ensures First(map[
      Square(0, 0) := Piece(Rook, White), Square(0, 6) := Piece(King, Black),
      Square(1, 5) := Piece(Pawn, Black), Square(1, 6) := Piece(Pawn, Black),
      Square(1, 7) := Piece(Pawn, Black), Square(7, 5) := Piece(King, White)
    ], Square(7, 5), Offset(-1, 1)) == None
  {
  }

  lemma BackRankMove7675Diagonal1()
    ensures First(map[
      Square(0, 0) := Piece(Rook, White), Square(0, 6) := Piece(King, Black),
      Square(1, 5) := Piece(Pawn, Black), Square(1, 6) := Piece(Pawn, Black),
      Square(1, 7) := Piece(Pawn, Black), Square(7, 5) := Piece(King, White)
    ], Square(7, 5), Offset(-1, -1)) == None
  {
  }

  lemma BackRankMove7675Diagonal2()
    ensures First(map[
      Square(0, 0) := Piece(Rook, White), Square(0, 6) := Piece(King, Black),
      Square(1, 5) := Piece(Pawn, Black), Square(1, 6) := Piece(Pawn, Black),
      Square(1, 7) := Piece(Pawn, Black), Square(7, 5) := Piece(King, White)
    ], Square(7, 5), Offset(1, -1)) == None
  {
  }

  lemma BackRankMove7675Diagonal3()
    ensures First(map[
      Square(0, 0) := Piece(Rook, White), Square(0, 6) := Piece(King, Black),
      Square(1, 5) := Piece(Pawn, Black), Square(1, 6) := Piece(Pawn, Black),
      Square(1, 7) := Piece(Pawn, Black), Square(7, 5) := Piece(King, White)
    ], Square(7, 5), Offset(1, 1)) == None
  {
  }

  lemma BackRankMove7675Knight0()
    ensures !LeapHit(map[
      Square(0, 0) := Piece(Rook, White), Square(0, 6) := Piece(King, Black),
      Square(1, 5) := Piece(Pawn, Black), Square(1, 6) := Piece(Pawn, Black),
      Square(1, 7) := Piece(Pawn, Black), Square(7, 5) := Piece(King, White)
    ], White, Square(7, 5), Offset(1, -2), Knight)
  {
  }

  lemma BackRankMove7675Knight1()
    ensures !LeapHit(map[
      Square(0, 0) := Piece(Rook, White), Square(0, 6) := Piece(King, Black),
      Square(1, 5) := Piece(Pawn, Black), Square(1, 6) := Piece(Pawn, Black),
      Square(1, 7) := Piece(Pawn, Black), Square(7, 5) := Piece(King, White)
    ], White, Square(7, 5), Offset(1, 2), Knight)
  {
  }

  lemma BackRankMove7675Knight2()
    ensures !LeapHit(map[
      Square(0, 0) := Piece(Rook, White), Square(0, 6) := Piece(King, Black),
      Square(1, 5) := Piece(Pawn, Black), Square(1, 6) := Piece(Pawn, Black),
      Square(1, 7) := Piece(Pawn, Black), Square(7, 5) := Piece(King, White)
    ], White, Square(7, 5), Offset(2, -1), Knight)
  {
  }

  lemma BackRankMove7675Knight3()
    ensures !LeapHit(map[
      Square(0, 0) := Piece(Rook, White), Square(0, 6) := Piece(King, Black),
      Square(1, 5) := Piece(Pawn, Black), Square(1, 6) := Piece(Pawn, Black),
      Square(1, 7) := Piece(Pawn, Black), Square(7, 5) := Piece(King, White)
    ], White, Square(7, 5), Offset(2, 1), Knight)
  {
  }

  lemma BackRankMove7675Knight4()
    ensures !LeapHit(map[
      Square(0, 0) := Piece(Rook, White), Square(0, 6) := Piece(King, Black),
      Square(1, 5) := Piece(Pawn, Black), Square(1, 6) := Piece(Pawn, Black),
      Square(1, 7) := Piece(Pawn, Black), Square(7, 5) := Piece(King, White)
    ], White, Square(7, 5), Offset(-1, -2), Knight)
  {
  }

  lemma BackRankMove7675Knight5()
    ensures !LeapHit(map[
      Square(0, 0) := Piece(Rook, White), Square(0, 6) := Piece(King, Black),
      Square(1, 5) := Piece(Pawn, Black), Square(1, 6) := Piece(Pawn, Black),
      Square(1, 7) := Piece(Pawn, Black), Square(7, 5) := Piece(King, White)
    ], White, Square(7, 5), Offset(-1, 2), Knight)
  {
  }

  lemma BackRankMove7675Knight6()
    ensures !LeapHit(map[
      Square(0, 0) := Piece(Rook, White), Square(0, 6) := Piece(King, Black),
      Square(1, 5) := Piece(Pawn, Black), Square(1, 6) := Piece(Pawn, Black),
      Square(1, 7) := Piece(Pawn, Black), Square(7, 5) := Piece(King, White)
    ], White, Square(7, 5), Offset(-2, -1), Knight)
  {
  }

  lemma BackRankMove7675Knight7()
    ensures !LeapHit(map[
      Square(0, 0) := Piece(Rook, White), Square(0, 6) := Piece(King, Black),
      Square(1, 5) := Piece(Pawn, Black), Square(1, 6) := Piece(Pawn, Black),
      Square(1, 7) := Piece(Pawn, Black), Square(7, 5) := Piece(King, White)
    ], White, Square(7, 5), Offset(-2, 1), Knight)
  {
  }

  lemma BackRankMove7675Step0()
    ensures !LeapHit(map[
      Square(0, 0) := Piece(Rook, White), Square(0, 6) := Piece(King, Black),
      Square(1, 5) := Piece(Pawn, Black), Square(1, 6) := Piece(Pawn, Black),
      Square(1, 7) := Piece(Pawn, Black), Square(7, 5) := Piece(King, White)
    ], White, Square(7, 5), Offset(0, -1), King)
  {
  }

  lemma BackRankMove7675Step1()
    ensures !LeapHit(map[
      Square(0, 0) := Piece(Rook, White), Square(0, 6) := Piece(King, Black),
      Square(1, 5) := Piece(Pawn, Black), Square(1, 6) := Piece(Pawn, Black),
      Square(1, 7) := Piece(Pawn, Black), Square(7, 5) := Piece(King, White)
    ], White, Square(7, 5), Offset(0, 1), King)
  {
  }

  lemma BackRankMove7675Step2()
    ensures !LeapHit(map[
      Square(0, 0) := Piece(Rook, White), Square(0, 6) := Piece(King, Black),
      Square(1, 5) := Piece(Pawn, Black), Square(1, 6) := Piece(Pawn, Black),
      Square(1, 7) := Piece(Pawn, Black), Square(7, 5) := Piece(King, White)
    ], White, Square(7, 5), Offset(1, -1), King)
  {
  }

  lemma BackRankMove7675Step3()
    ensures !LeapHit(map[
      Square(0, 0) := Piece(Rook, White), Square(0, 6) := Piece(King, Black),
      Square(1, 5) := Piece(Pawn, Black), Square(1, 6) := Piece(Pawn, Black),
      Square(1, 7) := Piece(Pawn, Black), Square(7, 5) := Piece(King, White)
    ], White, Square(7, 5), Offset(1, 0), King)
  {
  }

  lemma BackRankMove7675Step4()
    ensures !LeapHit(map[
      Square(0, 0) := Piece(Rook, White), Square(0, 6) := Piece(King, Black),
      Square(1, 5) := Piece(Pawn, Black), Square(1, 6) := Piece(Pawn, Black),
      Square(1, 7) := Piece(Pawn, Black), Square(7, 5) := Piece(King, White)
    ], White, Square(7, 5), Offset(1, 1), King)
  {
  }

  lemma BackRankMove7675Step5()
    ensures !LeapHit(map[
      Square(0, 0) := Piece(Rook, White), Square(0, 6) := Piece(King, Black),
      Square(1, 5) := Piece(Pawn, Black), Square(1, 6) := Piece(Pawn, Black),
      Square(1, 7) := Piece(Pawn, Black), Square(7, 5) := Piece(King, White)
    ], White, Square(7, 5), Offset(-1, -1), King)
  {
  }

  lemma BackRankMove7675Step6()
    ensures !LeapHit(map[
      Square(0, 0) := Piece(Rook, White), Square(0, 6) := Piece(King, Black),
      Square(1, 5) := Piece(Pawn, Black), Square(1, 6) := Piece(Pawn, Black),
      Square(1, 7) := Piece(Pawn, Black), Square(7, 5) := Piece(King, White)
    ], White, Square(7, 5), Offset(-1, 0), King)
  {
  }

  lemma BackRankMove7675Step7()
    ensures !LeapHit(map[
      Square(0, 0) := Piece(Rook, White), Square(0, 6) := Piece(King, Black),
      Square(1, 5) := Piece(Pawn, Black), Square(1, 6) := Piece(Pawn, Black),
      Square(1, 7) := Piece(Pawn, Black), Square(7, 5) := Piece(King, White)
    ], White, Square(7, 5), Offset(-1, 1), King)
  {
  }

  lemma BackRankMove7675Pawn()
    ensures !PawnThreat(map[
      Square(0, 0) := Piece(Rook, White), Square(0, 6) := Piece(King, Black),
      Square(1, 5) := Piece(Pawn, Black), Square(1, 6) := Piece(Pawn, Black),
      Square(1, 7) := Piece(Pawn, Black), Square(7, 5) := Piece(King, White)
    ], White, Square(7, 5))
  {
  }

  lemma BackRankMove7675Safe()
    ensures !KingInDanger(map[
      Square(0, 0) := Piece(Rook, White), Square(0, 6) := Piece(King, Black),
      Square(1, 5) := Piece(Pawn, Black), Square(1, 6) := Piece(Pawn, Black),
      Square(1, 7) := Piece(Pawn, Black), Square(7, 5) := Piece(King, White)
    ], White, Square(7, 5))
  {
    BackRankMove7675Line0();
    BackRankMove7675Line1();
    BackRankMove7675Line2();
    BackRankMove7675Line3();
    StraightParts(map[
      Square(0, 0) := Piece(Rook, White), Square(0, 6) := Piece(King, Black),
      Square(1, 5) := Piece(Pawn, Black), Square(1, 6) := Piece(Pawn, Black),
      Square(1, 7) := Piece(Pawn, Black), Square(7, 5) := Piece(King, White)
    ], White, Square(7, 5), Rook);
    BackRankMove7675Diagonal0();
    BackRankMove7675Diagonal1();
    BackRankMove7675Diagonal2();
    BackRankMove7675Diagonal3();
    DiagonalParts(map[
      Square(0, 0) := Piece(Rook, White), Square(0, 6) := Piece(King, Black),
      Square(1, 5) := Piece(Pawn, Black), Square(1, 6) := Piece(Pawn, Black),
      Square(1, 7) := Piece(Pawn, Black), Square(7, 5) := Piece(King, White)
    ], White, Square(7, 5), Bishop);
    BackRankMove7675Knight0();
    BackRankMove7675Knight1();
    BackRankMove7675Knight2();
    BackRankMove7675Knight3();
    BackRankMove7675Knight4();
    BackRankMove7675Knight5();
    BackRankMove7675Knight6();
    BackRankMove7675Knight7();
    KnightParts(map[
      Square(0, 0) := Piece(Rook, White), Square(0, 6) := Piece(King, Black),
      Square(1, 5) := Piece(Pawn, Black), Square(1, 6) := Piece(Pawn, Black),
      Square(1, 7) := Piece(Pawn, Black), Square(7, 5) := Piece(King, White)
    ], White, Square(7, 5));
    BackRankMove7675Step0();
    BackRankMove7675Step1();
    BackRankMove7675Step2();
    BackRankMove7675Step3();
    BackRankMove7675Step4();
    BackRankMove7675Step5();
    BackRankMove7675Step6();
    BackRankMove7675Step7();
    KingStepParts(map[
      Square(0, 0) := Piece(Rook, White), Square(0, 6) := Piece(King, Black),
      Square(1, 5) := Piece(Pawn, Black), Square(1, 6) := Piece(Pawn, Black),
      Square(1, 7) := Piece(Pawn, Black), Square(7, 5) := Piece(King, White)
    ], White, Square(7, 5));
    BackRankMove7675Pawn();
    DangerParts(map[
      Square(0, 0) := Piece(Rook, White), Square(0, 6) := Piece(King, Black),
      Square(1, 5) := Piece(Pawn, Black), Square(1, 6) := Piece(Pawn, Black),
      Square(1, 7) := Piece(Pawn, Black), Square(7, 5) := Piece(King, White)
    ], White, Square(7, 5));
  }

  lemma BackRankMove7675KeepsWhite()
    ensures !Exposes(BackRank, White, Square(7, 6), Square(7, 5))
  {
    BackRankReady();
    BackRankMove7675();
    BackRankAt76();
    BackRankMove7675Safe();
    ExposesKing(BackRank, White, Square(7, 6), Square(7, 5), map[
      Square(0, 0) := Piece(Rook, White), Square(0, 6) := Piece(King, Black),
      Square(1, 5) := Piece(Pawn, Black), Square(1, 6) := Piece(Pawn, Black),
      Square(1, 7) := Piece(Pawn, Black), Square(7, 5) := Piece(King, White)
    ], White);
  }

  lemma AnderssenMoves06()
    ensures Moves(Anderssen.board, Piece(King, Black), Square(0, 6)) == [Square(0, 5), Square(0, 7), Square(1, 5), Square(1, 6), Square(1, 7)]
  {
  }

  lemma AnderssenReady()
    ensures Ready(Anderssen) && Anderssen.turn == White
    ensures KingSquare(Anderssen, White) == Square(2, 5) && KingSquare(Anderssen, Black) == Square(0, 6)
  {
  }

  lemma AnderssenAt06()
    ensures Square(0, 6) in Anderssen.board && Anderssen.board[Square(0, 6)] == Piece(King, Black)
  {
  }

  lemma AnderssenMove0617()
    ensures Relocate(Anderssen.board, Square(0, 6), Square(1, 7)) == map[
      Square(0, 7) := Piece(Rook, White), Square(1, 6) := Piece(Pawn, White),
      Square(1, 7) := Piece(King, Black), Square(2, 5) := Piece(King, White)
    ]
  {
  }

  lemma AnderssenMove0617Line0()
    ensures First(map[
      Square(0, 7) := Piece(Rook, White), Square(1, 6) := Piece(Pawn, White),
      Square(1, 7) := Piece(King, Black), Square(2, 5) := Piece(King, White)
    ], Square(1, 7), Offset(-1, 0)) == Some(Piece(Rook, White))
  {
  }

  lemma AnderssenMove0617Check()
    ensures KingInDanger(map[
      Square(0, 7) := Piece(Rook, White), Square(1, 6) := Piece(Pawn, White),
      Square(1, 7) := Piece(King, Black), Square(2, 5) := Piece(King, White)
    ], Black, Square(1, 7))
  {
    AnderssenMove0617Line0();
    StraightParts(map[
      Square(0, 7) := Piece(Rook, White), Square(1, 6) := Piece(Pawn, White),
      Square(1, 7) := Piece(King, Black), Square(2, 5) := Piece(King, White)
    ], Black, Square(1, 7), Rook);
    DangerParts(map[
      Square(0, 7) := Piece(Rook, White), Square(1, 6) := Piece(Pawn, White),
      Square(1, 7) := Piece(King, Black), Square(2, 5) := Piece(King, White)
    ], Black, Square(1, 7));
  }

  lemma AnderssenMove0617ExposesBlack()
    ensures Exposes(Anderssen, Black, Square(0, 6), Square(1, 7))
  {
    AnderssenReady();
    AnderssenMove0617();
    AnderssenAt06();
    AnderssenMove0617Check();
    ExposesKing(Anderssen, Black, Square(0, 6), Square(1, 7), map[
      Square(0, 7) := Piece(Rook, White), Square(1, 6) := Piece(Pawn, White),
      Square(1, 7) := Piece(King, Black), Square(2, 5) := Piece(King, White)
    ], Black);
  }

  lemma AnderssenMove0616()
    ensures Relocate(Anderssen.board, Square(0, 6), Square(1, 6)) == map[
      Square(0, 7) := Piece(Rook, White), Square(1, 6) := Piece(King, Black),
      Square(2, 5) := Piece(King, White)
    ]
  {
  }

  lemma AnderssenMove0616Step2()
    ensures LeapHit(map[
      Square(0, 7) := Piece(Rook, White), Square(1, 6) := Piece(King, Black),
      Square(2, 5) := Piece(King, White)
    ], Black, Square(1, 6), Offset(1, -1), King)
  {
  }

  lemma AnderssenMove0616Check()
    ensures KingInDanger(map[
      Square(0, 7) := Piece(Rook, White), Square(1, 6) := Piece(King, Black),
      Square(2, 5) := Piece(King, White)
    ], Black, Square(1, 6))
  {
    AnderssenMove0616Step2();
    KingStepParts(map[
      Square(0, 7) := Piece(Rook, White), Square(1, 6) := Piece(King, Black),
      Square(2, 5) := Piece(King, White)
    ], Black, Square(1, 6));
    DangerParts(map[
      Square(0, 7) := Piece(Rook, White), Square(1, 6) := Piece(King, Black),
      Square(2, 5) := Piece(King, White)
    ], Black, Square(1, 6));
  }

  lemma AnderssenMove0616ExposesBlack()
    ensures Exposes(Anderssen, Black, Square(0, 6), Square(1, 6))
  {
    AnderssenReady();
    AnderssenMove0616();
    AnderssenAt06();
    AnderssenMove0616Check();
    ExposesKing(Anderssen, Black, Square(0, 6), Square(1, 6), map[
      Square(0, 7) := Piece(Rook, White), Square(1, 6) := Piece(King, Black),
      Square(2, 5) := Piece(King, White)
    ], Black);
  }

  lemma AnderssenMove0615()
    ensures Relocate(Anderssen.board, Square(0, 6), Square(1, 5)) == map[
      Square(0, 7) := Piece(Rook, White), Square(1, 5) := Piece(King, Black),
      Square(1, 6) := Piece(Pawn, White), Square(2, 5) := Piece(King, White)
    ]
  {
  }

  lemma AnderssenMove0615Step3()
    ensures LeapHit(map[
      Square(0, 7) := Piece(Rook, White), Square(1, 5) := Piece(King, Black),
      Square(1, 6) := Piece(Pawn, White), Square(2, 5) := Piece(King, White)
    ], Black, Square(1, 5), Offset(1, 0), King)
  {
  }

  lemma AnderssenMove0615Check()
    ensures KingInDanger(map[
      Square(0, 7) := Piece(Rook, White), Square(1, 5) := Piece(King, Black),
      Square(1, 6) := Piece(Pawn, White), Square(2, 5) := Piece(King, White)
    ], Black, Square(1, 5))
  {
    AnderssenMove0615Step3();
    KingStepParts(map[
      Square(0, 7) := Piece(Rook, White), Square(1, 5) := Piece(King, Black),
      Square(1, 6) := Piece(Pawn, White), Square(2, 5) := Piece(King, White)
    ], Black, Square(1, 5));
    DangerParts(map[
      Square(0, 7) := Piece(Rook, White), Square(1, 5) := Piece(King, Black),
      Square(1, 6) := Piece(Pawn, White), Square(2, 5) := Piece(King, White)
    ], Black, Square(1, 5));
  }

  lemma AnderssenMove0615ExposesBlack()
    ensures Exposes(Anderssen, Black, Square(0, 6), Square(1, 5))
  {
    AnderssenReady();
    AnderssenMove0615();
    AnderssenAt06();
    AnderssenMove0615Check();
    ExposesKing(Anderssen, Black, Square(0, 6), Square(1, 5), map[
      Square(0, 7) := Piece(Rook, White), Square(1, 5) := Piece(King, Black),
      Square(1, 6) := Piece(Pawn, White), Square(2, 5) := Piece(King, White)
    ], Black);
  }

  lemma AnderssenMove0607()
    ensures Relocate(Anderssen.board, Square(0, 6), Square(0, 7)) == map[
      Square(0, 7) := Piece(King, Black), Square(1, 6) := Piece(Pawn, White),
      Square(2, 5) := Piece(King, White)
    ]
  {
  }

  lemma AnderssenMove0607Pawn()
    ensures PawnThreat(map[
      Square(0, 7) := Piece(King, Black), Square(1, 6) := Piece(Pawn, White),
      Square(2, 5) := Piece(King, White)
    ], Black, Square(0, 7))
  {
  }

  lemma AnderssenMove0607Check()
    ensures KingInDanger(map[
      Square(0, 7) := Piece(King, Black), Square(1, 6) := Piece(Pawn, White),
      Square(2, 5) := Piece(King, White)
    ], Black, Square(0, 7))
  {
    AnderssenMove0607Pawn();
    DangerParts(map[
      Square(0, 7) := Piece(King, Black), Square(1, 6) := Piece(Pawn, White),
      Square(2, 5) := Piece(King, White)
    ], Black, Square(0, 7));
  }

  lemma AnderssenMove0607ExposesBlack()
    ensures Exposes(Anderssen, Black, Square(0, 6), Square(0, 7))
  {
    AnderssenReady();
    AnderssenMove0607();
    AnderssenAt06();
    AnderssenMove0607Check();
    ExposesKing(Anderssen, Black, Square(0, 6), Square(0, 7), map[
      Square(0, 7) := Piece(King, Black), Square(1, 6) := Piece(Pawn, White),
      Square(2, 5) := Piece(King, White)
    ], Black);
  }

  lemma AnderssenMove0605()
    ensures Relocate(Anderssen.board, Square(0, 6), Square(0, 5)) == map[
      Square(0, 5) := Piece(King, Black), Square(0, 7) := Piece(Rook, White),
      Square(1, 6) := Piece(Pawn, White), Square(2, 5) := Piece(King, White)
    ]
  {
  }

  lemma AnderssenMove0605Line3()
    ensures First(map[
      Square(0, 5) := Piece(King, Black), Square(0, 7) := Piece(Rook, White),
      Square(1, 6) := Piece(Pawn, White), Square(2, 5) := Piece(King, White)
    ], Square(0, 5), Offset(0, 1)) == Some(Piece(Rook, White))
  {
  }

  lemma AnderssenMove0605Check()
    ensures KingInDanger(map[
      Square(0, 5) := Piece(King, Black), Square(0, 7) := Piece(Rook, White),
      Square(1, 6) := Piece(Pawn, White), Square(2, 5) := Piece(King, White)
    ], Black, Square(0, 5))
  {
    AnderssenMove0605Line3();
    StraightParts(map[
      Square(0, 5) := Piece(King, Black), Square(0, 7) := Piece(Rook, White),
      Square(1, 6) := Piece(Pawn, White), Square(2, 5) := Piece(King, White)
    ], Black, Square(0, 5), Rook);
    DangerParts(map[
      Square(0, 5) := Piece(King, Black), Square(0, 7) := Piece(Rook, White),
      Square(1, 6) := Piece(Pawn, White), Square(2, 5) := Piece(King, White)
    ], Black, Square(0, 5));
  }

  lemma AnderssenMove0605ExposesBlack()
    ensures Exposes(Anderssen, Black, Square(0, 6), Square(0, 5))
  {
    AnderssenReady();
    AnderssenMove0605();
    AnderssenAt06();
    AnderssenMove0605Check();
    ExposesKing(Anderssen, Black, Square(0, 6), Square(0, 5), map[
      Square(0, 5) := Piece(King, Black), Square(0, 7) := Piece(Rook, White),
      Square(1, 6) := Piece(Pawn, White), Square(2, 5) := Piece(King, White)
    ], Black);
  }

  lemma AnderssenSplit060507151617()
    ensures [Square(0, 5), Square(0, 7), Square(1, 5), Square(1, 6), Square(1, 7)] == [Square(0, 5)] + ([Square(0, 7)] + ([Square(1, 5)] + ([Square(1, 6)] + ([Square(1, 7)] + []))))
  {
  }

  lemma AnderssenStuck06()
    ensures Stuck(Anderssen, Black, Square(0, 6))
  {
    AnderssenReady();
    AnderssenAt06();
    AnderssenMoves06();
    AnderssenMove0617ExposesBlack();
    AnderssenMove0616ExposesBlack();
    AnderssenMove0615ExposesBlack();
    AnderssenMove0607ExposesBlack();
    AnderssenMove0605ExposesBlack();
    AnderssenSplit060507151617();
    SafeNil(Anderssen, Black, Square(0, 6));
    SafeDrop(Anderssen, Black, Square(0, 6), Square(1, 7), [], []);
    SafeDrop(Anderssen, Black, Square(0, 6), Square(1, 6), [Square(1, 7)] + [], []);
    SafeDrop(Anderssen, Black, Square(0, 6), Square(1, 5), [Square(1, 6)] + ([Square(1, 7)] + []), []);
    SafeDrop(Anderssen, Black, Square(0, 6), Square(0, 7), [Square(1, 5)] + ([Square(1, 6)] + ([Square(1, 7)] + [])), []);
    SafeDrop(Anderssen, Black, Square(0, 6), Square(0, 5), [Square(0, 7)] + ([Square(1, 5)] + ([Square(1, 6)] + ([Square(1, 7)] + []))), []);
  }

  lemma AnderssenOwnersBlack()
    ensures forall s :: Holds(Anderssen.board, s, Black) ==> s in {Square(0, 6)}
  {
  }

  lemma AnderssenMoves25()
    ensures Moves(Anderssen.board, Piece(King, White), Square(2, 5)) == [Square(2, 4), Square(2, 6), Square(3, 4), Square(3, 5), Square(3, 6), Square(1, 4), Square(1, 5)]
  {
  }

  lemma AnderssenMove2524()
    ensures Relocate(Anderssen.board, Square(2, 5), Square(2, 4)) == map[
      Square(0, 6) := Piece(King, Black), Square(0, 7) := Piece(Rook, White),
      Square(1, 6) := Piece(Pawn, White), Square(2, 4) := Piece(King, White)
    ]
  {
  }

  lemma AnderssenAt25()
    ensures Square(2, 5) in Anderssen.board && Anderssen.board[Square(2, 5)] == Piece(King, White)
  {
  }

  lemma AnderssenMove2524Line0()
    ensures First(map[
      Square(0, 6) := Piece(King, Black), Square(0, 7) := Piece(Rook, White),
      Square(1, 6) := Piece(Pawn, White), Square(2, 4) := Piece(King, White)
    ], Square(2, 4), Offset(-1, 0)) == None
  {
  }

  lemma AnderssenMove2524Line1()
    ensures First(map[
      Square(0, 6) := Piece(King, Black), Square(0, 7) := Piece(Rook, White),
      Square(1, 6) := Piece(Pawn, White), Square(2, 4) := Piece(King, White)
    ], Square(2, 4), Offset(1, 0)) == None
  {
  }

  lemma AnderssenMove2524Line2()
    ensures First(map[
      Square(0, 6) := Piece(King, Black), Square(0, 7) := Piece(Rook, White),
      Square(1, 6) := Piece(Pawn, White), Square(2, 4) := Piece(King, White)
    ], Square(2, 4), Offset(0, -1)) == None
  {
  }

  lemma AnderssenMove2524Line3()
    ensures First(map[
      Square(0, 6) := Piece(King, Black), Square(0, 7) := Piece(Rook, White),
      Square(1, 6) := Piece(Pawn, White), Square(2, 4) := Piece(King, White)
    ], Square(2, 4), Offset(0, 1)) == None
  {
  }

  lemma AnderssenMove2524Diagonal0()
    ensures First(map[
      Square(0, 6) := Piece(King, Black), Square(0, 7) := Piece(Rook, White),
      Square(1, 6) := Piece(Pawn, White), Square(2, 4) := Piece(King, White)
    ], Square(2, 4), Offset(-1, 1)) == Some(Piece(King, Black))
  {
  }

  lemma AnderssenMove2524Diagonal1()
    ensures First(map[
      Square(0, 6) := Piece(King, Black), Square(0, 7) := Piece(Rook, White),
      Square(1, 6) := Piece(Pawn, White), Square(2, 4) := Piece(King, White)
    ], Square(2, 4), Offset(-1, -1)) == None
  {
  }

  lemma AnderssenMove2524Diagonal2()
    ensures First(map[
      Square(0, 6) := Piece(King, Black), Square(0, 7) := Piece(Rook, White),
      Square(1, 6) := Piece(Pawn, White), Square(2, 4) := Piece(King, White)
    ], Square(2, 4), Offset(1, -1)) == None
  {
  }

  lemma AnderssenMove2524Diagonal3()
    ensures First(map[
      Square(0, 6) := Piece(King, Black), Square(0, 7) := Piece(Rook, White),
      Square(1, 6) := Piece(Pawn, White), Square(2, 4) := Piece(King, White)
    ], Square(2, 4), Offset(1, 1)) == None
  {
  }

  lemma AnderssenMove2524Knight0()
    ensures !LeapHit(map[
      Square(0, 6) := Piece(King, Black), Square(0, 7) := Piece(Rook, White),
      Square(1, 6) := Piece(Pawn, White), Square(2, 4) := Piece(King, White)
    ], White, Square(2, 4), Offset(1, -2), Knight)
  {
  }

  lemma AnderssenMove2524Knight1()
    ensures !LeapHit(map[
      Square(0, 6) := Piece(King, Black), Square(0, 7) := Piece(Rook, White),
      Square(1, 6) := Piece(Pawn, White), Square(2, 4) := Piece(King, White)
    ], White, Square(2, 4), Offset(1, 2), Knight)
  {
  }

  lemma AnderssenMove2524Knight2()
    ensures !LeapHit(map[
      Square(0, 6) := Piece(King, Black), Square(0, 7) := Piece(Rook, White),
      Square(1, 6) := Piece(Pawn, White), Square(2, 4) := Piece(King, White)
    ], White, Square(2, 4), Offset(2, -1), Knight)
  {
  }

  lemma AnderssenMove2524Knight3()
    ensures !LeapHit(map[
      Square(0, 6) := Piece(King, Black), Square(0, 7) := Piece(Rook, White),
      Square(1, 6) := Piece(Pawn, White), Square(2, 4) := Piece(King, White)
    ], White, Square(2, 4), Offset(2, 1), Knight)
  {
  }

  lemma AnderssenMove2524Knight4()
    ensures !LeapHit(map[
      Square(0, 6) := Piece(King, Black), Square(0, 7) := Piece(Rook, White),
      Square(1, 6) := Piece(Pawn, White), Square(2, 4) := Piece(King, White)
    ], White, Square(2, 4), Offset(-1, -2), Knight)
  {
  }

  lemma AnderssenMove2524Knight5()
    ensures !LeapHit(map[
      Square(0, 6) := Piece(King, Black), Square(0, 7) := Piece(Rook, White),
      Square(1, 6) := Piece(Pawn, White), Square(2, 4) := Piece(King, White)
    ], White, Square(2, 4), Offset(-1, 2), Knight)
  {
  }

  lemma AnderssenMove2524Knight6()
    ensures !LeapHit(map[
      Square(0, 6) := Piece(King, Black), Square(0, 7) := Piece(Rook, White),
      Square(1, 6) := Piece(Pawn, White), Square(2, 4) := Piece(King, White)
    ], White, Square(2, 4), Offset(-2, -1), Knight)
  {
  }

  lemma AnderssenMove2524Knight7()
    ensures !LeapHit(map[
      Square(0, 6) := Piece(King, Black), Square(0, 7) := Piece(Rook, White),
      Square(1, 6) := Piece(Pawn, White), Square(2, 4) := Piece(King, White)
    ], White, Square(2, 4), Offset(-2, 1), Knight)
  {
  }

  lemma AnderssenMove2524Step0()
    ensures !LeapHit(map[
      Square(0, 6) := Piece(King, Black), Square(0, 7) := Piece(Rook, White),
      Square(1, 6) := Piece(Pawn, White), Square(2, 4) := Piece(King, White)
    ], White, Square(2, 4), Offset(0, -1), King)
  {
  }

  lemma AnderssenMove2524Step1()
    ensures !LeapHit(map[
      Square(0, 6) := Piece(King, Black), Square(0, 7) := Piece(Rook, White),
      Square(1, 6) := Piece(Pawn, White), Square(2, 4) := Piece(King, White)
    ], White, Square(2, 4), Offset(0, 1), King)
  {
  }

  lemma AnderssenMove2524Step2()
    ensures !LeapHit(map[
      Square(0, 6) := Piece(King, Black), Square(0, 7) := Piece(Rook, White),
      Square(1, 6) := Piece(Pawn, White), Square(2, 4) := Piece(King, White)
    ], White, Square(2, 4), Offset(1, -1), King)
  {
  }

  lemma AnderssenMove2524Step3()
    ensures !LeapHit(map[
      Square(0, 6) := Piece(King, Black), Square(0, 7) := Piece(Rook, White),
      Square(1, 6) := Piece(Pawn, White), Square(2, 4) := Piece(King, White)
    ], White, Square(2, 4), Offset(1, 0), King)
  {
  }

  lemma AnderssenMove2524Step4()
    ensures !LeapHit(map[
      Square(0, 6) := Piece(King, Black), Square(0, 7) := Piece(Rook, White),
      Square(1, 6) := Piece(Pawn, White), Square(2, 4) := Piece(King, White)
    ], White, Square(2, 4), Offset(1, 1), King)
  {
  }

  lemma AnderssenMove2524Step5()
    ensures !LeapHit(map[
      Square(0, 6) := Piece(King, Black), Square(0, 7) := Piece(Rook, White),
      Square(1, 6) := Piece(Pawn, White), Square(2, 4) := Piece(King, White)
    ], White, Square(2, 4), Offset(-1, -1), King)
  {
  }

  lemma AnderssenMove2524Step6()
    ensures !LeapHit(map[
      Square(0, 6) := Piece(King, Black), Square(0, 7) := Piece(Rook, White),
      Square(1, 6) := Piece(Pawn, White), Square(2, 4) := Piece(King, White)
    ], White, Square(2, 4), Offset(-1, 0), King)
  {
  }

  lemma AnderssenMove2524Step7()
    ensures !LeapHit(map[
      Square(0, 6) := Piece(King, Black), Square(0, 7) := Piece(Rook, White),
      Square(1, 6) := Piece(Pawn, White), Square(2, 4) := Piece(King, White)
    ], White, Square(2, 4), Offset(-1, 1), King)
  {
  }

  lemma AnderssenMove2524Pawn()
    ensures !PawnThreat(map[
      Square(0, 6) := Piece(King, Black), Square(0, 7) := Piece(Rook, White),
      Square(1, 6) := Piece(Pawn, White), Square(2, 4) := Piece(King, White)
    ], White, Square(2, 4))
  {
  }

  lemma AnderssenMove2524Safe()
    ensures !KingInDanger(map[
      Square(0, 6) := Piece(King, Black), Square(0, 7) := Piece(Rook, White),
      Square(1, 6) := Piece(Pawn, White), Square(2, 4) := Piece(King, White)
    ], White, Square(2, 4))
  {
    AnderssenMove2524Line0();
    AnderssenMove2524Line1();
    AnderssenMove2524Line2();
    AnderssenMove2524Line3();
    StraightParts(map[
      Square(0, 6) := Piece(King, Black), Square(0, 7) := Piece(Rook, White),
      Square(1, 6) := Piece(Pawn, White), Square(2, 4) := Piece(King, White)
    ], White, Square(2, 4), Rook);
    AnderssenMove2524Diagonal0();
    AnderssenMove2524Diagonal1();
    AnderssenMove2524Diagonal2();
    AnderssenMove2524Diagonal3();
    DiagonalParts(map[
      Square(0, 6) := Piece(King, Black), Square(0, 7) := Piece(Rook, White),
      Square(1, 6) := Piece(Pawn, White), Square(2, 4) := Piece(King, White)
    ], White, Square(2, 4), Bishop);
    AnderssenMove2524Knight0();
    AnderssenMove2524Knight1();
    AnderssenMove2524Knight2();
    AnderssenMove2524Knight3();
    AnderssenMove2524Knight4();
    AnderssenMove2524Knight5();
    AnderssenMove2524Knight6();
    AnderssenMove2524Knight7();
    KnightParts(map[
      Square(0, 6) := Piece(King, Black), Square(0, 7) := Piece(Rook, White),
      Square(1, 6) := Piece(Pawn, White), Square(2, 4) := Piece(King, White)
    ], White, Square(2, 4));
    AnderssenMove2524Step0();
    AnderssenMove2524Step1();
    AnderssenMove2524Step2();
    AnderssenMove2524Step3();
    AnderssenMove2524Step4();
    AnderssenMove2524Step5();
    AnderssenMove2524Step6();
    AnderssenMove2524Step7();
    KingStepParts(map[
      Square(0, 6) := Piece(King, Black), Square(0, 7) := Piece(Rook, White),
      Square(1, 6) := Piece(Pawn, White), Square(2, 4) := Piece(King, White)
    ], White, Square(2, 4));
    AnderssenMove2524Pawn();
    DangerParts(map[
      Square(0, 6) := Piece(King, Black), Square(0, 7) := Piece(Rook, White),
      Square(1, 6) := Piece(Pawn, White), Square(2, 4) := Piece(King, White)
    ], White, Square(2, 4));
  }

  lemma AnderssenMove2524KeepsWhite()
    ensures !Exposes(Anderssen, White, Square(2, 5), Square(2, 4))
  {
    AnderssenReady();
    AnderssenMove2524();
    AnderssenAt25();
    AnderssenMove2524Safe();
    ExposesKing(Anderssen, White, Square(2, 5), Square(2, 4), map[
      Square(0, 6) := Piece(King, Black), Square(0, 7) := Piece(Rook, White),
      Square(1, 6) := Piece(Pawn, White), Square(2, 4) := Piece(King, White)
    ], White);
  }

  lemma DamianoMoves06()
    ensures Moves(Damiano.board, Piece(King, Black), Square(0, 6)) == [Square(0, 5), Square(0, 7), Square(1, 5), Square(1, 6), Square(1, 7)]
  {
  }

  lemma DamianoReady()
    ensures Ready(Damiano) && Damiano.turn == White
    ensures KingSquare(Damiano, White) == Square(7, 1) && KingSquare(Damiano, Black) == Square(0, 6)
  {
  }

  lemma DamianoAt06()
    ensures Square(0, 6) in Damiano.board && Damiano.board[Square(0, 6)] == Piece(King, Black)
  {
  }

  lemma DamianoMove0617()
    ensures Relocate(Damiano.board, Square(0, 6), Square(1, 7)) == map[
      Square(1, 6) := Piece(Queen, White), Square(1, 7) := Piece(King, Black),
      Square(2, 5) := Piece(Bishop, White), Square(7, 1) := Piece(King, White)
    ]
  {
  }

  lemma DamianoMove0617Line2()
    ensures First(map[
      Square(1, 6) := Piece(Queen, White), Square(1, 7) := Piece(King, Black),
      Square(2, 5) := Piece(Bishop, White), Square(7, 1) := Piece(King, White)
    ], Square(1, 7), Offset(0, -1)) == Some(Piece(Queen, White))
  {
  }

  lemma DamianoMove0617Check()
    ensures KingInDanger(map[
      Square(1, 6) := Piece(Queen, White), Square(1, 7) := Piece(King, Black),
      Square(2, 5) := Piece(Bishop, White), Square(7, 1) := Piece(King, White)
    ], Black, Square(1, 7))
  {
    DamianoMove0617Line2();
    StraightParts(map[
      Square(1, 6) := Piece(Queen, White), Square(1, 7) := Piece(King, Black),
      Square(2, 5) := Piece(Bishop, White), Square(7, 1) := Piece(King, White)
    ], Black, Square(1, 7), Rook);
    DangerParts(map[
      Square(1, 6) := Piece(Queen, White), Square(1, 7) := Piece(King, Black),
      Square(2, 5) := Piece(Bishop, White), Square(7, 1) := Piece(King, White)
    ], Black, Square(1, 7));
  }

  lemma DamianoMove0617ExposesBlack()
    ensures Exposes(Damiano, Black, Square(0, 6), Square(1, 7))
  {
    DamianoReady();
    DamianoMove0617();
    DamianoAt06();
    DamianoMove0617Check();
    ExposesKing(Damiano, Black, Square(0, 6), Square(1, 7), map[
      Square(1, 6) := Piece(Queen, White), Square(1, 7) := Piece(King, Black),
      Square(2, 5) := Piece(Bishop, White), Square(7, 1) := Piece(King, White)
    ], Black);
  }

  lemma DamianoMove0616()
    ensures Relocate(Damiano.board, Square(0, 6), Square(1, 6)) == map[
      Square(1, 6) := Piece(King, Black), Square(2, 5) := Piece(Bishop, White),
      Square(7, 1) := Piece(King, White)
    ]
  {
  }

  lemma DamianoMove0616Diagonal2()
    ensures First(map[
      Square(1, 6) := Piece(King, Black), Square(2, 5) := Piece(Bishop, White),
      Square(7, 1) := Piece(King, White)
    ], Square(1, 6), Offset(1, -1)) == Some(Piece(Bishop, White))
  {
  }

  lemma DamianoMove0616Check()
    ensures KingInDanger(map[
      Square(1, 6) := Piece(King, Black), Square(2, 5) := Piece(Bishop, White),
      Square(7, 1) := Piece(King, White)
    ], Black, Square(1, 6))
  {
    DamianoMove0616Diagonal2();
    DiagonalParts(map[
      Square(1, 6) := Piece(King, Black), Square(2, 5) := Piece(Bishop, White),
      Square(7, 1) := Piece(King, White)
    ], Black, Square(1, 6), Bishop);
    DangerParts(map[
      Square(1, 6) := Piece(King, Black), Square(2, 5) := Piece(Bishop, White),
      Square(7, 1) := Piece(King, White)
    ], Black, Square(1, 6));
  }

  lemma DamianoMove0616ExposesBlack()
    ensures Exposes(Damiano, Black, Square(0, 6), Square(1, 6))
  {
    DamianoReady();
    DamianoMove0616();
    DamianoAt06();
    DamianoMove0616Check();
    ExposesKing(Damiano, Black, Square(0, 6), Square(1, 6), map[
      Square(1, 6) := Piece(King, Black), Square(2, 5) := Piece(Bishop, White),
      Square(7, 1) := Piece(King, White)
    ], Black);
  }

  lemma DamianoMove0615()
    ensures Relocate(Damiano.board, Square(0, 6), Square(1, 5)) == map[
      Square(1, 5) := Piece(King, Black), Square(1, 6) := Piece(Queen, White),
      Square(2, 5) := Piece(Bishop, White), Square(7, 1) := Piece(King, White)
    ]
  {
  }

  lemma DamianoMove0615Line3()
    ensures First(map[
      Square(1, 5) := Piece(King, Black), Square(1, 6) := Piece(Queen, White),
      Square(2, 5) := Piece(Bishop, White), Square(7, 1) := Piece(King, White)
    ], Square(1, 5), Offset(0, 1)) == Some(Piece(Queen, White))
  {
  }

  lemma DamianoMove0615Check()
    ensures KingInDanger(map[
      Square(1, 5) := Piece(King, Black), Square(1, 6) := Piece(Queen, White),
      Square(2, 5) := Piece(Bishop, White), Square(7, 1) := Piece(King, White)
    ], Black, Square(1, 5))
  {
    DamianoMove0615Line3();
    StraightParts(map[
      Square(1, 5) := Piece(King, Black), Square(1, 6) := Piece(Queen, White),
      Square(2, 5) := Piece(Bishop, White), Square(7, 1) := Piece(King, White)
    ], Black, Square(1, 5), Rook);
    DangerParts(map[
      Square(1, 5) := Piece(King, Black), Square(1, 6) := Piece(Queen, White),
      Square(2, 5) := Piece(Bishop, White), Square(7, 1) := Piece(King, White)
    ], Black, Square(1, 5));
  }

  lemma DamianoMove0615ExposesBlack()
    ensures Exposes(Damiano, Black, Square(0, 6), Square(1, 5))
  {
    DamianoReady();
    DamianoMove0615();
    DamianoAt06();
    DamianoMove0615Check();
    ExposesKing(Damiano, Black, Square(0, 6), Square(1, 5), map[
      Square(1, 5) := Piece(King, Black), Square(1, 6) := Piece(Queen, White),
      Square(2, 5) := Piece(Bishop, White), Square(7, 1) := Piece(King, White)
    ], Black);
  }

  lemma DamianoMove0607()
    ensures Relocate(Damiano.board, Square(0, 6), Square(0, 7)) == map[
      Square(0, 7) := Piece(King, Black), Square(1, 6) := Piece(Queen, White),
      Square(2, 5) := Piece(Bishop, White), Square(7, 1) := Piece(King, White)
    ]
  {
  }

  lemma DamianoMove0607Diagonal2()
    ensures First(map[
      Square(0, 7) := Piece(King, Black), Square(1, 6) := Piece(Queen, White),
      Square(2, 5) := Piece(Bishop, White), Square(7, 1) := Piece(King, White)
    ], Square(0, 7), Offset(1, -1)) == Some(Piece(Queen, White))
  {
  }

  lemma DamianoMove0607Check()
    ensures KingInDanger(map[
      Square(0, 7) := Piece(King, Black), Square(1, 6) := Piece(Queen, White),
      Square(2, 5) := Piece(Bishop, White), Square(7, 1) := Piece(King, White)
    ], Black, Square(0, 7))
  {
    DamianoMove0607Diagonal2();
    DiagonalParts(map[
      Square(0, 7) := Piece(King, Black), Square(1, 6) := Piece(Queen, White),
      Square(2, 5) := Piece(Bishop, White), Square(7, 1) := Piece(King, White)
    ], Black, Square(0, 7), Bishop);
    DangerParts(map[
      Square(0, 7) := Piece(King, Black), Square(1, 6) := Piece(Queen, White),
      Square(2, 5) := Piece(Bishop, White), Square(7, 1) := Piece(King, White)
    ], Black, Square(0, 7));
  }

  lemma DamianoMove0607ExposesBlack()
    ensures Exposes(Damiano, Black, Square(0, 6), Square(0, 7))
  {
    DamianoReady();
    DamianoMove0607();
    DamianoAt06();
    DamianoMove0607Check();
    ExposesKing(Damiano, Black, Square(0, 6), Square(0, 7), map[
      Square(0, 7) := Piece(King, Black), Square(1, 6) := Piece(Queen, White),
      Square(2, 5) := Piece(Bishop, White), Square(7, 1) := Piece(King, White)
    ], Black);
  }

  lemma DamianoMove0605()
    ensures Relocate(Damiano.board, Square(0, 6), Square(0, 5)) == map[
      Square(0, 5) := Piece(King, Black), Square(1, 6) := Piece(Queen, White),
      Square(2, 5) := Piece(Bishop, White), Square(7, 1) := Piece(King, White)
    ]
  {
  }

  lemma DamianoMove0605Diagonal3()
    ensures First(map[
      Square(0, 5) := Piece(King, Black), Square(1, 6) := Piece(Queen, White),
      Square(2, 5) := Piece(Bishop, White), Square(7, 1) := Piece(King, White)
    ], Square(0, 5), Offset(1, 1)) == Some(Piece(Queen, White))
  {
  }

  lemma DamianoMove0605Check()
    ensures KingInDanger(map[
      Square(0, 5) := Piece(King, Black), Square(1, 6) := Piece(Queen, White),
      Square(2, 5) := Piece(Bishop, White), Square(7, 1) := Piece(King, White)
    ], Black, Square(0, 5))
  {
    DamianoMove0605Diagonal3();
    DiagonalParts(map[
      Square(0, 5) := Piece(King, Black), Square(1, 6) := Piece(Queen, White),
      Square(2, 5) := Piece(Bishop, White), Square(7, 1) := Piece(King, White)
    ], Black, Square(0, 5), Bishop);
    DangerParts(map[
      Square(0, 5) := Piece(King, Black), Square(1, 6) := Piece(Queen, White),
      Square(2, 5) := Piece(Bishop, White), Square(7, 1) := Piece(King, White)
    ], Black, Square(0, 5));
  }

  lemma DamianoMove0605ExposesBlack()
    ensures Exposes(Damiano, Black, Square(0, 6), Square(0, 5))
  {
    DamianoReady();
    DamianoMove0605();
    DamianoAt06();
    DamianoMove0605Check();
    ExposesKing(Damiano, Black, Square(0, 6), Square(0, 5), map[
      Square(0, 5) := Piece(King, Black), Square(1, 6) := Piece(Queen, White),
      Square(2, 5) := Piece(Bishop, White), Square(7, 1) := Piece(King, White)
    ], Black);
  }

  lemma DamianoSplit060507151617()
    ensures [Square(0, 5), Square(0, 7), Square(1, 5), Square(1, 6), Square(1, 7)] == [Square(0, 5)] + ([Square(0, 7)] + ([Square(1, 5)] + ([Square(1, 6)] + ([Square(1, 7)] + []))))
  {
  }

  lemma DamianoStuck06()
    ensures Stuck(Damiano, Black, Square(0, 6))
  {
    DamianoReady();
    DamianoAt06();
    DamianoMoves06();
    DamianoMove0617ExposesBlack();
    DamianoMove0616ExposesBlack();
    DamianoMove0615ExposesBlack();
    DamianoMove0607ExposesBlack();
    DamianoMove0605ExposesBlack();
    DamianoSplit060507151617();
    SafeNil(Damiano, Black, Square(0, 6));
    SafeDrop(Damiano, Black, Square(0, 6), Square(1, 7), [], []);
    SafeDrop(Damiano, Black, Square(0, 6), Square(1, 6), [Square(1, 7)] + [], []);
    SafeDrop(Damiano, Black, Square(0, 6), Square(1, 5), [Square(1, 6)] + ([Square(1, 7)] + []), []);
    SafeDrop(Damiano, Black, Square(0, 6), Square(0, 7), [Square(1, 5)] + ([Square(1, 6)] + ([Square(1, 7)] + [])), []);
    SafeDrop(Damiano, Black, Square(0, 6), Square(0, 5), [Square(0, 7)] + ([Square(1, 5)] + ([Square(1, 6)] + ([Square(1, 7)] + []))), []);
  }

  lemma DamianoOwnersBlack()
    ensures forall s :: Holds(Damiano.board, s, Black) ==> s in {Square(0, 6)}
  {
  }

  lemma DamianoMoves71()
    ensures Moves(Damiano.board, Piece(King, White), Square(7, 1)) == [Square(7, 0), Square(7, 2), Square(6, 0), Square(6, 1), Square(6, 2)]
  {
  }

  lemma DamianoMove7170()
    ensures Relocate(Damiano.board, Square(7, 1), Square(7, 0)) == map[
      Square(0, 6) := Piece(King, Black), Square(1, 6) := Piece(Queen, White),
      Square(2, 5) := Piece(Bishop, White), Square(7, 0) := Piece(King, White)
    ]
  {
  }

  lemma DamianoAt71()
    ensures Square(7, 1) in Damiano.board && Damiano.board[Square(7, 1)] == Piece(King, White)
  {
  }

  lemma DamianoMove7170Line0()
    ensures First(map[
      Square(0, 6) := Piece(King, Black), Square(1, 6) := Piece(Queen, White),
      Square(2, 5) := Piece(Bishop, White), Square(7, 0) := Piece(King, White)
    ], Square(7, 0), Offset(-1, 0)) == None
  {
  }

  lemma DamianoMove7170Line1()
    ensures First(map[
      Square(0, 6) := Piece(King, Black), Square(1, 6) := Piece(Queen, White),
      Square(2, 5) := Piece(Bishop, White), Square(7, 0) := Piece(King, White)
    ], Square(7, 0), Offset(1, 0)) == None
  {
  }

  lemma DamianoMove7170Line2()
    ensures First(map[
      Square(0, 6) := Piece(King, Black), Square(1, 6) := Piece(Queen, White),
      Square(2, 5) := Piece(Bishop, White), Square(7, 0) := Piece(King, White)
    ], Square(7, 0), Offset(0, -1)) == None
  {
  }

  lemma DamianoMove7170Line3()
    ensures First(map[
      Square(0, 6) := Piece(King, Black), Square(1, 6) := Piece(Queen, White),
      Square(2, 5) := Piece(Bishop, White), Square(7, 0) := Piece(King, White)
    ], Square(7, 0), Offset(0, 1)) == None
  {
  }

  lemma DamianoMove7170Diagonal0()
    ensures First(map[
      Square(0, 6) := Piece(King, Black), Square(1, 6) := Piece(Queen, White),
      Square(2, 5) := Piece(Bishop, White), Square(7, 0) := Piece(King, White)
    ], Square(7, 0), Offset(-1, 1)) == Some(Piece(Bishop, White))
  {
  }

  lemma DamianoMove7170Diagonal1()
    ensures First(map[
      Square(0, 6) := Piece(King, Black), Square(1, 6) := Piece(Queen, White),
      Square(2, 5) := Piece(Bishop, White), Square(7, 0) := Piece(King, White)
    ], Square(7, 0), Offset(-1, -1)) == None
  {
  }

  lemma DamianoMove7170Diagonal2()
    ensures First(map[
      Square(0, 6) := Piece(King, Black), Square(1, 6) := Piece(Queen, White),
      Square(2, 5) := Piece(Bishop, White), Square(7, 0) := Piece(King, White)
    ], Square(7, 0), Offset(1, -1)) == None
  {
  }

  lemma DamianoMove7170Diagonal3()
    ensures First(map[
      Square(0, 6) := Piece(King, Black), Square(1, 6) := Piece(Queen, White),
      Square(2, 5) := Piece(Bishop, White), Square(7, 0) := Piece(King, White)
    ], Square(7, 0), Offset(1, 1)) == None
  {
  }

  lemma DamianoMove7170Knight0()
    ensures !LeapHit(map[
      Square(0, 6) := Piece(King, Black), Square(1, 6) := Piece(Queen, White),
      Square(2, 5) := Piece(Bishop, White), Square(7, 0) := Piece(King, White)
    ], White, Square(7, 0), Offset(1, -2), Knight)
  {
  }

  lemma DamianoMove7170Knight1()
    ensures !LeapHit(map[
      Square(0, 6) := Piece(King, Black), Square(1, 6) := Piece(Queen, White),
      Square(2, 5) := Piece(Bishop, White), Square(7, 0) := Piece(King, White)
    ], White, Square(7, 0), Offset(1, 2), Knight)
  {
  }

  lemma DamianoMove7170Knight2()
    ensures !LeapHit(map[
      Square(0, 6) := Piece(King, Black), Square(1, 6) := Piece(Queen, White),
      Square(2, 5) := Piece(Bishop, White), Square(7, 0) := Piece(King, White)
    ], White, Square(7, 0), Offset(2, -1), Knight)
  {
  }

  lemma DamianoMove7170Knight3()
    ensures !LeapHit(map[
      Square(0, 6) := Piece(King, Black), Square(1, 6) := Piece(Queen, White),
      Square(2, 5) := Piece(Bishop, White), Square(7, 0) := Piece(King, White)
    ], White, Square(7, 0), Offset(2, 1), Knight)
  {
  }

  lemma DamianoMove7170Knight4()
    ensures !LeapHit(map[
      Square(0, 6) := Piece(King, Black), Square(1, 6) := Piece(Queen, White),
      Square(2, 5) := Piece(Bishop, White), Square(7, 0) := Piece(King, White)
    ], White, Square(7, 0), Offset(-1, -2), Knight)
  {
  }

  lemma DamianoMove7170Knight5()
    ensures !LeapHit(map[
      Square(0, 6) := Piece(King, Black), Square(1, 6) := Piece(Queen, White),
      Square(2, 5) := Piece(Bishop, White), Square(7, 0) := Piece(King, White)
    ], White, Square(7, 0), Offset(-1, 2), Knight)
  {
  }

  lemma DamianoMove7170Knight6()
    ensures !LeapHit(map[
      Square(0, 6) := Piece(King, Black), Square(1, 6) := Piece(Queen, White),
      Square(2, 5) := Piece(Bishop, White), Square(7, 0) := Piece(King, White)
    ], White, Square(7, 0), Offset(-2, -1), Knight)
  {
  }

  lemma DamianoMove7170Knight7()
    ensures !LeapHit(map[
      Square(0, 6) := Piece(King, Black), Square(1, 6) := Piece(Queen, White),
      Square(2, 5) := Piece(Bishop, White), Square(7, 0) := Piece(King, White)
    ], White, Square(7, 0), Offset(-2, 1), Knight)
  {
  }

  lemma DamianoMove7170Step0()
    ensures !LeapHit(map[
      Square(0, 6) := Piece(King, Black), Square(1, 6) := Piece(Queen, White),
      Square(2, 5) := Piece(Bishop, White), Square(7, 0) := Piece(King, White)
    ], White, Square(7, 0), Offset(0, -1), King)
  {
  }

  lemma DamianoMove7170Step1()
    ensures !LeapHit(map[
      Square(0, 6) := Piece(King, Black), Square(1, 6) := Piece(Queen, White),
      Square(2, 5) := Piece(Bishop, White), Square(7, 0) := Piece(King, White)
    ], White, Square(7, 0), Offset(0, 1), King)
  {
  }

  lemma DamianoMove7170Step2()
    ensures !LeapHit(map[
      Square(0, 6) := Piece(King, Black), Square(1, 6) := Piece(Queen, White),
      Square(2, 5) := Piece(Bishop, White), Square(7, 0) := Piece(King, White)
    ], White, Square(7, 0), Offset(1, -1), King)
  {
  }

  lemma DamianoMove7170Step3()
    ensures !LeapHit(map[
      Square(0, 6) := Piece(King, Black), Square(1, 6) := Piece(Queen, White),
      Square(2, 5) := Piece(Bishop, White), Square(7, 0) := Piece(King, White)
    ], White, Square(7, 0), Offset(1, 0), King)
  {
  }

  lemma DamianoMove7170Step4()
    ensures !LeapHit(map[
      Square(0, 6) := Piece(King, Black), Square(1, 6) := Piece(Queen, White),
      Square(2, 5) := Piece(Bishop, White), Square(7, 0) := Piece(King, White)
    ], White, Square(7, 0), Offset(1, 1), King)
  {
  }

  lemma DamianoMove7170Step5()
    ensures !LeapHit(map[
      Square(0, 6) := Piece(King, Black), Square(1, 6) := Piece(Queen, White),
      Square(2, 5) := Piece(Bishop, White), Square(7, 0) := Piece(King, White)
    ], White, Square(7, 0), Offset(-1, -1), King)
  {
  }

  lemma DamianoMove7170Step6()
    ensures !LeapHit(map[
      Square(0, 6) := Piece(King, Black), Square(1, 6) := Piece(Queen, White),
      Square(2, 5) := Piece(Bishop, White), Square(7, 0) := Piece(King, White)
    ], White, Square(7, 0), Offset(-1, 0), King)
  {
  }

  lemma DamianoMove7170Step7()
    ensures !LeapHit(map[
      Square(0, 6) := Piece(King, Black), Square(1, 6) := Piece(Queen, White),
      Square(2, 5) := Piece(Bishop, White), Square(7, 0) := Piece(King, White)
    ], White, Square(7, 0), Offset(-1, 1), King)
  {
  }

  lemma DamianoMove7170Pawn()
    ensures !PawnThreat(map[
      Square(0, 6) := Piece(King, Black), Square(1, 6) := Piece(Queen, White),
      Square(2, 5) := Piece(Bishop, White), Square(7, 0) := Piece(King, White)
    ], White, Square(7, 0))
  {
  }

  lemma DamianoMove7170Safe()
    ensures !KingInDanger(map[
      Square(0, 6) := Piece(King, Black), Square(1, 6) := Piece(Queen, White),
      Square(2, 5) := Piece(Bishop, White), Square(7, 0) := Piece(King, White)
    ], White, Square(7, 0))
  {
    DamianoMove7170Line0();
    DamianoMove7170Line1();
    DamianoMove7170Line2();
    DamianoMove7170Line3();
    StraightParts(map[
      Square(0, 6) := Piece(King, Black), Square(1, 6) := Piece(Queen, White),
      Square(2, 5) := Piece(Bishop, White), Square(7, 0) := Piece(King, White)
    ], White, Square(7, 0), Rook);
    DamianoMove7170Diagonal0();
    DamianoMove7170Diagonal1();
    DamianoMove7170Diagonal2();
    DamianoMove7170Diagonal3();
    DiagonalParts(map[
      Square(0, 6) := Piece(King, Black), Square(1, 6) := Piece(Queen, White),
      Square(2, 5) := Piece(Bishop, White), Square(7, 0) := Piece(King, White)
    ], White, Square(7, 0), Bishop);
    DamianoMove7170Knight0();
    DamianoMove7170Knight1();
    DamianoMove7170Knight2();
    DamianoMove7170Knight3();
    DamianoMove7170Knight4();
    DamianoMove7170Knight5();
    DamianoMove7170Knight6();
    DamianoMove7170Knight7();
    KnightParts(map[
      Square(0, 6) := Piece(King, Black), Square(1, 6) := Piece(Queen, White),
      Square(2, 5) := Piece(Bishop, White), Square(7, 0) := Piece(King, White)
    ], White, Square(7, 0));
    DamianoMove7170Step0();
    DamianoMove7170Step1();
    DamianoMove7170Step2();
    DamianoMove7170Step3();
    DamianoMove7170Step4();
    DamianoMove7170Step5();
    DamianoMove7170Step6();
    DamianoMove7170Step7();
    KingStepParts(map[
      Square(0, 6) := Piece(King, Black), Square(1, 6) := Piece(Queen, White),
      Square(2, 5) := Piece(Bishop, White), Square(7, 0) := Piece(King, White)
    ], White, Square(7, 0));
    DamianoMove7170Pawn();
    DangerParts(map[
      Square(0, 6) := Piece(King, Black), Square(1, 6) := Piece(Queen, White),
      Square(2, 5) := Piece(Bishop, White), Square(7, 0) := Piece(King, White)
    ], White, Square(7, 0));
  }

  lemma DamianoMove7170KeepsWhite()
    ensures !Exposes(Damiano, White, Square(7, 1), Square(7, 0))
  {
    DamianoReady();
    DamianoMove7170();
    DamianoAt71();
    DamianoMove7170Safe();
    ExposesKing(Damiano, White, Square(7, 1), Square(7, 0), map[
      Square(0, 6) := Piece(King, Black), Square(1, 6) := Piece(Queen, White),
      Square(2, 5) := Piece(Bishop, White), Square(7, 0) := Piece(King, White)
    ], White);
  }

  lemma StalemateBlackKingLine0()
    ensures First(map[
      Square(0, 3) := Piece(King, Black), Square(1, 3) := Piece(Pawn, White),
      Square(2, 3) := Piece(King, White)
    ], Square(0, 3), Offset(-1, 0)) == None
  {
  }

  lemma StalemateBlackKingLine1()
    ensures First(map[
      Square(0, 3) := Piece(King, Black), Square(1, 3) := Piece(Pawn, White),
      Square(2, 3) := Piece(King, White)
    ], Square(0, 3), Offset(1, 0)) == Some(Piece(Pawn, White))
  {
  }

  lemma StalemateBlackKingLine2()
    ensures First(map[
      Square(0, 3) := Piece(King, Black), Square(1, 3) := Piece(Pawn, White),
      Square(2, 3) := Piece(King, White)
    ], Square(0, 3), Offset(0, -1)) == None
  {
  }

  lemma StalemateBlackKingLine3()
    ensures First(map[
      Square(0, 3) := Piece(King, Black), Square(1, 3) := Piece(Pawn, White),
      Square(2, 3) := Piece(King, White)
    ], Square(0, 3), Offset(0, 1)) == None
  {
  }

  lemma StalemateBlackKingDiagonal0()
    ensures First(map[
      Square(0, 3) := Piece(King, Black), Square(1, 3) := Piece(Pawn, White),
      Square(2, 3) := Piece(King, White)
    ], Square(0, 3), Offset(-1, 1)) == None
  {
  }

  lemma StalemateBlackKingDiagonal1()
    ensures First(map[
      Square(0, 3) := Piece(King, Black), Square(1, 3) := Piece(Pawn, White),
      Square(2, 3) := Piece(King, White)
    ], Square(0, 3), Offset(-1, -1)) == None
  {
  }

  lemma StalemateBlackKingDiagonal2()
    ensures First(map[
      Square(0, 3) := Piece(King, Black), Square(1, 3) := Piece(Pawn, White),
      Square(2, 3) := Piece(King, White)
    ], Square(0, 3), Offset(1, -1)) == None
  {
  }

  lemma StalemateBlackKingDiagonal3()
    ensures First(map[
      Square(0, 3) := Piece(King, Black), Square(1, 3) := Piece(Pawn, White),
      Square(2, 3) := Piece(King, White)
    ], Square(0, 3), Offset(1, 1)) == None
  {
  }

  lemma StalemateBlackKingKnight0()
    ensures !LeapHit(map[
      Square(0, 3) := Piece(King, Black), Square(1, 3) := Piece(Pawn, White),
      Square(2, 3) := Piece(King, White)
    ], Black, Square(0, 3), Offset(1, -2), Knight)
  {
  }

  lemma StalemateBlackKingKnight1()
    ensures !LeapHit(map[
      Square(0, 3) := Piece(King, Black), Square(1, 3) := Piece(Pawn, White),
      Square(2, 3) := Piece(King, White)
    ], Black, Square(0, 3), Offset(1, 2), Knight)
  {
  }

  lemma StalemateBlackKingKnight2()
    ensures !LeapHit(map[
      Square(0, 3) := Piece(King, Black), Square(1, 3) := Piece(Pawn, White),
      Square(2, 3) := Piece(King, White)
    ], Black, Square(0, 3), Offset(2, -1), Knight)
  {
  }

  lemma StalemateBlackKingKnight3()
    ensures !LeapHit(map[
      Square(0, 3) := Piece(King, Black), Square(1, 3) := Piece(Pawn, White),
      Square(2, 3) := Piece(King, White)
    ], Black, Square(0, 3), Offset(2, 1), Knight)
  {
  }

  lemma StalemateBlackKingKnight4()
    ensures !LeapHit(map[
      Square(0, 3) := Piece(King, Black), Square(1, 3) := Piece(Pawn, White),
      Square(2, 3) := Piece(King, White)
    ], Black, Square(0, 3), Offset(-1, -2), Knight)
  {
  }

  lemma StalemateBlackKingKnight5()
    ensures !LeapHit(map[
      Square(0, 3) := Piece(King, Black), Square(1, 3) := Piece(Pawn, White),
      Square(2, 3) := Piece(King, White)
    ], Black, Square(0, 3), Offset(-1, 2), Knight)
  {
  }

  lemma StalemateBlackKingKnight6()
    ensures !LeapHit(map[
      Square(0, 3) := Piece(King, Black), Square(1, 3) := Piece(Pawn, White),
      Square(2, 3) := Piece(King, White)
    ], Black, Square(0, 3), Offset(-2, -1), Knight)
  {
  }

  lemma StalemateBlackKingKnight7()
    ensures !LeapHit(map[
      Square(0, 3) := Piece(King, Black), Square(1, 3) := Piece(Pawn, White),
      Square(2, 3) := Piece(King, White)
    ], Black, Square(0, 3), Offset(-2, 1), Knight)
  {
  }

  lemma StalemateBlackKingStep0()
    ensures !LeapHit(map[
      Square(0, 3) := Piece(King, Black), Square(1, 3) := Piece(Pawn, White),
      Square(2, 3) := Piece(King, White)
    ], Black, Square(0, 3), Offset(0, -1), King)
  {
  }

  lemma StalemateBlackKingStep1()
    ensures !LeapHit(map[
      Square(0, 3) := Piece(King, Black), Square(1, 3) := Piece(Pawn, White),
      Square(2, 3) := Piece(King, White)
    ], Black, Square(0, 3), Offset(0, 1), King)
  {
  }

  lemma StalemateBlackKingStep2()
    ensures !LeapHit(map[
      Square(0, 3) := Piece(King, Black), Square(1, 3) := Piece(Pawn, White),
      Square(2, 3) := Piece(King, White)
    ], Black, Square(0, 3), Offset(1, -1), King)
  {
  }

  lemma StalemateBlackKingStep3()
    ensures !LeapHit(map[
      Square(0, 3) := Piece(King, Black), Square(1, 3) := Piece(Pawn, White),
      Square(2, 3) := Piece(King, White)
    ], Black, Square(0, 3), Offset(1, 0), King)
  {
  }

  lemma StalemateBlackKingStep4()
    ensures !LeapHit(map[
      Square(0, 3) := Piece(King, Black), Square(1, 3) := Piece(Pawn, White),
      Square(2, 3) := Piece(King, White)
    ], Black, Square(0, 3), Offset(1, 1), King)
  {
  }

  lemma StalemateBlackKingStep5()
    ensures !LeapHit(map[
      Square(0, 3) := Piece(King, Black), Square(1, 3) := Piece(Pawn, White),
      Square(2, 3) := Piece(King, White)
    ], Black, Square(0, 3), Offset(-1, -1), King)
  {
  }

  lemma StalemateBlackKingStep6()
    ensures !LeapHit(map[
      Square(0, 3) := Piece(King, Black), Square(1, 3) := Piece(Pawn, White),
      Square(2, 3) := Piece(King, White)
    ], Black, Square(0, 3), Offset(-1, 0), King)
  {
  }

  lemma StalemateBlackKingStep7()
    ensures !LeapHit(map[
      Square(0, 3) := Piece(King, Black), Square(1, 3) := Piece(Pawn, White),
      Square(2, 3) := Piece(King, White)
    ], Black, Square(0, 3), Offset(-1, 1), King)
  {
  }

  lemma StalemateBlackKingPawn()
    ensures !PawnThreat(map[
      Square(0, 3) := Piece(King, Black), Square(1, 3) := Piece(Pawn, White),
      Square(2, 3) := Piece(King, White)
    ], Black, Square(0, 3))
  {
  }

  lemma StalemateBlackKingSafe()
    ensures !KingInDanger(map[
      Square(0, 3) := Piece(King, Black), Square(1, 3) := Piece(Pawn, White),
      Square(2, 3) := Piece(King, White)
    ], Black, Square(0, 3))
  {
    StalemateBlackKingLine0();
    StalemateBlackKingLine1();
    StalemateBlackKingLine2();
    StalemateBlackKingLine3();
    StraightParts(map[
      Square(0, 3) := Piece(King, Black), Square(1, 3) := Piece(Pawn, White),
      Square(2, 3) := Piece(King, White)
    ], Black, Square(0, 3), Rook);
    StalemateBlackKingDiagonal0();
    StalemateBlackKingDiagonal1();
    StalemateBlackKingDiagonal2();
    StalemateBlackKingDiagonal3();
    DiagonalParts(map[
      Square(0, 3) := Piece(King, Black), Square(1, 3) := Piece(Pawn, White),
      Square(2, 3) := Piece(King, White)
    ], Black, Square(0, 3), Bishop);
    StalemateBlackKingKnight0();
    StalemateBlackKingKnight1();
    StalemateBlackKingKnight2();
    StalemateBlackKingKnight3();
    StalemateBlackKingKnight4();
    StalemateBlackKingKnight5();
    StalemateBlackKingKnight6();
    StalemateBlackKingKnight7();
    KnightParts(map[
      Square(0, 3) := Piece(King, Black), Square(1, 3) := Piece(Pawn, White),
      Square(2, 3) := Piece(King, White)
    ], Black, Square(0, 3));
    StalemateBlackKingStep0();
    StalemateBlackKingStep1();
    StalemateBlackKingStep2();
    StalemateBlackKingStep3();
    StalemateBlackKingStep4();
    StalemateBlackKingStep5();
    StalemateBlackKingStep6();
    StalemateBlackKingStep7();
    KingStepParts(map[
      Square(0, 3) := Piece(King, Black), Square(1, 3) := Piece(Pawn, White),
      Square(2, 3) := Piece(King, White)
    ], Black, Square(0, 3));
    StalemateBlackKingPawn();
    DangerParts(map[
      Square(0, 3) := Piece(King, Black), Square(1, 3) := Piece(Pawn, White),
      Square(2, 3) := Piece(King, White)
    ], Black, Square(0, 3));
  }

  lemma StalemateMoves03()
    ensures Moves(Stalemate.board, Piece(King, Black), Square(0, 3)) == [Square(0, 2), Square(0, 4), Square(1, 2), Square(1, 3), Square(1, 4)]
  {
  }

  lemma StalemateReady()
    ensures Ready(Stalemate) && Stalemate.turn == White
    ensures KingSquare(Stalemate, White) == Square(2, 3) && KingSquare(Stalemate, Black) == Square(0, 3)
  {
  }

  lemma StalemateAt03()
    ensures Square(0, 3) in Stalemate.board && Stalemate.board[Square(0, 3)] == Piece(King, Black)
  {
  }

  lemma StalemateMove0314()
    ensures Relocate(Stalemate.board, Square(0, 3), Square(1, 4)) == map[
      Square(1, 3) := Piece(Pawn, White), Square(1, 4) := Piece(King, Black),
      Square(2, 3) := Piece(King, White)
    ]
  {
  }

  lemma StalemateMove0314Step2()
    ensures LeapHit(map[
      Square(1, 3) := Piece(Pawn, White), Square(1, 4) := Piece(King, Black),
      Square(2, 3) := Piece(King, White)
    ], Black, Square(1, 4), Offset(1, -1), King)
  {
  }

  lemma StalemateMove0314Check()
    ensures KingInDanger(map[
      Square(1, 3) := Piece(Pawn, White), Square(1, 4) := Piece(King, Black),
      Square(2, 3) := Piece(King, White)
    ], Black, Square(1, 4))
  {
    StalemateMove0314Step2();
    KingStepParts(map[
      Square(1, 3) := Piece(Pawn, White), Square(1, 4) := Piece(King, Black),
      Square(2, 3) := Piece(King, White)
    ], Black, Square(1, 4));
    DangerParts(map[
      Square(1, 3) := Piece(Pawn, White), Square(1, 4) := Piece(King, Black),
      Square(2, 3) := Piece(King, White)
    ], Black, Square(1, 4));
  }

  lemma StalemateMove0314ExposesBlack()
    ensures Exposes(Stalemate, Black, Square(0, 3), Square(1, 4))
  {
    StalemateReady();
    StalemateMove0314();
    StalemateAt03();
    StalemateMove0314Check();
    ExposesKing(Stalemate, Black, Square(0, 3), Square(1, 4), map[
      Square(1, 3) := Piece(Pawn, White), Square(1, 4) := Piece(King, Black),
      Square(2, 3) := Piece(King, White)
    ], Black);
  }

  lemma StalemateMove0313()
    ensures Relocate(Stalemate.board, Square(0, 3), Square(1, 3)) == map[Square(1, 3) := Piece(King, Black), Square(2, 3) := Piece(King, White)]
  {
  }

  lemma StalemateMove0313King()
    ensures LeapThreat(map[Square(1, 3) := Piece(King, Black), Square(2, 3) := Piece(King, White)], Black, Square(1, 3), KingSteps, King)
  {
  }

  lemma StalemateMove0313Check()
    ensures KingInDanger(map[Square(1, 3) := Piece(King, Black), Square(2, 3) := Piece(King, White)], Black, Square(1, 3))
  {
    StalemateMove0313King();
    DangerParts(map[Square(1, 3) := Piece(King, Black), Square(2, 3) := Piece(King, White)], Black, Square(1, 3));
  }

  lemma StalemateMove0313ExposesBlack()
    ensures Exposes(Stalemate, Black, Square(0, 3), Square(1, 3))
  {
    StalemateReady();
    StalemateMove0313();
    StalemateAt03();
    StalemateMove0313Check();
    ExposesKing(Stalemate, Black, Square(0, 3), Square(1, 3), map[Square(1, 3) := Piece(King, Black), Square(2, 3) := Piece(King, White)], Black);
  }

  lemma StalemateMove0312()
    ensures Relocate(Stalemate.board, Square(0, 3), Square(1, 2)) == map[
      Square(1, 2) := Piece(King, Black), Square(1, 3) := Piece(Pawn, White),
      Square(2, 3) := Piece(King, White)
    ]
  {
  }

  lemma StalemateMove0312Step4()
    ensures LeapHit(map[
      Square(1, 2) := Piece(King, Black), Square(1, 3) := Piece(Pawn, White),
      Square(2, 3) := Piece(King, White)
    ], Black, Square(1, 2), Offset(1, 1), King)
  {
  }

  lemma StalemateMove0312Check()
    ensures KingInDanger(map[
      Square(1, 2) := Piece(King, Black), Square(1, 3) := Piece(Pawn, White),
      Square(2, 3) := Piece(King, White)
    ], Black, Square(1, 2))
  {
    StalemateMove0312Step4();
    KingStepParts(map[
      Square(1, 2) := Piece(King, Black), Square(1, 3) := Piece(Pawn, White),
      Square(2, 3) := Piece(King, White)
    ], Black, Square(1, 2));
    DangerParts(map[
      Square(1, 2) := Piece(King, Black), Square(1, 3) := Piece(Pawn, White),
      Square(2, 3) := Piece(King, White)
    ], Black, Square(1, 2));
  }

  lemma StalemateMove0312ExposesBlack()
    ensures Exposes(Stalemate, Black, Square(0, 3), Square(1, 2))
  {
    StalemateReady();
    StalemateMove0312();
    StalemateAt03();
    StalemateMove0312Check();
    ExposesKing(Stalemate, Black, Square(0, 3), Square(1, 2), map[
      Square(1, 2) := Piece(King, Black), Square(1, 3) := Piece(Pawn, White),
      Square(2, 3) := Piece(King, White)
    ], Black);
  }

  lemma StalemateMove0304()
    ensures Relocate(Stalemate.board, Square(0, 3), Square(0, 4)) == map[
      Square(0, 4) := Piece(King, Black), Square(1, 3) := Piece(Pawn, White),
      Square(2, 3) := Piece(King, White)
    ]
  {
  }

  lemma StalemateMove0304Pawn()
    ensures PawnThreat(map[
      Square(0, 4) := Piece(King, Black), Square(1, 3) := Piece(Pawn, White),
      Square(2, 3) := Piece(King, White)
    ], Black, Square(0, 4))
  {
  }

  lemma StalemateMove0304Check()
    ensures KingInDanger(map[
      Square(0, 4) := Piece(King, Black), Square(1, 3) := Piece(Pawn, White),
      Square(2, 3) := Piece(King, White)
    ], Black, Square(0, 4))
  {
    StalemateMove0304Pawn();
    DangerParts(map[
      Square(0, 4) := Piece(King, Black), Square(1, 3) := Piece(Pawn, White),
      Square(2, 3) := Piece(King, White)
    ], Black, Square(0, 4));
  }

  lemma StalemateMove0304ExposesBlack()
    ensures Exposes(Stalemate, Black, Square(0, 3), Square(0, 4))
  {
    StalemateReady();
    StalemateMove0304();
    StalemateAt03();
    StalemateMove0304Check();
    ExposesKing(Stalemate, Black, Square(0, 3), Square(0, 4), map[
      Square(0, 4) := Piece(King, Black), Square(1, 3) := Piece(Pawn, White),
      Square(2, 3) := Piece(King, White)
    ], Black);
  }

  lemma StalemateMove0302()
    ensures Relocate(Stalemate.board, Square(0, 3), Square(0, 2)) == map[
      Square(0, 2) := Piece(King, Black), Square(1, 3) := Piece(Pawn, White),
      Square(2, 3) := Piece(King, White)
    ]
  {
  }

  lemma StalemateMove0302Pawn()
    ensures PawnThreat(map[
      Square(0, 2) := Piece(King, Black), Square(1, 3) := Piece(Pawn, White),
      Square(2, 3) := Piece(King, White)
    ], Black, Square(0, 2))
  {
  }

  lemma StalemateMove0302Check()
    ensures KingInDanger(map[
      Square(0, 2) := Piece(King, Black), Square(1, 3) := Piece(Pawn, White),
      Square(2, 3) := Piece(King, White)
    ], Black, Square(0, 2))
  {
    StalemateMove0302Pawn();
    DangerParts(map[
      Square(0, 2) := Piece(King, Black), Square(1, 3) := Piece(Pawn, White),
      Square(2, 3) := Piece(King, White)
    ], Black, Square(0, 2));
  }

  lemma StalemateMove0302ExposesBlack()
    ensures Exposes(Stalemate, Black, Square(0, 3), Square(0, 2))
  {
    StalemateReady();
    StalemateMove0302();
    StalemateAt03();
    StalemateMove0302Check();
    ExposesKing(Stalemate, Black, Square(0, 3), Square(0, 2), map[
      Square(0, 2) := Piece(King, Black), Square(1, 3) := Piece(Pawn, White),
      Square(2, 3) := Piece(King, White)
    ], Black);
  }

  lemma StalemateSplit030204121314()
    ensures [Square(0, 2), Square(0, 4), Square(1, 2), Square(1, 3), Square(1, 4)] == [Square(0, 2)] + ([Square(0, 4)] + ([Square(1, 2)] + ([Square(1, 3)] + ([Square(1, 4)] + []))))
  {
  }

  lemma StalemateStuck03()
    ensures Stuck(Stalemate, Black, Square(0, 3))
  {
    StalemateReady();
    StalemateAt03();
    StalemateMoves03();
    StalemateMove0314ExposesBlack();
    StalemateMove0313ExposesBlack();
    StalemateMove0312ExposesBlack();
    StalemateMove0304ExposesBlack();
    StalemateMove0302ExposesBlack();
    StalemateSplit030204121314();
    SafeNil(Stalemate, Black, Square(0, 3));
    SafeDrop(Stalemate, Black, Square(0, 3), Square(1, 4), [], []);
    SafeDrop(Stalemate, Black, Square(0, 3), Square(1, 3), [Square(1, 4)] + [], []);
    SafeDrop(Stalemate, Black, Square(0, 3), Square(1, 2), [Square(1, 3)] + ([Square(1, 4)] + []), []);
    SafeDrop(Stalemate, Black, Square(0, 3), Square(0, 4), [Square(1, 2)] + ([Square(1, 3)] + ([Square(1, 4)] + [])), []);
    SafeDrop(Stalemate, Black, Square(0, 3), Square(0, 2), [Square(0, 4)] + ([Square(1, 2)] + ([Square(1, 3)] + ([Square(1, 4)] + []))), []);
  }

  lemma StalemateOwnersBlack()
    ensures forall s :: Holds(Stalemate.board, s, Black) ==> s in {Square(0, 3)}
  {
  }

  lemma StalemateMoves23()
    ensures Moves(Stalemate.board, Piece(King, White), Square(2, 3)) == [Square(2, 2), Square(2, 4), Square(3, 2), Square(3, 3), Square(3, 4), Square(1, 2), Square(1, 4)]
  {
  }

  lemma StalemateMove2322()
    ensures Relocate(Stalemate.board, Square(2, 3), Square(2, 2)) == map[
      Square(0, 3) := Piece(King, Black), Square(1, 3) := Piece(Pawn, White),
      Square(2, 2) := Piece(King, White)
    ]
  {
  }

  lemma StalemateAt23()
    ensures Square(2, 3) in Stalemate.board && Stalemate.board[Square(2, 3)] == Piece(King, White)
  {
  }

  lemma StalemateMove2322Line0()
    ensures First(map[
      Square(0, 3) := Piece(King, Black), Square(1, 3) := Piece(Pawn, White),
      Square(2, 2) := Piece(King, White)
    ], Square(2, 2), Offset(-1, 0)) == None
  {
  }

  lemma StalemateMove2322Line1()
    ensures First(map[
      Square(0, 3) := Piece(King, Black), Square(1, 3) := Piece(Pawn, White),
      Square(2, 2) := Piece(King, White)
    ], Square(2, 2), Offset(1, 0)) == None
  {
  }

  lemma StalemateMove2322Line2()
    ensures First(map[
      Square(0, 3) := Piece(King, Black), Square(1, 3) := Piece(Pawn, White),
      Square(2, 2) := Piece(King, White)
    ], Square(2, 2), Offset(0, -1)) == None
  {
  }

  lemma StalemateMove2322Line3()
    ensures First(map[
      Square(0, 3) := Piece(King, Black), Square(1, 3) := Piece(Pawn, White),
      Square(2, 2) := Piece(King, White)
    ], Square(2, 2), Offset(0, 1)) == None
  {
  }

  lemma StalemateMove2322Diagonal0()
    ensures First(map[
      Square(0, 3) := Piece(King, Black), Square(1, 3) := Piece(Pawn, White),
      Square(2, 2) := Piece(King, White)
    ], Square(2, 2), Offset(-1, 1)) == Some(Piece(Pawn, White))
  {
  }

  lemma StalemateMove2322Diagonal1()
    ensures First(map[
      Square(0, 3) := Piece(King, Black), Square(1, 3) := Piece(Pawn, White),
      Square(2, 2) := Piece(King, White)
    ], Square(2, 2), Offset(-1, -1)) == None
  {
  }

  lemma StalemateMove2322Diagonal2()
    ensures First(map[
      Square(0, 3) := Piece(King, Black), Square(1, 3) := Piece(Pawn, White),
      Square(2, 2) := Piece(King, White)
    ], Square(2, 2), Offset(1, -1)) == None
  {
  }

  lemma StalemateMove2322Diagonal3()
    ensures First(map[
      Square(0, 3) := Piece(King, Black), Square(1, 3) := Piece(Pawn, White),
      Square(2, 2) := Piece(King, White)
    ], Square(2, 2), Offset(1, 1)) == None
  {
  }

  lemma StalemateMove2322Knight0()
    ensures !LeapHit(map[
      Square(0, 3) := Piece(King, Black), Square(1, 3) := Piece(Pawn, White),
      Square(2, 2) := Piece(King, White)
    ], White, Square(2, 2), Offset(1, -2), Knight)
  {
  }

  lemma StalemateMove2322Knight1()
    ensures !LeapHit(map[
      Square(0, 3) := Piece(King, Black), Square(1, 3) := Piece(Pawn, White),
      Square(2, 2) := Piece(King, White)
    ], White, Square(2, 2), Offset(1, 2), Knight)
  {
  }

  lemma StalemateMove2322Knight2()
    ensures !LeapHit(map[
      Square(0, 3) := Piece(King, Black), Square(1, 3) := Piece(Pawn, White),
      Square(2, 2) := Piece(King, White)
    ], White, Square(2, 2), Offset(2, -1), Knight)
  {
  }

  lemma StalemateMove2322Knight3()
    ensures !LeapHit(map[
      Square(0, 3) := Piece(King, Black), Square(1, 3) := Piece(Pawn, White),
      Square(2, 2) := Piece(King, White)
    ], White, Square(2, 2), Offset(2, 1), Knight)
  {
  }

  lemma StalemateMove2322Knight4()
    ensures !LeapHit(map[
      Square(0, 3) := Piece(King, Black), Square(1, 3) := Piece(Pawn, White),
      Square(2, 2) := Piece(King, White)
    ], White, Square(2, 2), Offset(-1, -2), Knight)
  {
  }

  lemma StalemateMove2322Knight5()
    ensures !LeapHit(map[
      Square(0, 3) := Piece(King, Black), Square(1, 3) := Piece(Pawn, White),
      Square(2, 2) := Piece(King, White)
    ], White, Square(2, 2), Offset(-1, 2), Knight)
  {
  }

  lemma StalemateMove2322Knight6()
    ensures !LeapHit(map[
      Square(0, 3) := Piece(King, Black), Square(1, 3) := Piece(Pawn, White),
      Square(2, 2) := Piece(King, White)
    ], White, Square(2, 2), Offset(-2, -1), Knight)
  {
  }

  lemma StalemateMove2322Knight7()
    ensures !LeapHit(map[
      Square(0, 3) := Piece(King, Black), Square(1, 3) := Piece(Pawn, White),
      Square(2, 2) := Piece(King, White)
    ], White, Square(2, 2), Offset(-2, 1), Knight)
  {
  }

  lemma StalemateMove2322Step0()
    ensures !LeapHit(map[
      Square(0, 3) := Piece(King, Black), Square(1, 3) := Piece(Pawn, White),
      Square(2, 2) := Piece(King, White)
    ], White, Square(2, 2), Offset(0, -1), King)
  {
  }

  lemma StalemateMove2322Step1()
    ensures !LeapHit(map[
      Square(0, 3) := Piece(King, Black), Square(1, 3) := Piece(Pawn, White),
      Square(2, 2) := Piece(King, White)
    ], White, Square(2, 2), Offset(0, 1), King)
  {
  }

  lemma StalemateMove2322Step2()
    ensures !LeapHit(map[
      Square(0, 3) := Piece(King, Black), Square(1, 3) := Piece(Pawn, White),
      Square(2, 2) := Piece(King, White)
    ], White, Square(2, 2), Offset(1, -1), King)
  {
  }

  lemma StalemateMove2322Step3()
    ensures !LeapHit(map[
      Square(0, 3) := Piece(King, Black), Square(1, 3) := Piece(Pawn, White),
      Square(2, 2) := Piece(King, White)
    ], White, Square(2, 2), Offset(1, 0), King)
  {
  }

  lemma StalemateMove2322Step4()
    ensures !LeapHit(map[
      Square(0, 3) := Piece(King, Black), Square(1, 3) := Piece(Pawn, White),
      Square(2, 2) := Piece(King, White)
    ], White, Square(2, 2), Offset(1, 1), King)
  {
  }

  lemma StalemateMove2322Step5()
    ensures !LeapHit(map[
      Square(0, 3) := Piece(King, Black), Square(1, 3) := Piece(Pawn, White),
      Square(2, 2) := Piece(King, White)
    ], White, Square(2, 2), Offset(-1, -1), King)
  {
  }

  lemma StalemateMove2322Step6()
    ensures !LeapHit(map[
      Square(0, 3) := Piece(King, Black), Square(1, 3) := Piece(Pawn, White),
      Square(2, 2) := Piece(King, White)
    ], White, Square(2, 2), Offset(-1, 0), King)
  {
  }

  lemma StalemateMove2322Step7()
    ensures !LeapHit(map[
      Square(0, 3) := Piece(King, Black), Square(1, 3) := Piece(Pawn, White),
      Square(2, 2) := Piece(King, White)
    ], White, Square(2, 2), Offset(-1, 1), King)
  {
  }

  lemma StalemateMove2322Pawn()
    ensures !PawnThreat(map[
      Square(0, 3) := Piece(King, Black), Square(1, 3) := Piece(Pawn, White),
      Square(2, 2) := Piece(King, White)
    ], White, Square(2, 2))
  {
  }

  lemma StalemateMove2322Safe()
    ensures !KingInDanger(map[
      Square(0, 3) := Piece(King, Black), Square(1, 3) := Piece(Pawn, White),
      Square(2, 2) := Piece(King, White)
    ], White, Square(2, 2))
  {
    StalemateMove2322Line0();
    StalemateMove2322Line1();
    StalemateMove2322Line2();
    StalemateMove2322Line3();
    StraightParts(map[
      Square(0, 3) := Piece(King, Black), Square(1, 3) := Piece(Pawn, White),
      Square(2, 2) := Piece(King, White)
    ], White, Square(2, 2), Rook);
    StalemateMove2322Diagonal0();
    StalemateMove2322Diagonal1();
    StalemateMove2322Diagonal2();
    StalemateMove2322Diagonal3();
    DiagonalParts(map[
      Square(0, 3) := Piece(King, Black), Square(1, 3) := Piece(Pawn, White),
      Square(2, 2) := Piece(King, White)
    ], White, Square(2, 2), Bishop);
    StalemateMove2322Knight0();
    StalemateMove2322Knight1();
    StalemateMove2322Knight2();
    StalemateMove2322Knight3();
    StalemateMove2322Knight4();
    StalemateMove2322Knight5();
    StalemateMove2322Knight6();
    StalemateMove2322Knight7();
    KnightParts(map[
      Square(0, 3) := Piece(King, Black), Square(1, 3) := Piece(Pawn, White),
      Square(2, 2) := Piece(King, White)
    ], White, Square(2, 2));
    StalemateMove2322Step0();
    StalemateMove2322Step1();
    StalemateMove2322Step2();
    StalemateMove2322Step3();
    StalemateMove2322Step4();
    StalemateMove2322Step5();
    StalemateMove2322Step6();
    StalemateMove2322Step7();
    KingStepParts(map[
      Square(0, 3) := Piece(King, Black), Square(1, 3) := Piece(Pawn, White),
      Square(2, 2) := Piece(King, White)
    ], White, Square(2, 2));
    StalemateMove2322Pawn();
    DangerParts(map[
      Square(0, 3) := Piece(King, Black), Square(1, 3) := Piece(Pawn, White),
      Square(2, 2) := Piece(King, White)
    ], White, Square(2, 2));
  }

  lemma StalemateMove2322KeepsWhite()
    ensures !Exposes(Stalemate, White, Square(2, 3), Square(2, 2))
  {
    StalemateReady();
    StalemateMove2322();
    StalemateAt23();
    StalemateMove2322Safe();
    ExposesKing(Stalemate, White, Square(2, 3), Square(2, 2), map[
      Square(0, 3) := Piece(King, Black), Square(1, 3) := Piece(Pawn, White),
      Square(2, 2) := Piece(King, White)
    ], White);
  }

  lemma StalemateBoard()
    ensures Stalemate.board == map[
      Square(0, 3) := Piece(King, Black), Square(1, 3) := Piece(Pawn, White),
      Square(2, 3) := Piece(King, White)
    ]
  {
  }

  /** From the opening position, the pawn step (6, 2) -> (6, 3) leaves the White king safe. */
  lemma OpeningPawnStepIsSafe()
    ensures !WillKingBeInDanger(Opening, Square(6, 2), Square(6, 3))
  {
    OpeningReady();
    OpeningMove6263KeepsWhite();
  }

  /** A Black rook moved onto the White king's rank puts that king in danger. */
  lemma RookMoveChecksKing()
    ensures WillKingBeInDanger(RookCheck, Square(3, 3), Square(7, 3))
  {
    RookCheckReady();
    RookCheckMove3373ExposesWhite();
  }

  /** Moving the White knight off the back rank opens the Black rook's line to the White king. */
  lemma KnightMoveDiscoversCheck()
    ensures WillKingBeInDanger(Discovered, Square(7, 4), Square(5, 3))
  {
    DiscoveredReady();
    DiscoveredMove7453ExposesWhite();
  }

  /** Both pawn moves from (6, 0) in the opening position are kept, in order. */
  lemma OpeningPawnKeepsBoth()
    ensures FilterDestination(Opening, [Square(5, 0), Square(4, 0)], Square(6, 0)) == [Square(5, 0), Square(4, 0)]
  {
    OpeningReady();
    OpeningMove6040KeepsWhite();
    OpeningMove6050KeepsWhite();
    OpeningSplit605040();
    SafeNil(Opening, White, Square(6, 0));
    SafeKeep(Opening, White, Square(6, 0), Square(4, 0), [], []);
    SafeKeep(Opening, White, Square(6, 0), Square(5, 0), [Square(4, 0)] + [], [Square(4, 0)]);
  }

  /** A knight pinned to its king by a rook keeps none of its moves, the capture included. */
  lemma PinnedKnightKeepsNone()
    ensures FilterDestination(PinnedKnight, [Square(5, 3), Square(5, 5), Square(6, 2), Square(6, 6)], Square(7, 4)) == []
  {
    PinnedKnightReady();
    PinnedKnightMove7466ExposesWhite();
    PinnedKnightMove7462ExposesWhite();
    PinnedKnightMove7455ExposesWhite();
    PinnedKnightMove7453ExposesWhite();
    PinnedKnightSplit7453556266();
    SafeNil(PinnedKnight, White, Square(7, 4));
    SafeDrop(PinnedKnight, White, Square(7, 4), Square(6, 6), [], []);
    SafeDrop(PinnedKnight, White, Square(7, 4), Square(6, 2), [Square(6, 6)] + [], []);
    SafeDrop(PinnedKnight, White, Square(7, 4), Square(5, 5), [Square(6, 2)] + ([Square(6, 6)] + []), []);
    SafeDrop(PinnedKnight, White, Square(7, 4), Square(5, 3), [Square(5, 5)] + ([Square(6, 2)] + ([Square(6, 6)] + [])), []);
  }

  /** A bishop pinned along a diagonal keeps only the capture of the pinning bishop. */
  lemma PinnedBishopKeepsCapture()
    ensures FilterDestination(PinnedBishop, [Square(5, 4), Square(5, 6), Square(7, 4)], Square(6, 5)) == [Square(5, 4)]
  {
    PinnedBishopReady();
    PinnedBishopMove6574ExposesWhite();
    PinnedBishopMove6556ExposesWhite();
    PinnedBishopMove6554KeepsWhite();
    PinnedBishopSplit65545674();
    SafeNil(PinnedBishop, White, Square(6, 5));
    SafeDrop(PinnedBishop, White, Square(6, 5), Square(7, 4), [], []);
    SafeDrop(PinnedBishop, White, Square(6, 5), Square(5, 6), [Square(7, 4)] + [], []);
    SafeKeep(PinnedBishop, White, Square(6, 5), Square(5, 4), [Square(5, 6)] + ([Square(7, 4)] + []), []);
  }

  /** A king next to a rook's rank keeps only the squares the rook does not reach. */
  lemma KingAvoidsRookRank()
    ensures FilterDestination(KingBeside, [Square(7, 5), Square(7, 7), Square(6, 5), Square(6, 6), Square(6, 7)], Square(7, 6)) == [Square(7, 5), Square(7, 7)]
  {
    KingBesideReady();
    KingBesideMove7667ExposesWhite();
    KingBesideMove7666ExposesWhite();
    KingBesideMove7665ExposesWhite();
    KingBesideMove7677KeepsWhite();
    KingBesideMove7675KeepsWhite();
    KingBesideSplit767577656667();
    SafeNil(KingBeside, White, Square(7, 6));
    SafeDrop(KingBeside, White, Square(7, 6), Square(6, 7), [], []);
    SafeDrop(KingBeside, White, Square(7, 6), Square(6, 6), [Square(6, 7)] + [], []);
    SafeDrop(KingBeside, White, Square(7, 6), Square(6, 5), [Square(6, 6)] + ([Square(6, 7)] + []), []);
    SafeKeep(KingBeside, White, Square(7, 6), Square(7, 7), [Square(6, 5)] + ([Square(6, 6)] + ([Square(6, 7)] + [])), []);
    SafeKeep(KingBeside, White, Square(7, 6), Square(7, 5), [Square(7, 7)] + ([Square(6, 5)] + ([Square(6, 6)] + ([Square(6, 7)] + []))), [Square(7, 7)]);
  }

  /** Neither side is mated in the opening position. */
  lemma OpeningIsNoMate()
    ensures !Checkmate(Opening, White) && !Checkmate(Opening, Black)
  {
    OpeningReady();
    OpeningAt60();
    OpeningReach6050();
    OpeningMove6050KeepsWhite();
    LegalMoveRefutesCheckmate(Opening, White, Square(6, 0), Square(5, 0));
    OpeningReady();
    OpeningAt10();
    OpeningReach1020();
    OpeningMove1020KeepsBlack();
    LegalMoveRefutesCheckmate(Opening, Black, Square(1, 0), Square(2, 0));
  }

  /** A rook on the back rank mates the Black king behind its own pawns; White is not mated. */
  lemma BackRankMate()
    ensures Checkmate(BackRank, Black) && !Checkmate(BackRank, White)
  {
    CheckmateMeansNoLegalMove(BackRank, Black);
    BackRankOwnersBlack();
    forall s | OnBoard(s)
      ensures Stuck(BackRank, Black, s)
    {
      if Holds(BackRank.board, s, Black) {
        if s == Square(0, 6) {
          BackRankStuck06();
        } else if s == Square(1, 5) {
          BackRankStuck15();
        } else if s == Square(1, 6) {
          BackRankStuck16();
        } else if s == Square(1, 7) {
          BackRankStuck17();
        }
      }
    }
    BackRankReady();
    BackRankAt76();
    BackRankMoves76();
    BackRankMove7675KeepsWhite();
    LegalMoveRefutesCheckmate(BackRank, White, Square(7, 6), Square(7, 5));
  }

  /** Anderssen's mate: rook and pawn, supported by the king, mate Black; White is not mated. */
  lemma AnderssenMate()
    ensures Checkmate(Anderssen, Black) && !Checkmate(Anderssen, White)
  {
    CheckmateMeansNoLegalMove(Anderssen, Black);
    AnderssenOwnersBlack();
    forall s | OnBoard(s)
      ensures Stuck(Anderssen, Black, s)
    {
      if Holds(Anderssen.board, s, Black) {
        if s == Square(0, 6) {
          AnderssenStuck06();
        }
      }
    }
    AnderssenReady();
    AnderssenAt25();
    AnderssenMoves25();
    AnderssenMove2524KeepsWhite();
    LegalMoveRefutesCheckmate(Anderssen, White, Square(2, 5), Square(2, 4));
  }

  /** Damiano's bishop mate: the queen, guarded by the bishop, mates Black; White is not mated. */
  lemma DamianoMate()
    ensures Checkmate(Damiano, Black) && !Checkmate(Damiano, White)
  {
    CheckmateMeansNoLegalMove(Damiano, Black);
    DamianoOwnersBlack();
    forall s | OnBoard(s)
      ensures Stuck(Damiano, Black, s)
    {
      if Holds(Damiano.board, s, Black) {
        if s == Square(0, 6) {
          DamianoStuck06();
        }
      }
    }
    DamianoReady();
    DamianoAt71();
    DamianoMoves71();
    DamianoMove7170KeepsWhite();
    LegalMoveRefutesCheckmate(Damiano, White, Square(7, 1), Square(7, 0));
  }

  /** A stalemated Black king is not in danger, yet no Black move is legal, so it is reported as mated. */
  lemma StalemateCountsAsMate()
    ensures Checkmate(Stalemate, Black) && !KingInDanger(Stalemate.board, Black, Square(0, 3))
    ensures !Checkmate(Stalemate, White)
  {
    CheckmateMeansNoLegalMove(Stalemate, Black);
    StalemateOwnersBlack();
    forall s | OnBoard(s)
      ensures Stuck(Stalemate, Black, s)
    {
      if Holds(Stalemate.board, s, Black) {
        if s == Square(0, 3) {
          StalemateStuck03();
        }
      }
    }
    StalemateBlackKingSafe();
    StalemateBoard();
    StalemateReady();
    StalemateAt23();
    StalemateMoves23();
    StalemateMove2322KeepsWhite();
    LegalMoveRefutesCheckmate(Stalemate, White, Square(2, 3), Square(2, 2));
  }

}
