/**
 * The legality filter and checkmate detector of the game controller.
 *
 * A candidate move is tried on a copy of the board; it is kept only when the
 * guarded king is not in danger afterwards. The guarded king is the king
 * of the side being asked about, on the square the game remembers for it,
 * unless the moved piece is itself a king, which is then checked on its new
 * square.
 */
module Legality {
  import opened Pieces
  import opened Boards
  import opened Movement
  import opened Danger

  /**
   * The controller's state: the board, the side to move, and the squares
   * the two kings remember for themselves.
   */
  datatype Game = Game(board: Board, turn: Colour, whiteKing: Square, blackKing: Square)

  function KingSquare(g: Game, c: Colour): Square {
    if c == White then g.whiteKing else g.blackKing
  }

  /** The game is set up far enough for danger checks: both remembered king squares are on the board. */
  predicate Ready(g: Game) {
    OnBoard(g.whiteKing) && OnBoard(g.blackKing)
  }

  /** The board after simulating `from` -> `to`. */
  function Simulated(g: Game, from: Square, to: Square): Board {
    Relocate(g.board, from, to)
  }

  /**
   * Moving `from` -> `to` leaves the guarded king attacked; `side` is the
   * colour whose remembered king is guarded when the moved piece is not a king.
   */
  predicate Exposes(g: Game, side: Colour, from: Square, to: Square)
    requires Ready(g) && OnBoard(to)
  {
    var b := Simulated(g, from, to);
    if from in g.board && g.board[from].kind == King then KingInDanger(b, g.board[from].colour, to)
    else KingInDanger(b, side, KingSquare(g, side))
  }

  /** The source's `willkingbeindanger`: the side to move guards its own king. */
  predicate WillKingBeInDanger(g: Game, from: Square, to: Square)
    requires Ready(g) && OnBoard(to)
  {
    Exposes(g, g.turn, from, to)
  }

  /**
   * A move of a piece other than a king exposes `side` exactly when, on the
   * board after the move, some enemy piece has the remembered king square
   * among its moves.
   */
  lemma ExposesMeansAttacked(g: Game, side: Colour, from: Square, to: Square)
    requires Ready(g) && OnBoard(to)
    requires !(from in g.board && g.board[from].kind == King)
    requires Holds(Simulated(g, from, to), KingSquare(g, side), side)
    ensures Exposes(g, side, from, to) <==> Attacked(Simulated(g, from, to), side, KingSquare(g, side))
  {
    DangerMeansAttacked(Simulated(g, from, to), side, KingSquare(g, side));
  }

  /**
   * A king that moves exposes itself exactly when some enemy piece has its
   * new square among its moves on the board after the move.
   */
  lemma KingMoveExposesMeansAttacked(g: Game, side: Colour, from: Square, to: Square)
    requires Ready(g) && OnBoard(to)
    requires from in g.board && g.board[from].kind == King && from != to
    ensures Exposes(g, side, from, to) <==> Attacked(Simulated(g, from, to), g.board[from].colour, to)
  {
    DangerMeansAttacked(Simulated(g, from, to), g.board[from].colour, to);
  }

  /** The source's check of a candidate move: the side to move may not leave its king attacked. */
  lemma WillKingBeInDangerMeansAttacked(g: Game, from: Square, to: Square)
    requires Ready(g) && OnBoard(to)
    requires from in g.board && g.board[from].colour == g.turn
    requires g.board[from].kind != King ==> Holds(Simulated(g, from, to), KingSquare(g, g.turn), g.turn)
    requires from != to
    ensures WillKingBeInDanger(g, from, to) <==>
      Attacked(Simulated(g, from, to), g.turn,
               if g.board[from].kind == King then to else KingSquare(g, g.turn))
  {
    if g.board[from].kind == King {
      KingMoveExposesMeansAttacked(g, g.turn, from, to);
    } else {
      ExposesMeansAttacked(g, g.turn, from, to);
    }
  }

  predicate AllOnBoard(cands: seq<Square>) {
    forall i :: 0 <= i < |cands| ==> OnBoard(cands[i])
  }

  /** The candidates, in their order, whose move does not expose the guarded king of `side`. */
  function Safe(g: Game, side: Colour, from: Square, cands: seq<Square>): seq<Square>
    requires Ready(g) && AllOnBoard(cands)
  {
    if cands == [] then []
    else
      (if Exposes(g, side, from, cands[0]) then [] else [cands[0]])
      + Safe(g, side, from, cands[1..])
  }

  /** The source's `filterdestination`, which guards the side to move. */
  function FilterDestination(g: Game, cands: seq<Square>, from: Square): seq<Square>
    requires Ready(g) && AllOnBoard(cands)
  {
    Safe(g, g.turn, from, cands)
  }

  /** The moves of the piece on `s` that keep the king of `side` safe; none for an empty square. */
  function LegalMoves(g: Game, side: Colour, s: Square): seq<Square>
    requires Ready(g) && OnBoard(s)
  {
    if s in g.board then
      MovesStayOnBoard(g.board, g.board[s], s);
      Safe(g, side, s, Moves(g.board, g.board[s], s))
    else []
  }

  /** No piece of colour `c` among the squares numbered `i` to 63 (row-major) has a legal move. */
  predicate StuckFrom(g: Game, c: Colour, i: nat)
    requires Ready(g)
    decreases 64 - i
  {
    if i >= 64 then true
    else
      var s := Square(i / 8, i % 8);
      Stuck(g, c, s) && StuckFrom(g, c, i + 1)
  }

  /**
   * The source's `checkmate(c)`: no piece of colour `c` has a move that keeps
   * its king safe. Whether that king is attacked right now is not consulted.
   */
  predicate Checkmate(g: Game, c: Colour)
    requires Ready(g)
  {
    StuckFrom(g, c, 0)
  }

  /* ---------------------------------------------------------------------
   * The filter keeps exactly the safe candidates, in their original order.
   * ------------------------------------------------------------------- */

  /** `a` can be obtained from `b` by deleting elements. */
  predicate IsSubsequence<T(==)>(a: seq<T>, b: seq<T>)
    decreases |b|
  {
    if a == [] then true
    else if b == [] then false
    else (a[0] == b[0] && IsSubsequence(a[1..], b[1..])) || IsSubsequence(a, b[1..])
  }

  lemma {:induction false} SafeMembers(g: Game, side: Colour, from: Square, cands: seq<Square>, x: Square)
    requires Ready(g) && AllOnBoard(cands)
    ensures x in Safe(g, side, from, cands) <==> x in cands && !Exposes(g, side, from, x)
  {
    if cands != [] {
      SafeMembers(g, side, from, cands[1..], x);
      assert x in cands <==> x == cands[0] || x in cands[1..];
    }
  }

  lemma {:induction false} SafeIsSubsequence(g: Game, side: Colour, from: Square, cands: seq<Square>)
    requires Ready(g) && AllOnBoard(cands)
    ensures IsSubsequence(Safe(g, side, from, cands), cands)
  {
    if cands != [] {
      SafeIsSubsequence(g, side, from, cands[1..]);
      var rest := Safe(g, side, from, cands[1..]);
      if !Exposes(g, side, from, cands[0]) {
        assert ([cands[0]] + rest)[1..] == rest;
      } else {
        assert Safe(g, side, from, cands) == rest;
        assert IsSubsequence(rest, cands[1..]);
      }
    }
  }

  /** The filter returns its input unchanged exactly when no candidate exposes the king. */
  lemma {:induction false} SafeUnchanged(g: Game, side: Colour, from: Square, cands: seq<Square>)
    requires Ready(g) && AllOnBoard(cands)
    ensures Safe(g, side, from, cands) == cands
        <==> forall i :: 0 <= i < |cands| ==> !Exposes(g, side, from, cands[i])
  {
    if cands != [] {
      SafeUnchanged(g, side, from, cands[1..]);
      var rest := Safe(g, side, from, cands[1..]);
      if Safe(g, side, from, cands) == cands {
        forall i | 0 <= i < |cands|
          ensures !Exposes(g, side, from, cands[i])
        {
          SafeMembers(g, side, from, cands, cands[i]);
        }
      }
      if forall i :: 0 <= i < |cands| ==> !Exposes(g, side, from, cands[i]) {
        assert !Exposes(g, side, from, cands[0]);
        forall i | 0 <= i < |cands[1..]|
          ensures !Exposes(g, side, from, cands[1..][i])
        {
          assert cands[1..][i] == cands[i + 1];
        }
        assert [cands[0]] + cands[1..] == cands;
      }
    }
  }

  /** Filtering twice removes nothing more. */
  lemma {:induction false} SafeIdempotent(g: Game, side: Colour, from: Square, cands: seq<Square>)
    requires Ready(g) && AllOnBoard(cands)
    ensures AllOnBoard(Safe(g, side, from, cands))
    ensures Safe(g, side, from, Safe(g, side, from, cands)) == Safe(g, side, from, cands)
  {
    if cands != [] {
      SafeIdempotent(g, side, from, cands[1..]);
      var rest := Safe(g, side, from, cands[1..]);
      if !Exposes(g, side, from, cands[0]) {
        var kept := [cands[0]] + rest;
        assert kept[0] == cands[0] && kept[1..] == rest;
        assert Safe(g, side, from, kept) == [cands[0]] + Safe(g, side, from, rest);
      } else {
        assert Safe(g, side, from, cands) == rest;
      }
    }
  }

  /** The source's `filterdestination` keeps a candidate exactly when `willkingbeindanger` says no. */
  lemma FilterDestinationMembers(g: Game, cands: seq<Square>, from: Square, x: Square)
    requires Ready(g) && AllOnBoard(cands)
    ensures x in FilterDestination(g, cands, from) <==> x in cands && !WillKingBeInDanger(g, from, x)
    ensures IsSubsequence(FilterDestination(g, cands, from), cands)
  {
    SafeMembers(g, g.turn, from, cands, x);
    SafeIsSubsequence(g, g.turn, from, cands);
  }

  /* ---------------------------------------------------------------------
   * Checkmate is "no piece of that colour has a legal move".
   * ------------------------------------------------------------------- */

  /** No piece of colour `c` has a move that keeps its king safe. */
  ghost predicate NoLegalMove(g: Game, c: Colour)
    requires Ready(g)
  {
    forall s :: OnBoard(s) ==> Stuck(g, c, s)
  }

  /** The square holds no piece of colour `c`, or that piece has no legal move. */
  predicate Stuck(g: Game, c: Colour, s: Square)
    requires Ready(g) && OnBoard(s)
  {
    !Holds(g.board, s, c) || LegalMoves(g, c, s) == []
  }

  function Index(s: Square): int {
    8 * s.row + s.col
  }

  lemma {:induction false} StuckFromMeans(g: Game, c: Colour, i: nat)
    requires Ready(g)
    ensures StuckFrom(g, c, i)
        <==> forall s :: OnBoard(s) && Index(s) >= i ==> Stuck(g, c, s)
    decreases 64 - i
  {
    if i < 64 {
      StuckFromMeans(g, c, i + 1);
      var t := Square(i / 8, i % 8);
      assert OnBoard(t) && Index(t) == i;
      forall s | OnBoard(s) && Index(s) == i
        ensures s == t
      {
      }
    }
  }

  lemma CheckmateMeansNoLegalMove(g: Game, c: Colour)
    requires Ready(g)
    ensures Checkmate(g, c) <==> NoLegalMove(g, c)
  {
    StuckFromMeans(g, c, 0);
  }

  /** One piece of colour `c` with a move that keeps its king safe is enough to refute checkmate. */
  lemma LegalMoveRefutesCheckmate(g: Game, c: Colour, s: Square, x: Square)
    requires Ready(g) && OnBoard(s) && OnBoard(x)
    requires s in g.board && g.board[s].colour == c
    requires x in Moves(g.board, g.board[s], s) && !Exposes(g, c, s, x)
    ensures x in LegalMoves(g, c, s) && !Stuck(g, c, s) && !Checkmate(g, c)
  {
    MovesStayOnBoard(g.board, g.board[s], s);
    SafeMembers(g, c, s, Moves(g.board, g.board[s], s), x);
    CheckmateMeansNoLegalMove(g, c);
  }

  /**
   * The source's scan: rows and columns in order, returning false at the
   * first piece of colour `c` that has a legal move.
   */
  method CheckmateScan(g: Game, c: Colour) returns (mate: bool)
    requires Ready(g)
    ensures mate <==> NoLegalMove(g, c)
  {
    var i := 0;
    while i < 8
      invariant 0 <= i <= 8
      invariant forall s :: OnBoard(s) && Index(s) < 8 * i ==> Stuck(g, c, s)
    {
      var j := 0;
      while j < 8
        invariant 0 <= j <= 8
        invariant forall s :: OnBoard(s) && Index(s) < 8 * i + j ==> Stuck(g, c, s)
      {
        var here := Square(i, j);
        var stuck := Stuck(g, c, here);
        if !stuck {
          return false;
        }
        forall s | OnBoard(s) && Index(s) == 8 * i + j
          ensures Stuck(g, c, s)
        {
          assert s.row == i by {
            assert 8 * s.row <= 8 * i + j < 8 * s.row + 8;
          }
          assert s == here;
        }
        j := j + 1;
      }
      i := i + 1;
    }
    return true;
  }
}
