/**
 * A cell of the board as the interface keeps it: a fixed position, the
 * piece it holds, and three display flags (selected, possible destination,
 * in check). None of the flags takes part in the rules; each is set and
 * cleared on its own.
 */
module Cells {
  import opened Pieces
  import opened Numerals

  datatype Cell = Cell(row: int, col: int, piece: Option<Piece>, selected: bool, destination: bool, check: bool)

  /** A freshly built cell: the given position and piece, every flag down. */
  function NewCell(row: int, col: int, piece: Option<Piece>): (r: Cell)
    ensures r.row == row && r.col == col && r.piece == piece
    ensures !r.selected && !r.destination && !r.check
  {
    Cell(row, col, piece, false, false, false)
  }

  /**
   * The copy constructor: a new cell at the same position holding a copy of
   * the same piece, with its own flags starting down.
   */
  function CopyOf(c: Cell): (r: Cell)
    ensures r.row == c.row && r.col == c.col && r.piece == c.piece
    ensures !r.selected && !r.destination && !r.check
  {
    NewCell(c.row, c.col, c.piece)
  }

  /** `removePiece`: the cell is left empty, whatever it held, and keeps its flags. */
  function RemovePiece(c: Cell): (r: Cell)
    ensures r.piece == None
    ensures r.row == c.row && r.col == c.col
    ensures r.selected == c.selected && r.destination == c.destination && r.check == c.check
  {
    c.(piece := None)
  }

  /** `setPiece`. */
  function SetPiece(c: Cell, p: Piece): (r: Cell)
    ensures r.piece == Some(p)
    ensures r.row == c.row && r.col == c.col
    ensures r.selected == c.selected && r.destination == c.destination && r.check == c.check
  {
    c.(piece := Some(p))
  }

  function Select(c: Cell): (r: Cell)
    ensures r.selected
    ensures r.(selected := c.selected) == c
  {
    c.(selected := true)
  }

  function Deselect(c: Cell): (r: Cell)
    ensures !r.selected
    ensures r.(selected := c.selected) == c
  {
    c.(selected := false)
  }

  function SetPossibleDestination(c: Cell): (r: Cell)
    ensures r.destination
    ensures r.(destination := c.destination) == c
  {
    c.(destination := true)
  }

  function RemovePossibleDestination(c: Cell): (r: Cell)
    ensures !r.destination
    ensures r.(destination := c.destination) == c
  {
    c.(destination := false)
  }

  /** `setcheck` marks the cell whether or not it holds a king. */
  function SetCheck(c: Cell): (r: Cell)
    ensures r.check
    ensures r.(check := c.check) == c
  {
    c.(check := true)
  }

  function RemoveCheck(c: Cell): (r: Cell)
    ensures !r.check
    ensures r.(check := c.check) == c
  {
    c.(check := false)
  }

  /** `toString`: the position as "(row, col)". */
  function Label(c: Cell): (r: string)
    ensures |r| >= 6 && r[0] == '(' && r[|r| - 1] == ')'
  {
    "(" + IntText(c.row) + ", " + IntText(c.col) + ")"
  }

  /* ---------------------------------------------------------------------
   * Reading a label back.
   * ------------------------------------------------------------------- */

  /** The first index of `ch` in `s`, or |s| when it does not occur. */
  function IndexOf(s: string, ch: char): (i: nat)
    ensures i <= |s|
    ensures forall j :: 0 <= j < i ==> s[j] != ch
    ensures i < |s| ==> s[i] == ch
  {
    if s == [] then 0
    else if s[0] == ch then 0
    else 1 + IndexOf(s[1..], ch)
  }

  /** The position written in a label "(row, col)"; None for any other text. */
  function ParseLabel(s: string): (r: Option<(int, int)>)
  {
    if |s| < 2 || s[0] != '(' || s[|s| - 1] != ')' then None
    else
      var inner := s[1..|s| - 1];
      var comma := IndexOf(inner, ',');
      if comma + 1 >= |inner| || inner[comma + 1] != ' ' then None
      else
        match (ParseInt(inner[..comma]), ParseInt(inner[comma + 2..]))
        case (Some(row), Some(col)) => Some((row, col))
        case _ => None
  }

  lemma IntTextHasNoComma(n: int)
    ensures forall j :: 0 <= j < |IntText(n)| ==> IntText(n)[j] != ','
  {
    var t := IntText(n);
    if n < 0 {
      assert forall j :: 1 <= j < |t| ==> t[j] == NatText(-n)[j - 1];
    }
  }

  /** The label determines the position: reading it back gives the row and column. */
  lemma LabelRoundTrip(c: Cell)
    ensures ParseLabel(Label(c)) == Some((c.row, c.col))
  {
    var a, b := IntText(c.row), IntText(c.col);
    assert Label(c) == "(" + (a + (", " + b)) + ")";
    IntTextHasNoComma(c.row);
    IntTextRoundTrip(c.row);
    IntTextRoundTrip(c.col);
    ParseLabelParts(a, b);
  }

  /** A bracketed text "a, b" whose `a` has no comma reads as the pair of `a` and `b` read as ints. */
  lemma ParseLabelParts(a: string, b: string)
    requires forall j :: 0 <= j < |a| ==> a[j] != ','
    ensures ParseLabel("(" + (a + (", " + b)) + ")")
         == if ParseInt(a).Some? && ParseInt(b).Some? then Some((ParseInt(a).value, ParseInt(b).value)) else None
  {
    var inner := a + (", " + b);
    var s := "(" + inner + ")";
    assert s[1..|s| - 1] == inner;
    IndexOfPast(a, ", " + b, ',');
    assert inner[|a| + 1] == ' ';
    assert inner[..|a|] == a;
    assert inner[|a| + 2..] == b;
  }

  lemma {:induction false} IndexOfPast(a: string, b: string, ch: char)
    requires forall j :: 0 <= j < |a| ==> a[j] != ch
    requires |b| > 0 && b[0] == ch
    ensures IndexOf(a + b, ch) == |a|
  {
    if a != [] {
      assert (a + b)[1..] == a[1..] + b;
      IndexOfPast(a[1..], b, ch);
    } else {
      assert a + b == b;
    }
  }

  /** Two cells carry the same label exactly when they stand on the same position. */
  lemma LabelsIdentifyPositions(c: Cell, d: Cell)
    ensures Label(c) == Label(d) <==> c.row == d.row && c.col == d.col
  {
    LabelRoundTrip(c);
    LabelRoundTrip(d);
  }

  /* ---------------------------------------------------------------------
   * The flags are independent switches.
   * ------------------------------------------------------------------- */

  /** Deselecting undoes a selection, and selecting undoes a deselection. */
  lemma SelectionToggles(c: Cell)
    ensures !c.selected ==> Deselect(Select(c)) == c
    ensures c.selected ==> Select(Deselect(c)) == c
    ensures Select(Select(c)) == Select(c) && Deselect(Deselect(c)) == Deselect(c)
  {
  }

  lemma DestinationToggles(c: Cell)
    ensures !c.destination ==> RemovePossibleDestination(SetPossibleDestination(c)) == c
    ensures c.destination ==> SetPossibleDestination(RemovePossibleDestination(c)) == c
  {
  }

  lemma CheckToggles(c: Cell)
    ensures !c.check ==> RemoveCheck(SetCheck(c)) == c
    ensures c.check ==> SetCheck(RemoveCheck(c)) == c
  {
  }

  /** Switching one flag never disturbs another, in either order. */
  lemma FlagsCommute(c: Cell)
    ensures SetCheck(Select(c)) == Select(SetCheck(c))
    ensures SetPossibleDestination(Select(c)) == Select(SetPossibleDestination(c))
    ensures SetCheck(SetPossibleDestination(c)) == SetPossibleDestination(SetCheck(c))
    ensures RemovePiece(Select(c)) == Select(RemovePiece(c))
  {
  }

  /** A copy reads the same label as its source and keeps none of its flags. */
  lemma CopyKeepsPosition(c: Cell)
    ensures Label(CopyOf(c)) == Label(c)
    ensures CopyOf(c) == c <==> !c.selected && !c.destination && !c.check
    ensures CopyOf(CopyOf(c)) == CopyOf(c)
  {
  }

  /* ---------------------------------------------------------------------
   * The cells of the cell tests.
   * ------------------------------------------------------------------- */

  /** Cell (4, 4) with a White pawn is labelled "(4, 4)". */
  lemma LabelOfFourFour()
    ensures Label(NewCell(4, 4, Some(Piece(Pawn, White)))) == "(4, 4)"
  {
  }

  /** Removing the pawn from (4, 4) or the king from (2, 3) leaves an empty cell. */
  lemma RemovingEmpties()
    ensures RemovePiece(NewCell(4, 4, Some(Piece(Pawn, White)))).piece == None
    ensures RemovePiece(NewCell(2, 3, Some(Piece(King, Black)))).piece == None
  {
  }

  /** Setting then clearing the check flag on a cell without a king leaves it clear. */
  lemma CheckOnPawnCell()
    ensures SetCheck(NewCell(4, 4, Some(Piece(Pawn, White)))).check
    ensures !RemoveCheck(SetCheck(NewCell(4, 4, Some(Piece(Pawn, White))))).check
  {
  }
}
