/** Column operations: cells move sideways in every row of the scroll region at once. */
module Columns {
  import opened Sequences
  import opened Sgr
  import opened Lines
  import opened Grid

  /** ICH or DCH applied to each row from `top` to `bottom`; wrap flags stay. */
  function ColumnsShifted(ls: seq<Line>, width: nat, top: nat, bottom: nat, insert: bool, at: nat, right: nat, n: nat, bg: Color)
    : (r: seq<Line>)
    requires Rectangular(ls, width) && right < width
    ensures |r| == |ls|
  {
    seq(|ls|, y requires 0 <= y < |ls| =>
      if top <= y <= bottom then Line(Sideways(ls[y].cells, insert, at, right, n, bg), ls[y].wrapped) else ls[y])
  }

  function Sideways(cells: seq<Cell>, insert: bool, at: nat, right: nat, n: nat, bg: Color): (r: seq<Cell>)
    requires right < |cells|
    ensures |r| == |cells|
  {
    if insert then Inserted(cells, at, right, n, bg) else Deleted(cells, at, right, n, bg)
  }

  /** A column insert followed by a delete of as many restores every cell not pushed out at the right. */
  lemma DeleteUndoesInsertColumns(ls: seq<Line>, width: nat, top: nat, bottom: nat, at: nat, right: nat, n: nat, bg: Color,
                                  y: nat, x: nat)
    requires Rectangular(ls, width) && at <= right < width && y < |ls| && x < width
    requires top <= y <= bottom && at <= x <= right ==> x + n <= right
    ensures var inserted := ColumnsShifted(ls, width, top, bottom, true, at, right, n, bg);
      && Rectangular(inserted, width)
      && |ColumnsShifted(inserted, width, top, bottom, false, at, right, n, bg)[y].cells| == width
      && ColumnsShifted(inserted, width, top, bottom, false, at, right, n, bg)[y].cells[x] == ls[y].cells[x]
  {}

  /** Row by row over the scroll region. */
  method ShiftRows(s: Screen, insert: bool, at: nat, right: nat, n: nat)
    requires s.Valid() && at <= right < s.width
    modifies s.RowSet()
    ensures s.View() == ColumnsShifted(old(s.View()), s.width, s.scrollTop, s.scrollBottom, insert, at, right, n, s.style.bg)
  {
    ghost var before := s.View();
    s.ViewRows();
    hide Screen.View, LinesOf, Inserted, Deleted, Screen.BuffersOk, Screen.MarginsOk;
    for y := s.scrollTop to s.scrollBottom + 1
      invariant forall k {:trigger s.cells[k]} :: 0 <= k < s.height ==>
        s.cells[k][..] == if s.scrollTop <= k < y then Sideways(before[k].cells, insert, at, right, n, s.style.bg) else before[k].cells
    {
      forall k | 0 <= k < s.height && k != y ensures s.cells[k] != s.cells[y] {}
      if insert {
        InsertInRow(s.cells[y], at, right, n, s.style.bg);
      } else {
        DeleteInRow(s.cells[y], at, right, n, s.style.bg);
      }
    }
    hide Sideways;
    s.ViewBecomes(ColumnsShifted(before, s.width, s.scrollTop, s.scrollBottom, insert, at, right, n, s.style.bg));
  }

  /** The cursor is where a column operation applies. */
  predicate ShiftsColumns(s: Screen)
    requires s.width > 0
    reads s
  {
    s.scrollTop <= s.curY <= s.scrollBottom && s.WithinHMargins(s.curX)
  }

  /** DECIC and DECDC: `n` columns from the cursor's, at most to the right margin, in every row of the region. */
  method InsertOrDeleteColumns(s: Screen, insert: bool, n: nat)
    requires s.Valid()
    modifies s.RowSet()
    ensures s.View() ==
      if ShiftsColumns(s) && n > 0
      then ColumnsShifted(old(s.View()), s.width, s.scrollTop, s.scrollBottom, insert, s.curX, s.RightBound(),
                          Min(n, s.RightBound() - s.curX + 1), s.style.bg)
      else old(s.View())
  {
    if !ShiftsColumns(s) { return; }
    var right := s.RightBound();
    var count := Min(n, right - s.curX + 1);
    if count <= 0 { return; }
    ShiftRows(s, insert, s.curX, right, count);
  }

  /** DECBI and DECFI: one column back or forward; at the margin the box scrolls sideways instead, and a blank
      column appears at it. */
  method BackIndex(s: Screen)
    requires s.Valid()
    modifies s`curX, s`pendingWrap, s.RowSet()
    ensures s.Valid() && !s.pendingWrap
    ensures s.curX == if old(s.curX) == s.LeftBound() || old(s.curX) == 0 then old(s.curX) else old(s.curX) - 1
    ensures s.View() == if old(s.curX) == s.LeftBound()
      then ColumnsShifted(old(s.View()), s.width, s.scrollTop, s.scrollBottom, true, s.LeftBound(), s.RightBound(), 1, s.style.bg)
      else old(s.View())
  {
    s.pendingWrap := false;
    if s.curX == s.LeftBound() {
      ShiftRows(s, true, s.LeftBound(), s.RightBound(), 1);
    } else if s.curX > 0 {
      s.curX := s.curX - 1;
    }
  }

  method ForwardIndex(s: Screen)
    requires s.Valid()
    modifies s`curX, s`pendingWrap, s.RowSet()
    ensures s.Valid() && !s.pendingWrap
    ensures s.curX == if old(s.curX) == s.RightBound() || old(s.curX) == s.width - 1 then old(s.curX) else old(s.curX) + 1
    ensures s.View() == if old(s.curX) == s.RightBound()
      then ColumnsShifted(old(s.View()), s.width, s.scrollTop, s.scrollBottom, false, s.LeftBound(), s.RightBound(), 1, s.style.bg)
      else old(s.View())
  {
    s.pendingWrap := false;
    if s.curX == s.RightBound() {
      ShiftRows(s, false, s.LeftBound(), s.RightBound(), 1);
    } else if s.curX < s.width - 1 {
      s.curX := s.curX + 1;
    }
  }

  /** SL and SR shift whole rows of the region, whatever the margins; a shift by the width or more blanks them. */
  method ShiftScreen(s: Screen, left: bool, n: nat)
    requires s.Valid()
    modifies s.RowSet()
    ensures s.View() == ColumnsShifted(old(s.View()), s.width, s.scrollTop, s.scrollBottom, !left, 0, s.width - 1, n, s.style.bg)
  {
    ShiftRows(s, !left, 0, s.width - 1, n);
  }
}
