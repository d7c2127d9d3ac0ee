/** The mutable screen grid: rows that are slices of cells, moved by reference when whole lines move
    and cell by cell when only a margin box does. */
module Grid {
  import opened Sequences
  import opened Sgr
  import opened Lines

  type Rows = seq<array<Cell>>

  ghost predicate Distinct(rows: Rows) {
    forall i, j :: 0 <= i < j < |rows| ==> rows[i] != rows[j]
  }

  ghost predicate Apart(a: Rows, b: Rows) {
    forall i, j :: 0 <= i < |a| && 0 <= j < |b| ==> a[i] != b[j]
  }

  ghost predicate Sized(rows: Rows, height: nat, width: nat) {
    |rows| == height && forall y :: 0 <= y < height ==> rows[y].Length == width
  }

  /** The contents of `rows`. */
  ghost function LinesOf(rows: Rows, flags: seq<bool>): (ls: seq<Line>)
    requires |rows| == |flags|
    reads set y | 0 <= y < |rows| :: rows[y]
    ensures |ls| == |rows| && forall y :: 0 <= y < |rows| ==> ls[y] == Line(rows[y][..], flags[y])
  {
    seq(|rows|, y requires 0 <= y < |rows| && |rows| == |flags| reads set y | 0 <= y < |rows| :: rows[y] => Line(rows[y][..], flags[y]))
  }

  /** The row that enters when rows `top..bottom` move one place. */
  function Entering(top: nat, bottom: nat, up: bool): nat { if up then bottom else top }

  /** The row whose place row `k` takes. */
  function CameFrom(top: nat, bottom: nat, up: bool, k: nat): (from: nat)
    ensures k != Entering(top, bottom, up) ==> from == k || top <= from <= bottom
  {
    if up && top <= k < bottom then k + 1 else if !up && top < k <= bottom then k - 1 else k
  }

  method InsertInRow(row: array<Cell>, at: nat, right: nat, n: nat, bg: Color)
    requires at <= right < row.Length
    modifies row
    ensures row[..] == Inserted(old(row[..]), at, right, n, bg)
  {
    ghost var was := row[..];
    MoveCellsRight(row, at, right, n);
    BlankCells(row, at, Min(at + n, right + 1), bg);
    ShiftedRight(was, row[..], at, right, n, bg);
  }

  lemma ShiftedRight(was: seq<Cell>, now: seq<Cell>, at: nat, right: nat, n: nat, bg: Color)
    requires at <= right < |was| == |now|
    requires forall c :: 0 <= c < |now| ==>
      now[c] == if at <= c < Min(at + n, right + 1) then Blank(bg) else was[if at + n <= c <= right then c - n else c]
    ensures now == Inserted(was, at, right, n, bg)
  {}

  lemma ShiftedLeft(was: seq<Cell>, now: seq<Cell>, at: nat, right: nat, n: nat, bg: Color)
    requires at <= right < |was| == |now|
    requires var count := Min(n, right - at + 1);
      forall c :: 0 <= c < |now| ==>
        now[c] == if right - count + 1 <= c <= right then Blank(bg) else was[if at <= c <= right - count then c + count else c]
    ensures now == Deleted(was, at, right, n, bg)
  {}

  method DeleteInRow(row: array<Cell>, at: nat, right: nat, n: nat, bg: Color)
    requires at <= right < row.Length
    modifies row
    ensures row[..] == Deleted(old(row[..]), at, right, n, bg)
  {
    var count := Min(n, right - at + 1);
    ghost var was := row[..];
    MoveCellsLeft(row, at, right, count);
    BlankCells(row, right - count + 1, right + 1, bg);
    ShiftedLeft(was, row[..], at, right, n, bg);
  }

  /** The cells from `at` on move `n` places right, up to column `right`. */
  method MoveCellsRight(row: array<Cell>, at: nat, right: nat, n: nat)
    requires at <= right < row.Length
    modifies row
    ensures forall c :: 0 <= c < row.Length ==>
      row[c] == old(row[..])[if at + n <= c <= right then c - n else c]
  {
    ghost var was := row[..];
    var x: int := right;
    while x >= at + n
      invariant x <= right && (x == right || x >= at + n - 1)
      invariant forall c :: x < c <= right ==> row[c] == was[c - n]
      invariant forall c :: 0 <= c < row.Length && !(x < c <= right) ==> row[c] == was[c]
      decreases x - at
    {
      row[x] := row[x - n];
      x := x - 1;
    }
  }

  /** The cells of `at + count..right` move `count` places left. */
  method MoveCellsLeft(row: array<Cell>, at: nat, right: nat, count: nat)
    requires at <= right < row.Length && count <= right - at + 1
    modifies row
    ensures forall c :: 0 <= c < row.Length ==>
      row[c] == old(row[..])[if at <= c <= right - count then c + count else c]
  {
    ghost var was := row[..];
    var x: int := at;
    while x <= right - count
      invariant at <= x <= right - count + 1
      invariant forall c :: at <= c < x ==> row[c] == was[c + count]
      invariant forall c :: 0 <= c < row.Length && !(at <= c < x) ==> row[c] == was[c]
    {
      row[x] := row[x + count];
      x := x + 1;
    }
  }

  method BlankCells(row: array<Cell>, from: nat, to: nat, bg: Color)
    requires from <= to <= row.Length
    modifies row
    ensures forall c :: 0 <= c < row.Length ==> row[c] == if from <= c < to then Blank(bg) else old(row[..])[c]
  {
    ghost var was := row[..];
    for x := from to to
      invariant forall c :: from <= c < x ==> row[c] == Blank(bg)
      invariant forall c :: 0 <= c < row.Length && !(from <= c < x) ==> row[c] == was[c]
    {
      row[x] := Blank(bg);
    }
  }

  ghost predicate Uniform(rows: Rows) {
    forall i :: 0 <= i < |rows| ==> rows[i].Length == rows[0].Length
  }

  /** What entering the alternate screen keeps of the main one. */
  datatype Saved = Saved(cells: Rows, wrapped: seq<bool>, curX: nat, curY: nat, style: Style, scrollTop: nat, scrollBottom: nat)

  /** A cursor saved by DECSC. */
  datatype SavedCursor = SavedCursor(valid: bool, x: nat, y: nat, style: Style, origin: bool, pendingWrap: bool, guarded: bool)

  function Pad(flags: seq<bool>, n: nat): (r: seq<bool>)
    ensures |r| == n && (|flags| == n ==> r == flags)
  {
    seq(n, i requires 0 <= i => i < |flags| && flags[i])
  }

  function WidenedStops(stops: seq<bool>, cols: nat): (r: seq<bool>)
    ensures |r| == cols && forall i :: 0 <= i < cols ==> r[i] == if i < |stops| then stops[i] else i > 0 && i % 8 == 0
  {
    seq(cols, i requires 0 <= i => if i < |stops| then stops[i] else i > 0 && i % 8 == 0)
  }

  /** What printing changes: the rows, the rows scrolled off, and the position. */
  datatype Page = Page(rows: seq<Line>, drained: seq<Line>, x: nat, y: nat)

  class Screen {
    var cells: Rows
    var wrapped: seq<bool>
    var height: nat
    var width: nat
    var curX: nat
    var curY: nat
    var pendingWrap: bool
    var autoWrap: bool
    var insertMode: bool
    var lrMarginMode: bool
    var scrollTop: nat
    var scrollBottom: nat
    var leftMargin: nat
    var rightMargin: nat
    var style: Style
    var link: string
    var guarded: bool
    var isoGuarded: bool
    var originMode: bool
    var reverseWrap: bool
    var newLineMode: bool
    var moreFix: bool
    var tabStops: Option<seq<bool>>
    var mainCursor: SavedCursor
    var altCursor: SavedCursor
    var drained: seq<Line>
    var inAlt: bool
    var saved: Option<Saved>
    var altCells: Option<Rows>

    ghost function RowSet(): set<object> reads this`cells {
      set y | 0 <= y < |cells| :: cells[y]
    }

    /** The grid is height by width with a wrap flag a row, and no two rows share storage. */
    ghost predicate GridOk() reads this`cells, this`wrapped, this`height, this`width {
      height > 0 && width > 0 && Sized(cells, height, width) && |wrapped| == height && Distinct(cells)
    }

    ghost predicate RegionOk() reads this`scrollTop, this`scrollBottom, this`height { scrollTop <= scrollBottom < height }

    ghost predicate MarginsOk() reads this`width, this`leftMargin, this`rightMargin { leftMargin <= rightMargin < width }

    ghost predicate CursorOk() reads this`curX, this`curY, this`width, this`height { curX < width && curY < height }

    /** Neither the saved main rows nor the stashed alternate rows share storage with the live grid. */
    ghost predicate BuffersOk() reads this`cells, this`inAlt, this`saved, this`altCells, this`height, this`width {
      && (inAlt <==> saved.Some?)
      && (saved.Some? ==> Sized(saved.value.cells, height, width) && Distinct(saved.value.cells)
                          && Apart(saved.value.cells, cells) && saved.value.curX < width && saved.value.curY < height)
      && (!inAlt && altCells.Some? ==> Distinct(altCells.value) && Apart(altCells.value, cells) && Uniform(altCells.value))
    }

    /** No array stands for a stop every eight columns. */
    predicate TabsOk() reads this`tabStops, this`width { tabStops.Some? ==> |tabStops.value| == width }

    /** Everything but the cursor, which a wrap carries past the last row for a moment. */
    ghost predicate Core()
      reads this`cells, this`wrapped, this`height, this`width, this`scrollTop, this`scrollBottom
      reads this`leftMargin, this`rightMargin, this`inAlt, this`saved, this`altCells
    {
      GridOk() && RegionOk() && MarginsOk() && BuffersOk()
    }

    ghost predicate Valid()
      reads this`cells, this`wrapped, this`height, this`width, this`scrollTop, this`scrollBottom, this`curX, this`curY
      reads this`leftMargin, this`rightMargin, this`inAlt, this`saved, this`altCells
    {
      Core() && CursorOk()
    }

    ghost function View(): (ls: seq<Line>)
      requires GridOk()
      reads this`cells, this`wrapped, this`height, this`width, RowSet()
      ensures |ls| == height && Rectangular(ls, width)
    {
      LinesOf(cells, wrapped)
    }

    function LeftBound(): nat reads this`lrMarginMode, this`leftMargin { if lrMarginMode then leftMargin else 0 }

    function RightBound(): nat
      requires width > 0
      reads this`lrMarginMode, this`rightMargin, this`width
    {
      if lrMarginMode then rightMargin else width - 1
    }

    function MarginBox(top: nat): Box
      requires width > 0
      reads this`lrMarginMode, this`leftMargin, this`rightMargin, this`width, this`scrollBottom
    {
      Box(top, scrollBottom, LeftBound(), RightBound())
    }

    method MakeRow(w: nat, bg: Color) returns (row: array<Cell>)
      ensures fresh(row) && row.Length == w && row[..] == BlankRow(w, bg)
    {
      row := new Cell[w](i => Blank(bg));
    }

    /** Moves the row references of `top + 1..scrollBottom` up one place; a new blank row enters below. */
    method MoveUp(top: nat)
      requires GridOk() && RegionOk() && top <= scrollBottom
      modifies this`cells, this`wrapped
      ensures GridOk() && fresh(cells[scrollBottom])
      ensures cells[scrollBottom][..] == BlankRow(width, style.bg) && !wrapped[scrollBottom]
      ensures forall k :: 0 <= k < height && k != scrollBottom ==>
        cells[k] == old(cells)[if top <= k < scrollBottom then k + 1 else k]
        && wrapped[k] == old(wrapped)[if top <= k < scrollBottom then k + 1 else k]
    {
      var y := top;
      while y < scrollBottom
        invariant top <= y <= scrollBottom && |cells| == |wrapped| == height
        invariant forall k :: top <= k < y ==> cells[k] == old(cells)[k + 1] && wrapped[k] == old(wrapped)[k + 1]
        invariant forall k :: 0 <= k < height && !(top <= k < y) ==> cells[k] == old(cells)[k] && wrapped[k] == old(wrapped)[k]
      {
        cells := cells[y := cells[y + 1]];
        wrapped := wrapped[y := wrapped[y + 1]];
        y := y + 1;
      }
      var row := MakeRow(width, style.bg);
      cells := cells[scrollBottom := row];
      wrapped := wrapped[scrollBottom := false];
    }

    method MoveDown(top: nat)
      requires GridOk() && RegionOk() && top <= scrollBottom
      modifies this`cells, this`wrapped
      ensures GridOk() && fresh(cells[top]) && cells[top][..] == BlankRow(width, style.bg) && !wrapped[top]
      ensures forall k :: 0 <= k < height && k != top ==>
        cells[k] == old(cells)[if top < k <= scrollBottom then k - 1 else k]
        && wrapped[k] == old(wrapped)[if top < k <= scrollBottom then k - 1 else k]
    {
      var y := scrollBottom;
      while y > top
        invariant top <= y <= scrollBottom && |cells| == |wrapped| == height
        invariant forall k :: y < k <= scrollBottom ==> cells[k] == old(cells)[k - 1] && wrapped[k] == old(wrapped)[k - 1]
        invariant forall k :: 0 <= k < height && !(y < k <= scrollBottom) ==> cells[k] == old(cells)[k] && wrapped[k] == old(wrapped)[k]
      {
        cells := cells[y := cells[y - 1]];
        wrapped := wrapped[y := wrapped[y - 1]];
        y := y - 1;
      }
      var row := MakeRow(width, style.bg);
      cells := cells[top := row];
      wrapped := wrapped[top := false];
    }

    /** When every row but `y` is one of the old rows, only `y` is new. */
    twostate lemma OnlyOneFresh(y: nat)
      requires old(GridOk()) && GridOk() && y < height == old(height) && fresh(cells[y])
      requires forall k :: 0 <= k < height && k != y ==> cells[k] in old(cells)
      ensures fresh(RowSet() - old(RowSet()))
    {}

    /** Rows moved down one place, with a new one at `top`, leave nothing else new. */
    twostate lemma OneFreshBelow(top: nat)
      requires old(GridOk()) && GridOk() && top <= scrollBottom < height == old(height) && fresh(cells[top])
      requires forall k :: 0 <= k < height && k != top ==> cells[k] == old(cells)[if top < k <= scrollBottom then k - 1 else k]
      ensures fresh(RowSet() - old(RowSet()))
    {
      OnlyOneFresh(top);
    }

    lemma ViewRows()
      requires GridOk()
      ensures forall k {:trigger cells[k]} {:trigger View()[k]} :: 0 <= k < height ==> View()[k] == Line(cells[k][..], wrapped[k])
    {}

    /** Row by row, the view is `goal`. */
    lemma ViewBecomes(goal: seq<Line>)
      requires GridOk() && |goal| == height
      requires forall k {:trigger cells[k]} :: 0 <= k < height ==> cells[k][..] == goal[k].cells
      requires forall k {:trigger goal[k]} :: 0 <= k < height ==> wrapped[k] == goal[k].wrapped
      ensures View() == goal
    {}

    /** When row references move and only row `y` is new, the view moves with them. */
    lemma ViewMoved(before: seq<Line>, was: Rows, flags: seq<bool>, top: nat, bottom: nat, up: bool, y: nat)
      requires GridOk() && top <= bottom < height == |before| == |was| == |flags|
      requires y < height && y == Entering(top, bottom, up)
      requires forall k :: 0 <= k < height ==> before[k] == Line(was[k][..], flags[k])
      requires forall k :: 0 <= k < height && k != y ==> cells[k] == was[CameFrom(top, bottom, up, k)]
      requires forall k :: 0 <= k < height && k != y ==> wrapped[k] == flags[CameFrom(top, bottom, up, k)]
      ensures forall k :: 0 <= k < height && k != y ==> View()[k] == before[CameFrom(top, bottom, up, k)]
      ensures View()[y] == Line(cells[y][..], wrapped[y])
    {}

    /** Whole rows move up one place, by reference; a new blank row enters at the bottom. */
    method RowsUp(top: nat)
      requires GridOk() && RegionOk() && top <= scrollBottom
      modifies this`cells, this`wrapped
      ensures GridOk() && fresh(RowSet() - old(RowSet()))
      ensures View() == ShiftUp(old(View()), Box(top, scrollBottom, 0, width - 1), 1, width, style.bg)
    {
      hide Distinct, ShiftUp, RowSet, BlankRow, View, LinesOf;
      ghost var before, was, flags := View(), cells, wrapped;
      ViewRows();
      MoveUp(top);
      OnlyOneFresh(scrollBottom);
      ViewMoved(before, was, flags, top, scrollBottom, true, scrollBottom);
      RowsMovedUp(before, View(), Box(top, scrollBottom, 0, width - 1), width, style.bg);
    }

    /** Whole rows move down one place; a new blank row enters at `top`. */
    method RowsDown(top: nat)
      requires GridOk() && RegionOk() && top <= scrollBottom
      modifies this`cells, this`wrapped
      ensures GridOk() && fresh(RowSet() - old(RowSet()))
      ensures View() == ShiftDown(old(View()), Box(top, scrollBottom, 0, width - 1), 1, width, style.bg)
    {
      hide Distinct, ShiftDown, RowSet, BlankRow, View, LinesOf;
      ghost var before, was, flags := View(), cells, wrapped;
      ViewRows();
      MoveDown(top);
      OneFreshBelow(top);
      ViewMoved(before, was, flags, top, scrollBottom, false, top);
      RowsMovedDown(before, View(), Box(top, scrollBottom, 0, width - 1), width, style.bg);
    }

    /** Copies the box's columns of row `from` over those of row `to`. */
    method CopyBox(b: Box, from: nat, to: nat)
      requires GridOk() && BoxFits(b, height, width) && from < height && to < height
      modifies if to < |cells| then {cells[to]} else {}
      ensures cells[to][..] == Overlay(old(cells[to][..]), old(cells[from][..]), b)
      ensures forall k :: 0 <= k < height && k != to ==> cells[k][..] == old(cells[k][..])
    {
      forall k | 0 <= k < height && k != to ensures cells[k] != cells[to] {}
      forall x | b.left <= x <= b.right {
        cells[to][x] := cells[from][x];
      }
    }

    method BlankBox(b: Box, y: nat)
      requires GridOk() && BoxFits(b, height, width) && y < height
      modifies if y < |cells| then {cells[y]} else {}
      ensures cells[y][..] == Overlay(old(cells[y][..]), BlankRow(width, style.bg), b)
      ensures forall k :: 0 <= k < height && k != y ==> cells[k][..] == old(cells[k][..])
    {
      forall k | 0 <= k < height && k != y ensures cells[k] != cells[y] {}
      forall x | b.left <= x <= b.right {
        cells[y][x] := Blank(style.bg);
      }
    }

    /** Copies each row's part of the box over the row above, top row first. */
    method CopyRowsUp(b: Box, ghost before: seq<Line>)
      requires GridOk() && BoxFits(b, height, width) && |before| == height && Rectangular(before, width)
      requires forall k {:trigger cells[k]} :: 0 <= k < height ==> cells[k][..] == before[k].cells
      modifies RowSet()
      ensures forall k {:trigger cells[k]} :: b.top <= k < b.bottom ==>
        cells[k][..] == Overlay(before[k].cells, before[k + 1].cells, b)
      ensures forall k {:trigger cells[k]} :: 0 <= k < height && !(b.top <= k < b.bottom) ==> cells[k][..] == before[k].cells
    {
      hide Distinct, Overlay;
      for y := b.top to b.bottom
        invariant forall k {:trigger cells[k]} :: b.top <= k < y ==>
          cells[k][..] == Overlay(before[k].cells, before[k + 1].cells, b)
        invariant forall k {:trigger cells[k]} :: 0 <= k < height && !(b.top <= k < y) ==> cells[k][..] == before[k].cells
      {
        CopyBox(b, y + 1, y);
      }
    }

    /** Copies each row's part of the box over the row below, bottom row first. */
    method CopyRowsDown(b: Box, ghost before: seq<Line>)
      requires GridOk() && BoxFits(b, height, width) && |before| == height && Rectangular(before, width)
      requires forall k {:trigger cells[k]} :: 0 <= k < height ==> cells[k][..] == before[k].cells
      modifies RowSet()
      ensures forall k {:trigger cells[k]} :: b.top < k <= b.bottom ==>
        cells[k][..] == Overlay(before[k].cells, before[k - 1].cells, b)
      ensures forall k {:trigger cells[k]} :: 0 <= k < height && !(b.top < k <= b.bottom) ==> cells[k][..] == before[k].cells
    {
      hide Distinct, Overlay;
      var y := b.bottom;
      while y > b.top
        invariant b.top <= y <= b.bottom
        invariant forall k {:trigger cells[k]} :: y < k <= b.bottom ==>
          cells[k][..] == Overlay(before[k].cells, before[k - 1].cells, b)
        invariant forall k {:trigger cells[k]} :: 0 <= k < height && !(y < k <= b.bottom) ==> cells[k][..] == before[k].cells
      {
        CopyBox(b, y - 1, y);
        y := y - 1;
      }
    }

    /** The view when the box's rows moved up and the row that enters is blank there. */
    lemma BoxViewUp(before: seq<Line>, b: Box)
      requires GridOk() && BoxFits(b, height, width) && !FullWidth(b, width) && |before| == height && Rectangular(before, width)
      requires forall k {:trigger before[k]} :: 0 <= k < height ==> before[k].wrapped == wrapped[k]
      requires forall k {:trigger cells[k]} :: b.top <= k < b.bottom ==> cells[k][..] == Overlay(before[k].cells, before[k + 1].cells, b)
      requires forall k {:trigger cells[k]} :: 0 <= k < height && !(b.top <= k <= b.bottom) ==> cells[k][..] == before[k].cells
      requires cells[b.bottom][..] == Overlay(before[b.bottom].cells, BlankRow(width, style.bg), b)
      ensures View() == ShiftUp(before, b, 1, width, style.bg)
    {
      hide Distinct, Overlay, ShiftUp, LinesOf, View, BlankRow;
      ViewRows();
      ghost var after := View();
      assert forall k: nat {:trigger after[k]} :: k < height ==> after[k].cells == cells[k][..] && after[k].wrapped == before[k].wrapped;
      BoxMovedUp(before, after, b, width, style.bg);
    }

    /** The view when the box's rows moved down and the row that enters is blank there. */
    lemma BoxViewDown(before: seq<Line>, b: Box)
      requires GridOk() && BoxFits(b, height, width) && !FullWidth(b, width) && |before| == height && Rectangular(before, width)
      requires forall k {:trigger before[k]} :: 0 <= k < height ==> before[k].wrapped == wrapped[k]
      requires forall k {:trigger cells[k]} :: b.top < k <= b.bottom ==> cells[k][..] == Overlay(before[k].cells, before[k - 1].cells, b)
      requires forall k {:trigger cells[k]} :: 0 <= k < height && !(b.top <= k <= b.bottom) ==> cells[k][..] == before[k].cells
      requires cells[b.top][..] == Overlay(before[b.top].cells, BlankRow(width, style.bg), b)
      ensures View() == ShiftDown(before, b, 1, width, style.bg)
    {
      hide Distinct, Overlay, ShiftDown, LinesOf, View, BlankRow;
      ViewRows();
      ghost var after := View();
      assert forall k: nat {:trigger after[k]} :: k < height ==> after[k].cells == cells[k][..] && after[k].wrapped == before[k].wrapped;
      BoxMovedDown(before, after, b, width, style.bg);
    }

    /** The box's content moves up one row, cell by cell; the rows and their wrap flags stay. */
    method BoxUp(b: Box)
      requires GridOk() && BoxFits(b, height, width) && !FullWidth(b, width)
      modifies RowSet()
      ensures View() == ShiftUp(old(View()), b, 1, width, style.bg)
    {
      hide Distinct, Overlay, ShiftUp, ShiftDown, LinesOf, View, BlankRow;
      ghost var before := View();
      ViewRows();
      CopyRowsUp(b, before);
      BlankBox(b, b.bottom);
      BoxViewUp(before, b);
    }

    method BoxDown(b: Box)
      requires GridOk() && BoxFits(b, height, width) && !FullWidth(b, width)
      modifies RowSet()
      ensures View() == ShiftDown(old(View()), b, 1, width, style.bg)
    {
      hide Distinct, Overlay, ShiftUp, ShiftDown, LinesOf, View, BlankRow;
      ghost var before := View();
      ViewRows();
      CopyRowsDown(b, before);
      BlankBox(b, b.top);
      BoxViewDown(before, b);
    }

    ghost predicate FullScreenScroll()
      requires width > 0 && height > 0
      reads this`lrMarginMode, this`leftMargin, this`rightMargin, this`width, this`scrollTop, this`scrollBottom, this`height
    {
      scrollTop == 0 && scrollBottom == height - 1 && FullWidth(MarginBox(scrollTop), width)
    }

    /** Rows taken from the old grid or made since are not in the kept buffers. */
    twostate lemma BuffersKept()
      requires old(BuffersOk()) && inAlt == old(inAlt) && saved == old(saved) && altCells == old(altCells)
      requires height == old(height) && width == old(width) && fresh(RowSet() - old(RowSet()))
      ensures BuffersOk()
    {
      forall j | 0 <= j < |cells| ensures cells[j] in old(RowSet()) || fresh(cells[j]) { assert cells[j] in RowSet(); }
    }

    /** Scrolls the box from `top` to the region's bottom up one row, whole rows when it spans the width. */
    method BoxOrRowsUp(top: nat)
      requires Core() && top <= scrollBottom
      modifies this`cells, this`wrapped, RowSet()
      ensures Core() && fresh(RowSet() - old(RowSet()))
      ensures View() == ShiftUp(old(View()), MarginBox(top), 1, width, style.bg)
    {
      hide Distinct, ShiftUp, Apart, View, BuffersOk;
      var b := MarginBox(top);
      if b.left == 0 && b.right == width - 1 {
        RowsUp(top);
      } else {
        BoxUp(b);
      }
      BuffersKept();
    }

    method BoxOrRowsDown(top: nat)
      requires Core() && top <= scrollBottom
      modifies this`cells, this`wrapped, RowSet()
      ensures Core() && fresh(RowSet() - old(RowSet()))
      ensures View() == ShiftDown(old(View()), MarginBox(top), 1, width, style.bg)
    {
      hide Distinct, ShiftDown, Apart, View, BuffersOk;
      var b := MarginBox(top);
      if b.left == 0 && b.right == width - 1 {
        RowsDown(top);
      } else {
        BoxDown(b);
      }
      BuffersKept();
    }

    /** One line of scroll; only a full-screen scroll commits its top row to the drain. */
    method ScrollUpOnce()
      requires Core()
      modifies this`cells, this`wrapped, this`drained, RowSet()
      ensures Core() && fresh(RowSet() - old(RowSet()))
      ensures View() == ShiftUp(old(View()), MarginBox(scrollTop), 1, width, style.bg)
      ensures drained == old(drained) + if FullScreenScroll() then [old(View()[0])] else []
    {
      hide ShiftUp, Distinct, Moved;
      if scrollTop == 0 && scrollBottom == height - 1 && LeftBound() == 0 && RightBound() == width - 1 {
        drained := drained + [Line(cells[0][..], wrapped[0])];
      }
      BoxOrRowsUp(scrollTop);
    }

    /** One more line of a scroll that has gone `i` lines from `before`. */
    method ScrollUpAgain(ghost before: seq<Line>, ghost b: Box, ghost i: nat)
      requires Core() && |before| == height && Rectangular(before, width) && b == MarginBox(scrollTop) && b.top + i <= b.bottom
      requires View() == ShiftUp(before, b, i, width, style.bg)
      modifies this`cells, this`wrapped, this`drained, RowSet()
      ensures Core() && fresh(RowSet() - old(RowSet()))
      ensures View() == ShiftUp(before, b, i + 1, width, style.bg)
      ensures drained == old(drained) + if FullScreenScroll() then [before[i]] else []
    {
      hide ShiftUp, Distinct, Apart, View, BuffersOk, Sized, LinesOf, Moved;
      NextShift(before, b, i, width, style.bg);
      ScrollUpOnce();
    }

    method LoopScroll(k: nat)
      requires Core() && k <= scrollBottom - scrollTop + 1
      modifies this`cells, this`wrapped, this`drained, RowSet()
      ensures Core() && fresh(RowSet() - old(RowSet()))
      ensures View() == ShiftUp(old(View()), MarginBox(scrollTop), k, width, style.bg)
      ensures drained == old(drained) + if FullScreenScroll() then old(View())[..k] else []
    {
      hide ShiftUp, Distinct, Apart, View, BuffersOk, Sized, LinesOf;
      ghost var before, b, full := View(), MarginBox(scrollTop), FullScreenScroll();
      ShiftByNothing(before, b, width, style.bg);
      for i := 0 to k
        invariant Core() && fresh(RowSet() - old(RowSet()))
        invariant View() == ShiftUp(before, b, i, width, style.bg)
        invariant drained == old(drained) + if full then before[..i] else []
      {
        assert before[..i + 1] == before[..i] + [before[i]];
        ScrollUpAgain(before, b, i);
      }
    }

    /** SU: n lines at once are one shift by n, at most the region's height. */
    method ScrollUp(n: nat)
      requires Core()
      modifies this`cells, this`wrapped, this`drained, RowSet()
      ensures Core() && fresh(RowSet() - old(RowSet()))
      ensures var k := Min(n, scrollBottom - scrollTop + 1);
              && View() == ShiftUp(old(View()), MarginBox(scrollTop), k, width, style.bg)
              && drained == old(drained) + if FullScreenScroll() then old(View())[..k] else []
    {
      hide ShiftUp, Distinct, Apart, View, BuffersOk, Sized, LinesOf;
      LoopScroll(Min(n, scrollBottom - scrollTop + 1));
    }

    method ScrollDown(n: nat)
      requires Core()
      modifies this`cells, this`wrapped, RowSet()
      ensures Core() && fresh(RowSet() - old(RowSet()))
      ensures View() == ShiftDown(old(View()), MarginBox(scrollTop), Min(n, scrollBottom - scrollTop + 1), width, style.bg)
    {
      LoopDown(scrollTop, Min(n, scrollBottom - scrollTop + 1));
    }

    /** IL and DL act only inside the scroll region and the margins. */
    predicate ShiftsLines()
      requires width > 0
      reads this`curX, this`curY, this`scrollTop, this`scrollBottom, this`lrMarginMode, this`leftMargin, this`rightMargin, this`width
    {
      scrollTop <= curY <= scrollBottom && LeftBound() <= curX <= RightBound()
    }

    method LoopDown(top: nat, n: nat)
      requires Core() && top <= scrollBottom
      modifies this`cells, this`wrapped, RowSet()
      ensures Core() && fresh(RowSet() - old(RowSet()))
      ensures View() == ShiftDown(old(View()), MarginBox(top), n, width, style.bg)
    {
      hide ShiftDown, Distinct, Apart, View, BuffersOk, Sized, LinesOf;
      ghost var before, b := View(), MarginBox(top);
      ShiftByNothing(before, b, width, style.bg);
      for i := 0 to n
        invariant Core() && fresh(RowSet() - old(RowSet()))
        invariant View() == ShiftDown(before, b, i, width, style.bg)
      {
        BoxOrRowsDown(top);
        ShiftDownTwice(before, b, i, 1, width, style.bg);
      }
    }

    method LoopUp(top: nat, n: nat)
      requires Core() && top <= scrollBottom
      modifies this`cells, this`wrapped, RowSet()
      ensures Core() && fresh(RowSet() - old(RowSet()))
      ensures View() == ShiftUp(old(View()), MarginBox(top), n, width, style.bg)
    {
      hide ShiftUp, Distinct, Apart, View, BuffersOk, Sized, LinesOf;
      ghost var before, b := View(), MarginBox(top);
      ShiftByNothing(before, b, width, style.bg);
      for i := 0 to n
        invariant Core() && fresh(RowSet() - old(RowSet()))
        invariant View() == ShiftUp(before, b, i, width, style.bg)
      {
        BoxOrRowsUp(top);
        ShiftUpTwice(before, b, i, 1, width, style.bg);
      }
    }

    /** IL: the rows from the cursor down move down by the count, at most to the region's bottom; the cursor
        goes to the left margin. Nothing is drained. */
    method InsertLines(n: nat)
      requires Valid()
      modifies this`cells, this`wrapped, this`curX, this`pendingWrap, RowSet()
      ensures Valid() && fresh(RowSet() - old(RowSet()))
      ensures var k := Min(n, scrollBottom - curY + 1);
              if old(ShiftsLines())
              then View() == ShiftDown(old(View()), MarginBox(curY), k, width, style.bg) && curX == LeftBound() && !pendingWrap
              else View() == old(View()) && curX == old(curX) && pendingWrap == old(pendingWrap)
    {
      hide ShiftDown, Distinct, Apart, View, BuffersOk, Sized, LinesOf;
      if curY < scrollTop || curY > scrollBottom || curX < LeftBound() || curX > RightBound() {
        return;
      }
      curX := LeftBound();
      pendingWrap := false;
      LoopDown(curY, Min(n, scrollBottom - curY + 1));
    }

    /** DL: the mirror of IL. */
    method DeleteLines(n: nat)
      requires Valid()
      modifies this`cells, this`wrapped, this`curX, this`pendingWrap, RowSet()
      ensures Valid() && fresh(RowSet() - old(RowSet()))
      ensures var k := Min(n, scrollBottom - curY + 1);
              if old(ShiftsLines())
              then View() == ShiftUp(old(View()), MarginBox(curY), k, width, style.bg) && curX == LeftBound() && !pendingWrap
              else View() == old(View()) && curX == old(curX) && pendingWrap == old(pendingWrap)
    {
      hide ShiftUp, Distinct, Apart, View, BuffersOk, Sized, LinesOf;
      if curY < scrollTop || curY > scrollBottom || curX < LeftBound() || curX > RightBound() {
        return;
      }
      curX := LeftBound();
      pendingWrap := false;
      LoopUp(curY, Min(n, scrollBottom - curY + 1));
    }

    // ---- printing ----

    function WithinHMargins(x: nat): bool
      requires width > 0
      reads this`lrMarginMode, this`leftMargin, this`rightMargin, this`width
    {
      LeftBound() <= x <= RightBound()
    }

    /** The column at which the cursor's row wraps, and the column it wraps to. */
    function WrapEdge(): nat
      requires width > 0
      reads this`curX, this`lrMarginMode, this`leftMargin, this`rightMargin, this`width
    {
      if WithinHMargins(curX) then RightBound() else width - 1
    }

    function WrapColumn(): nat
      requires width > 0
      reads this`curX, this`lrMarginMode, this`leftMargin, this`rightMargin, this`width
    {
      if WithinHMargins(curX) then LeftBound() else 0
    }

    /** What a line feed past the scroll region does to the rows and the drain. */
    ghost predicate ScrolledOnce(before: seq<Line>, drainedBefore: seq<Line>, scrolled: bool)
      requires Core() && |before| == height && Rectangular(before, width)
      reads this, RowSet()
    {
      if scrolled
      then View() == ShiftUp(before, MarginBox(scrollTop), 1, width, style.bg)
           && drained == drainedBefore + if FullScreenScroll() then [before[0]] else []
      else View() == before && drained == drainedBefore
    }

    /** Settles a cursor that moved one row down. */
    method ScrollIfNeeded()
      requires Core() && curX < width && curY <= height
      modifies this`cells, this`wrapped, this`drained, this`curY, RowSet()
      ensures Valid() && fresh(RowSet() - old(RowSet()))
      ensures curY == Min(old(curY), if old(curY) > scrollBottom then scrollBottom else old(curY))
      ensures ScrolledOnce(old(View()), old(drained), old(curY) > scrollBottom)
    {
      hide ShiftUp, Distinct, Apart, Uniform, Sized, LinesOf, BuffersOk, BlankRow;
      if curY > scrollBottom {
        ScrollUpOnce();
        curY := scrollBottom;
      }
      // The column is on the screen and the region ends on it, so neither the column's own wrap nor the
      // whole-screen scroll that would bring the cursor back can be needed.
      assert curX < width && curY < height;
    }

    /** IND and LF: down one row, scrolling at the region's bottom only from inside the margins. */
    method LineDown()
      requires Valid()
      modifies this`cells, this`wrapped, this`drained, this`curY, RowSet()
      ensures Valid() && fresh(RowSet() - old(RowSet()))
      ensures curY == if old(curY) == scrollBottom then old(curY) else Min(old(curY) + 1, height - 1)
      ensures ScrolledOnce(old(View()), old(drained), old(curY) == scrollBottom && WithinHMargins(curX))
    {
      if curY == scrollBottom {
        if WithinHMargins(curX) {
          ScrollUpOnce();
        }
        return;
      }
      if curY < height - 1 {
        curY := curY + 1;
      }
    }

    /** When no row was written, the view stays. */
    twostate lemma ViewStays()
      ensures old(Valid()) && Valid() && cells == old(cells) && wrapped == old(wrapped) && height == old(height) && width == old(width)
              && (forall k :: 0 <= k < |cells| ==> cells[k][..] == old(cells[k][..])) ==>
        View() == old(View())
    {}

    /** When only row `y` was written, the view changes in that row alone. */
    twostate lemma OneRowWritten(y: nat)
      requires old(GridOk()) && GridOk() && cells == old(cells) && wrapped == old(wrapped) && y < height == old(height) && width == old(width)
      requires forall k :: 0 <= k < height && k != y ==> cells[k][..] == old(cells[k][..])
      ensures View() == old(View())[y := Line(cells[y][..], wrapped[y])]
    {}

    method InsertChars(n: nat)
      requires Valid()
      modifies RowSet()
      ensures View() == if WithinHMargins(curX)
        then old(View())[curY := Line(Inserted(old(View())[curY].cells, curX, RightBound(), n, style.bg), wrapped[curY])]
        else old(View())
    {
      hide Apart, BuffersOk;
      if !WithinHMargins(curX) {
        return;
      }
      forall k | 0 <= k < height && k != curY ensures cells[k] != cells[curY] {}
      hide Distinct;
      InsertInRow(cells[curY], curX, RightBound(), n, style.bg);
      OneRowWritten(curY);
    }

    method DeleteChars(n: nat)
      requires Valid()
      modifies RowSet()
      ensures View() == if WithinHMargins(curX)
        then old(View())[curY := Line(Deleted(old(View())[curY].cells, curX, RightBound(), n, style.bg), wrapped[curY])]
        else old(View())
    {
      hide Apart, BuffersOk;
      if !WithinHMargins(curX) {
        return;
      }
      forall k | 0 <= k < height && k != curY ensures cells[k] != cells[curY] {}
      hide Distinct;
      DeleteInRow(cells[curY], curX, RightBound(), n, style.bg);
      OneRowWritten(curY);
    }

    function Glyph(ch: nat): Cell reads this`style, this`link, this`guarded, this`isoGuarded { GlyphIn(style, ch) }

    function GlyphIn(pen: Style, ch: nat): Cell reads this`link, this`guarded, this`isoGuarded {
      Cell(ch, pen, link, guarded, isoGuarded)
    }

    method SetCell(x: nat, y: nat, c: Cell)
      requires Valid() && x < width && y < height
      modifies if y < |cells| then {cells[y]} else {}
      ensures View() == old(View())[y := old(View())[y].(cells := old(View())[y].cells[x := c])]
    {
      forall k | 0 <= k < height && k != y ensures cells[k] != cells[y] {}
      cells[y][x] := c;
      assert cells[y][..] == old(cells[y][..])[x := c];
      OneRowWritten(y);
    }

    /** An autowrap: to the wrap column of the next row, scrolling if that is past the region, and marking the
        row reached as a continuation unless the wrap was inside a margin box. */
    method WrapLine()
      requires Valid()
      modifies this`cells, this`wrapped, this`drained, this`curX, this`curY, RowSet()
      ensures Valid() && fresh(RowSet() - old(RowSet())) && curX == old(WrapColumn())
      ensures curY == if old(curY) + 1 > scrollBottom then scrollBottom else old(curY) + 1
      ensures var scrolled := old(curY) + 1 > scrollBottom;
              var rows := if scrolled then ShiftUp(old(View()), MarginBox(scrollTop), 1, width, style.bg) else old(View());
              && View() == (if LeftBound() == 0 && RightBound() == width - 1 then rows[curY := rows[curY].(wrapped := true)] else rows)
              && drained == old(drained) + if scrolled && FullScreenScroll() then [old(View()[0])] else []
      ensures Now() == Wrapping(old(Now()), style)
    {
      hide ShiftUp, View, Distinct, Apart, BuffersOk, LinesOf, Sized;
      curX := WrapColumn();
      curY := curY + 1;
      ScrollIfNeeded();
      MarkWrapContinuation();
    }

    method MarkWrapContinuation()
      requires Valid()
      modifies this`wrapped
      ensures Valid()
      ensures View() == if LeftBound() == 0 && RightBound() == width - 1
                        then old(View())[curY := old(View())[curY].(wrapped := true)] else old(View())
    {
      if LeftBound() == 0 && RightBound() == width - 1 {
        wrapped := wrapped[curY := true];
      }
    }

    /** Writes a glyph of width `w` at the cursor, a wide one with its spacer while the row has room. */
    method PlaceGlyph(ch: nat, w: nat)
      requires Valid() && 1 <= w <= 2
      modifies this`curX, RowSet()
      ensures Core() && curY < height
      ensures curX == old(curX) + (w - 1)
      ensures var line := old(View())[curY];
              var one := line.cells[old(curX) := Glyph(ch)];
              View() == old(View())[curY := line.(cells := if w == 2 && curX < width then one[curX := Glyph(0)] else one)]
    {
      hide Distinct, Apart, LinesOf, View, Sized, BuffersOk;
      SetCell(curX, curY, Glyph(ch));
      if w == 2 {
        if curX + 1 < width {
          SetCell(curX + 1, curY, Glyph(0));
        }
        curX := curX + 1;
      }
    }

    /** Moves past the glyph, arming the deferred wrap at the edge. */
    method Advance()
      requires Core() && curX <= width && curY < height
      modifies this`curX, this`pendingWrap
      ensures Valid()
      ensures var edge := old(WrapEdge());
              var at := Min(old(curX), width - 1);
              if old(curX) >= width || old(curX) >= edge
              then curX == (if old(curX) >= width then at else edge) && pendingWrap == autoWrap
              else curX == old(curX) + 1 && pendingWrap == old(pendingWrap)
    {
      var edge := WrapEdge();
      if curX >= width {
        curX := width - 1;
        pendingWrap := autoWrap;
      } else if curX >= edge {
        curX := edge;
        pendingWrap := autoWrap;
      } else {
        curX := curX + 1;
      }
    }

    ghost predicate PageOk(p: Page)
      reads this`height, this`width, this`scrollTop, this`scrollBottom, this`leftMargin, this`rightMargin
    {
      RegionOk() && MarginsOk() && |p.rows| == height && Rectangular(p.rows, width) && p.x < width && p.y < height
    }

    ghost function Now(): (p: Page)
      requires Valid()
      reads this, RowSet()
      ensures PageOk(p)
    {
      Page(View(), drained, curX, curY)
    }

    /** The column at which a row wraps when the cursor is in column `x`. */
    ghost function EdgeFrom(x: nat): nat
      requires width > 0
      reads this`lrMarginMode, this`leftMargin, this`rightMargin, this`width
    {
      if WithinHMargins(x) then RightBound() else width - 1
    }

    /** One wrap: the wrap column of the next row, the region scrolled up when there is none. */
    ghost function Wrapping(p: Page, pen: Style): (q: Page)
      requires PageOk(p)
      reads this`height, this`width, this`scrollTop, this`scrollBottom, this`lrMarginMode, this`leftMargin, this`rightMargin
      ensures PageOk(q)
    {
      hide ShiftUp;
      var scrolled := p.y + 1 > scrollBottom;
      var rows := if scrolled then ShiftUp(p.rows, MarginBox(scrollTop), 1, width, pen.bg) else p.rows;
      var y := if scrolled then scrollBottom else p.y + 1;
      Page(if LeftBound() == 0 && RightBound() == width - 1 then rows[y := rows[y].(wrapped := true)] else rows,
           p.drained + if scrolled && FullScreenScroll() then [p.rows[0]] else [],
           if WithinHMargins(p.x) then LeftBound() else 0, y)
    }

    ghost function WithCell(p: Page, x: nat, c: Cell): (q: Page)
      requires PageOk(p) && x < width
      reads this`height, this`width, this`scrollTop, this`scrollBottom, this`leftMargin, this`rightMargin
      ensures PageOk(q) && q.x == p.x && q.y == p.y && q.drained == p.drained
    {
      p.(rows := p.rows[p.y := p.rows[p.y].(cells := p.rows[p.y].cells[x := c])])
    }

    /** The wraps before a character of width `w`: the deferred one, then that of a wide one that does not fit. */
    ghost function Settled(p: Page, deferred: bool, w: nat, pen: Style): (q: Page)
      requires PageOk(p)
      reads this`height, this`width, this`scrollTop, this`scrollBottom, this`lrMarginMode, this`leftMargin, this`rightMargin
      reads this`autoWrap
      ensures PageOk(q)
    {
      var p1 := if deferred then Wrapping(p, pen) else p;
      if w == 2 && p1.x >= EdgeFrom(p1.x) && autoWrap then Wrapping(WithCell(p1, p1.x, Cell(0x20, pen, "", false, false)), pen) else p1
    }

    /** In insert mode the row moves right by the glyph's width. */
    ghost function MadeRoom(p: Page, w: nat, pen: Style): (q: Page)
      requires PageOk(p)
      reads this`height, this`width, this`scrollTop, this`scrollBottom, this`lrMarginMode, this`leftMargin, this`rightMargin
      reads this`insertMode
      ensures PageOk(q) && q.x == p.x && q.y == p.y && q.drained == p.drained
    {
      hide Inserted;
      var line := p.rows[p.y];
      if insertMode && WithinHMargins(p.x)
      then p.(rows := p.rows[p.y := Line(Inserted(line.cells, p.x, RightBound(), w, pen.bg), line.wrapped)]) else p
    }

    /** The glyph at the cursor of `p`, pushing the row right in insert mode; a wide one with its spacer while there is room. */
    ghost function Printed(p: Page, ch: nat, w: nat, pen: Style): (q: Page)
      requires PageOk(p)
      reads this`height, this`width, this`scrollTop, this`scrollBottom, this`lrMarginMode, this`leftMargin, this`rightMargin
      reads this`link, this`guarded, this`isoGuarded, this`insertMode
      ensures PageOk(q)
    {
      var p2 := WithCell(MadeRoom(p, w, pen), p.x, GlyphIn(pen, ch));
      if w == 2 && p.x + 1 < width then WithCell(p2, p.x + 1, GlyphIn(pen, 0)) else p2
    }

    /** The cursor past a glyph of width `w` that went to column `x`: at the edge, where the next character wraps
        first, once the glyph reaches it. */
    ghost predicate CursorPast(x: nat, w: nat)
      requires width > 0 && w > 0
      reads this`curX, this`pendingWrap, this`autoWrap, this`lrMarginMode, this`leftMargin, this`rightMargin, this`width
    {
      var edge := EdgeFrom(Min(x + w - 1, width - 1));
      if x + w - 1 >= edge then curX == Min(edge, width - 1) && pendingWrap == autoWrap else curX == x + w && !pendingWrap
    }

    /** The page after one character of width `w` in `pen`, and whether a wrap is then deferred. */
    ghost function After(p: Page, deferred: bool, ch: nat, w: nat, pen: Style): (r: (Page, bool))
      requires PageOk(p) && width > 0 && w > 0
      reads this`height, this`width, this`scrollTop, this`scrollBottom, this`lrMarginMode, this`leftMargin, this`rightMargin
      reads this`link, this`guarded, this`isoGuarded, this`insertMode, this`autoWrap
      ensures PageOk(r.0)
    {
      hide Settled, Printed;
      var q := Settled(p, deferred, w, pen);
      var edge, at := EdgeFrom(Min(q.x + w - 1, width - 1)), q.x + w - 1;
      var rows := Printed(q, ch, w, pen).rows;
      (Page(rows, q.drained, if at >= edge then Min(edge, width - 1) else at + 1, q.y), at >= edge && autoWrap)
    }

    /** The same after `n` of them. */
    ghost function AfterAll(p: Page, deferred: bool, ch: nat, w: nat, pen: Style, n: nat): (r: (Page, bool))
      requires PageOk(p) && width > 0 && w > 0
      reads this`height, this`width, this`scrollTop, this`scrollBottom, this`lrMarginMode, this`leftMargin, this`rightMargin
      reads this`link, this`guarded, this`isoGuarded, this`insertMode, this`autoWrap
      ensures PageOk(r.0)
    {
      if n == 0 then (p, deferred)
      else var before := AfterAll(p, deferred, ch, w, pen, n - 1); After(before.0, before.1, ch, w, pen)
    }

    /** Prints one character of width `w`. A deferred wrap is carried out first, then a wide character
        that does not fit wraps too; the glyph lands at the position reported, and the cursor past it, where
        the edge defers the next wrap. */
    method Put(ch: nat, w: nat) returns (ghost x: nat, ghost y: nat)
      requires Valid() && w <= 2
      modifies this`cells, this`wrapped, this`drained, this`curX, this`curY, this`pendingWrap, RowSet()
      ensures Valid() && fresh(RowSet() - old(RowSet()))
      ensures old(drained) <= drained && |drained| <= |old(drained)| + 2
      ensures w == 0 ==> View() == old(View()) && drained == old(drained) && curX == old(curX) && curY == old(curY)
      ensures w == 0 ==> pendingWrap == old(pendingWrap)
      ensures w > 0 ==> x < width && y < height && View()[y].cells[x] == Glyph(ch)
                        && (w == 2 && x + 1 < width ==> View()[y].cells[x + 1] == Glyph(0))
      ensures w > 0 ==>
        var p := Settled(old(Now()), old(pendingWrap), w, style);
        && x == p.x && y == p.y && View() == Printed(p, ch, w, style).rows && drained == p.drained && curY == p.y
        && CursorPast(p.x, w)
      ensures w == 1 && !old(pendingWrap) && !insertMode ==>
        && x == old(curX) && y == old(curY) && drained == old(drained)
        && View() == old(View())[y := old(View())[y].(cells := old(View())[y].cells[x := Glyph(ch)])]
    {
      hide ShiftUp, View, Distinct, Apart, BuffersOk, LinesOf, Sized, Inserted, Wrapping, Settled, CursorPast;
      x, y := curX, curY;
      if w == 0 {
        return;
      }
      assert w == 1 && !pendingWrap ==> Settled(Now(), pendingWrap, w, style) == Now() by { SettledAlready(Now(), w); }
      SettleWraps(w);
      x, y := curX, curY;
      PrintHere(ch, w);
    }

    lemma SettledAlready(p: Page, w: nat)
      requires PageOk(p)
      ensures w == 1 ==> forall pen :: Settled(p, false, w, pen) == p
    {
      hide Wrapping;
    }

    /** The glyph at the cursor, with the row pushed right first in insert mode. */
    method PrintHere(ch: nat, w: nat)
      requires Valid() && !pendingWrap && 1 <= w <= 2
      modifies this`curX, this`pendingWrap, RowSet()
      ensures Valid() && View() == Printed(old(Now()), ch, w, style).rows
      ensures View()[curY].cells[old(curX)] == Glyph(ch)
      ensures w == 2 && old(curX) + 1 < width ==> View()[curY].cells[old(curX) + 1] == Glyph(0)
      ensures w == 1 && !insertMode ==>
        View() == old(View())[curY := old(View())[curY].(cells := old(View())[curY].cells[old(curX) := Glyph(ch)])]
      ensures CursorPast(old(curX), w)
    {
      hide View, Distinct, Apart, BuffersOk, LinesOf, Sized, Inserted, CursorPast;
      MakeRoom(w);
      WriteGlyph(ch, w);
    }

    method MakeRoom(w: nat)
      requires Valid()
      modifies RowSet()
      ensures Valid() && Now() == MadeRoom(old(Now()), w, style)
    {
      hide View, Distinct, Apart, BuffersOk, LinesOf, Sized, Inserted;
      ViewRows();
      if insertMode {
        InsertChars(w);
      }
    }

    /** The glyph at the cursor, and the cursor past it. */
    method WriteGlyph(ch: nat, w: nat)
      requires Valid() && !pendingWrap && 1 <= w <= 2
      modifies this`curX, this`pendingWrap, RowSet()
      ensures Valid()
      ensures var p := WithCell(old(Now()), old(curX), Glyph(ch));
              View() == (if w == 2 && old(curX) + 1 < width then WithCell(p, old(curX) + 1, Glyph(0)) else p).rows
      ensures View()[curY].cells[old(curX)] == Glyph(ch)
      ensures w == 2 && old(curX) + 1 < width ==> View()[curY].cells[old(curX) + 1] == Glyph(0)
      ensures CursorPast(old(curX), w)
    {
      hide View, Distinct, Apart, BuffersOk, LinesOf, Sized;
      PlaceGlyph(ch, w);
      Advance();
    }

    method CarryOutWrap()
      requires Valid()
      modifies this`cells, this`wrapped, this`drained, this`curX, this`curY, this`pendingWrap, RowSet()
      ensures Valid() && fresh(RowSet() - old(RowSet())) && !pendingWrap
      ensures old(drained) <= drained && |drained| <= |old(drained)| + 1
      ensures Now() == if old(pendingWrap) then Wrapping(old(Now()), style) else old(Now())
    {
      hide ShiftUp, View, Distinct, Apart, BuffersOk, LinesOf, Sized, Wrapping;
      if pendingWrap {
        pendingWrap := false;
        WrapLine();
      }
    }

    method WrapBeforeWide()
      requires Valid()
      modifies this`cells, this`wrapped, this`drained, this`curX, this`curY, RowSet()
      ensures Valid() && fresh(RowSet() - old(RowSet()))
      ensures old(drained) <= drained && |drained| <= |old(drained)| + 1
      ensures Now() == Settled(old(Now()), false, 2, style)
    {
      hide ShiftUp, View, Distinct, Apart, BuffersOk, LinesOf, Sized, Wrapping;
      if curX >= WrapEdge() && autoWrap {
        SetCell(curX, curY, Cell(0x20, style, "", false, false));
        WrapLine();
      }
    }

    /** The wraps that come before a character of width `w`. */
    method SettleWraps(w: nat)
      requires Valid() && 1 <= w <= 2
      modifies this`cells, this`wrapped, this`drained, this`curX, this`curY, this`pendingWrap, RowSet()
      ensures Valid() && fresh(RowSet() - old(RowSet()))
      ensures old(drained) <= drained && |drained| <= |old(drained)| + 2
      ensures Now() == Settled(old(Now()), old(pendingWrap), w, style) && !pendingWrap
    {
      hide View, Distinct, Apart, BuffersOk, LinesOf, Sized, Wrapping;
      CarryOutWrap();
      if w == 2 {
        WrapBeforeWide();
      }
    }

    // ---- cursor, margins and regions ----

    method CursorPosition(y: nat, x: nat)
      requires Valid()
      modifies this`curX, this`curY
      ensures Valid()
      ensures if originMode then curY == Min(y + scrollTop, scrollBottom) && curX == Min(x + LeftBound(), RightBound())
              else curY == Min(y, height - 1) && curX == Min(x, width - 1)
    {
      curY := if originMode then Min(y + scrollTop, scrollBottom) else Min(y, height - 1);
      curX := if originMode then Min(x + LeftBound(), RightBound()) else Min(x, width - 1);
    }

    /** DECSTBM, with one-based rows; a region of fewer than two rows is ignored. */
    method SetScrollRegion(first: int, last: int)
      requires Valid()
      modifies this`scrollTop, this`scrollBottom, this`curX, this`curY, this`pendingWrap
      ensures Valid()
      ensures var top, bottom := Max(first - 1, 0), Min(last - 1, height - 1);
              if top < bottom
              then scrollTop == top && scrollBottom == bottom && !pendingWrap
                   && if originMode then curY == top && curX == LeftBound() else curY == 0 && curX == 0
              else scrollTop == old(scrollTop) && scrollBottom == old(scrollBottom) && curX == old(curX) && curY == old(curY)
                   && pendingWrap == old(pendingWrap)
    {
      var top, bottom := Max(first - 1, 0), Min(last - 1, height - 1);
      if top >= bottom {
        return;
      }
      scrollTop, scrollBottom := top, bottom;
      if originMode {
        curY, curX := scrollTop, LeftBound();
      } else {
        curY, curX := 0, 0;
      }
      pendingWrap := false;
    }

    /** DECSLRM, with one-based columns. */
    method SetLeftRightMargins(first: int, last: int)
      requires Valid()
      modifies this`leftMargin, this`rightMargin, this`curX, this`curY, this`pendingWrap
      ensures Valid()
      ensures var left, right := Max(first - 1, 0), Min(last - 1, width - 1);
              if left < right
              then leftMargin == left && rightMargin == right && !pendingWrap
                   && if originMode then curY == scrollTop && curX == left else curY == 0 && curX == 0
              else leftMargin == old(leftMargin) && rightMargin == old(rightMargin) && curX == old(curX) && curY == old(curY)
                   && pendingWrap == old(pendingWrap)
    {
      var left, right := Max(first - 1, 0), Min(last - 1, width - 1);
      if left >= right {
        return;
      }
      leftMargin, rightMargin := left, right;
      if originMode {
        curY, curX := scrollTop, leftMargin;
      } else {
        curY, curX := 0, 0;
      }
      pendingWrap := false;
    }

    /** DECLRMM; leaving the mode forgets the margins. */
    method SetMarginMode(on: bool)
      requires Valid()
      modifies this`lrMarginMode, this`leftMargin, this`rightMargin
      ensures Valid() && lrMarginMode == on
      ensures leftMargin == (if on then old(leftMargin) else 0) && rightMargin == if on then old(rightMargin) else width - 1
    {
      lrMarginMode := on;
      if !on {
        leftMargin, rightMargin := 0, width - 1;
      }
    }

    /** DECSC, into the slot of the screen shown. */
    method SaveCursor()
      requires Valid()
      modifies this`mainCursor, this`altCursor
      ensures Valid()
      ensures var slot := SavedCursor(true, curX, curY, style, originMode, pendingWrap, guarded);
              if inAlt then altCursor == slot && mainCursor == old(mainCursor) else mainCursor == slot && altCursor == old(altCursor)
    {
      var slot := SavedCursor(true, curX, curY, style, originMode, pendingWrap, guarded);
      if inAlt { altCursor := slot; } else { mainCursor := slot; }
    }

    lemma HasSize()
      requires Core()
      ensures height > 0 && width > 0
    {}

    /** DECRC: back to the saved position, brought onto the screen if that has shrunk since. */
    method RestoreCursor()
      requires Valid()
      modifies this`curX, this`curY, this`style, this`originMode, this`pendingWrap, this`guarded
      ensures Valid()
      ensures var slot := if inAlt then altCursor else mainCursor;
              if slot.valid
              then curX == Min(slot.x, width - 1) && curY == Min(slot.y, height - 1) && style == slot.style
                   && originMode == slot.origin && pendingWrap == slot.pendingWrap && guarded == slot.guarded
              else curX == 0 && curY == 0 && style == old(style)
                   && originMode == old(originMode) && !pendingWrap && guarded == old(guarded)
    {
      hide Core;
      HasSize();
      var slot := if inAlt then altCursor else mainCursor;
      if !slot.valid {
        curY, curX := 0, 0;
        pendingWrap := false;
        return;
      }
      RestoreFrom(slot);
    }

    method RestoreFrom(slot: SavedCursor)
      requires Valid()
      modifies this`curX, this`curY, this`style, this`originMode, this`pendingWrap, this`guarded
      ensures Valid() && curX == Min(slot.x, width - 1) && curY == Min(slot.y, height - 1) && style == slot.style
      ensures originMode == slot.origin && pendingWrap == slot.pendingWrap && guarded == slot.guarded
    {
      hide Core;
      HasSize();
      var y, x := slot.y, slot.x;
      if y >= height {
        y := height - 1;
      }
      if x >= width {
        x := width - 1;
      }
      curY, curX, style, originMode, guarded, pendingWrap := y, x, slot.style, slot.origin, slot.guarded, slot.pendingWrap;
    }

    // ---- the alternate screen ----

    ghost function SavedRowSet(): set<object> reads this`saved {
      if saved.Some? then set y | 0 <= y < |saved.value.cells| :: saved.value.cells[y] else {}
    }

    /** The main screen as kept while the alternate one is shown. */
    ghost function SavedView(): seq<Line>
      requires saved.Some?
      reads this`saved, SavedRowSet()
    {
      LinesOf(saved.value.cells, Pad(saved.value.wrapped, |saved.value.cells|))
    }

    ghost function StashSet(): set<object> reads this`altCells {
      if altCells.Some? then set y | 0 <= y < |altCells.value| :: altCells.value[y] else {}
    }

    /** Every row the screen holds: shown, kept aside or stashed. */
    ghost function Footprint(): set<object> reads this`cells, this`saved, this`altCells {
      RowSet() + SavedRowSet() + StashSet()
    }

    method CopyRows() returns (copies: Rows)
      requires GridOk()
      ensures Sized(copies, height, width) && Distinct(copies) && forall i :: 0 <= i < |copies| ==> fresh(copies[i])
      ensures LinesOf(copies, wrapped) == View()
    {
      copies := [];
      for i := 0 to height
        invariant |copies| == i && forall k :: 0 <= k < i ==> fresh(copies[k]) && copies[k].Length == width
        invariant forall k :: 0 <= k < i ==> copies[k][..] == cells[k][..]
        invariant forall j, k :: 0 <= j < k < i ==> copies[j] != copies[k]
      {
        var source := cells[i][..];
        var row := new Cell[width](x requires 0 <= x < |source| => source[x]);
        assert row[..] == source;
        copies := copies + [row];
      }
    }

    method BlankRows(bg: Color) returns (rows: Rows)
      ensures Sized(rows, height, width) && Distinct(rows) && forall i :: 0 <= i < |rows| ==> fresh(rows[i])
      ensures forall i :: 0 <= i < |rows| ==> rows[i][..] == BlankRow(width, bg)
    {
      rows := [];
      for i := 0 to height
        invariant |rows| == i && forall k :: 0 <= k < i ==> fresh(rows[k]) && rows[k].Length == width && rows[k][..] == BlankRow(width, bg)
        invariant forall j, k :: 0 <= j < k < i ==> rows[j] != rows[k]
      {
        var row := MakeRow(width, bg);
        rows := rows + [row];
      }
    }

    /** The stashed alternate buffer can be shown again. */
    predicate AltFits() reads this`altCells, this`height, this`width {
      altCells.Some? && |altCells.value| == height && height > 0 && altCells.value[0].Length == width
    }

    /** Keeps a deep copy of the main screen. */
    method SaveMain()
      requires Valid() && !inAlt
      modifies this`saved
      ensures saved.Some? && SavedView() == View()
      ensures saved.value == Saved(saved.value.cells, wrapped, curX, curY, style, scrollTop, scrollBottom)
      ensures Sized(saved.value.cells, height, width) && Distinct(saved.value.cells)
      ensures forall i :: 0 <= i < height ==> fresh(saved.value.cells[i])
    {
      hide BuffersOk, Distinct, Apart;
      var copies := CopyRows();
      assert Pad(wrapped, |copies|) == wrapped;
      saved := Some(Saved(copies, wrapped, curX, curY, style, scrollTop, scrollBottom));
    }

    /** The rows the alternate screen starts with: the stash if it may and can be shown, else blank ones. */
    method AltRows(mode: nat) returns (rows: Rows)
      requires Valid() && !inAlt
      ensures Sized(rows, height, width) && Distinct(rows)
      ensures forall i :: 0 <= i < height ==> rows[i] in StashSet() || fresh(rows[i])
      ensures Apart(rows, cells)
      ensures forall i :: 0 <= i < height ==> rows[i][..] == if mode == 1049 || !AltFits() then BlankRow(width, DEFAULT) else altCells.value[i][..]
    {
      if mode == 1049 || !AltFits() {
        rows := BlankRows(DEFAULT);
      } else {
        rows := altCells.value;
      }
    }

    method EnterFromMain(mode: nat)
      requires Valid() && !inAlt
      modifies this`saved, this`cells, this`wrapped, this`altCells, this`scrollTop, this`scrollBottom, this`inAlt, this`link
      modifies this`curX, this`curY, this`style
      ensures Valid() && inAlt && height == old(height) && width == old(width) && drained == old(drained)
      ensures saved.Some? && SavedView() == old(View()) && |saved.value.wrapped| == height
      ensures saved.value == Saved(saved.value.cells, old(wrapped), old(curX), old(curY), old(style), old(scrollTop), old(scrollBottom))
      ensures scrollTop == 0 && scrollBottom == height - 1
      ensures if mode == 1049 then curX == 0 && curY == 0 && style == PLAIN
              else curX == old(curX) && curY == old(curY) && style == old(style)
      ensures fresh(RowSet() - old(StashSet())) && SavedRegionOk()
      ensures altCells == Some(cells) && fresh(SavedRowSet()) && link == ""
      ensures forall y :: 0 <= y < height ==> !wrapped[y]
      ensures forall y :: 0 <= y < height ==>
        cells[y][..] == if mode == 1049 || !old(AltFits()) then BlankRow(width, DEFAULT) else old(altCells.value[y][..])
    {
      var rows := AltRows(mode);
      SaveMain();
      assert scrollTop <= scrollBottom < height;
      assert Apart(saved.value.cells, rows);
      hide Valid, View, LinesOf, Distinct, Uniform, RegionOk, SavedView, Sized, Apart, BuffersOk, MarginsOk;
      SwitchToAlt(rows, mode);
    }

    method SwitchToAlt(rows: Rows, mode: nat)
      requires GridOk() && MarginsOk() && CursorOk() && saved.Some?
      requires Sized(rows, height, width) && Distinct(rows)
      requires Sized(saved.value.cells, height, width) && Distinct(saved.value.cells) && Apart(saved.value.cells, rows)
      requires saved.value.curX < width && saved.value.curY < height
      modifies this`cells, this`wrapped, this`altCells, this`scrollTop, this`scrollBottom, this`inAlt, this`link
      modifies this`curX, this`curY, this`style
      ensures Valid() && inAlt && scrollTop == 0 && scrollBottom == height - 1 && cells == rows && altCells == Some(rows)
      ensures link == "" && |wrapped| == height && forall y :: 0 <= y < height ==> !wrapped[y]
      ensures if mode == 1049 then curX == 0 && curY == 0 && style == PLAIN
              else curX == old(curX) && curY == old(curY) && style == old(style)
    {
      hide Distinct, Sized, Apart, BuffersOk;
      ShowAlt(rows);
      link := "";
      if mode == 1049 {
        HomePlain();
      }
    }

    /** The alternate screen left with mode `out` and entered again with mode `back`: its rows are there again, without their
        wrap flags, when it was left with 47 and is not entered with 1049; otherwise it is blank. */
    method LeaveAndReturn(out: nat, back: nat)
      requires Valid() && inAlt && SavedRegionOk() && (out == 47 || out == 1047 || out == 1049)
      modifies this
      ensures Valid() && inAlt && height == old(height) && width == old(width)
      ensures forall y :: 0 <= y < height ==>
        View()[y] == Line(if out == 47 && back != 1049 then old(View()[y].cells) else BlankRow(width, DEFAULT), false)
    {
      assert height > 0 && cells[0].Length == width && |cells| == height;
      hide Distinct, Apart, BuffersOk, SavedView, BlankRow;
      ExitFromAlt(out);
      assert AltFits() <==> out == 47;
      EnterFromMain(back);
    }

    /** 47, 1047 and 1049 all keep the main screen aside; 1049 also clears the alternate one, homes the cursor
        and resets the pen. A set while already on the alternate screen does nothing. */
    method EnterAltScreen(mode: nat)
      requires Valid()
      modifies this
      ensures Valid() && inAlt
      ensures old(inAlt) ==> unchanged(this)
      ensures !old(inAlt) ==> saved.Some? && SavedView() == old(View())
    {
      hide Valid;
      if !inAlt {
        EnterFromMain(mode);
      }
    }

    /** Puts `rows` on the screen in place of the main ones. */
    method ShowAlt(rows: Rows)
      requires GridOk() && MarginsOk() && CursorOk() && saved.Some?
      requires Sized(rows, height, width) && Distinct(rows)
      requires Sized(saved.value.cells, height, width) && Distinct(saved.value.cells) && Apart(saved.value.cells, rows)
      requires saved.value.curX < width && saved.value.curY < height
      modifies this`cells, this`wrapped, this`altCells, this`scrollTop, this`scrollBottom, this`inAlt
      ensures Valid() && inAlt && scrollTop == 0 && scrollBottom == height - 1 && cells == rows && altCells == Some(rows)
      ensures |wrapped| == height && forall y :: 0 <= y < height ==> !wrapped[y]
    {
      hide Distinct, Apart;
      cells, altCells, wrapped, inAlt, scrollTop, scrollBottom := rows, Some(rows), seq(height, i => false), true, 0, height - 1;
    }

    method HomePlain()
      requires Valid()
      modifies this`curX, this`curY, this`style
      ensures Valid() && curX == 0 && curY == 0 && style == PLAIN
    {
      curY, curX, style := 0, 0, PLAIN;
    }

    /** The scroll region an exit restores still is one. The bottom is brought onto the screen, the top is not,
        so this is lost when the screen shrank past the top while the alternate screen was shown. */
    predicate SavedRegionOk() reads this`saved, this`height {
      saved.Some? ==> saved.value.scrollTop <= Min(saved.value.scrollBottom, height - 1)
    }

    /** Brings the main rows back and stashes the alternate ones unless the mode drops them. */
    method RestoreMain(mode: nat)
      requires Valid() && inAlt
      modifies this`cells, this`wrapped, this`altCells, this`saved, this`inAlt
      ensures GridOk() && MarginsOk() && BuffersOk() && CursorOk() && !inAlt && saved == None
      ensures View() == old(SavedView()) && wrapped == Pad(old(saved.value.wrapped), height)
      ensures Footprint() <= old(Footprint()) && altCells == if mode == 1047 || mode == 1049 then None else Some(old(cells))
    {
      hide View, SavedView, RegionOk;
      var main := saved.value;
      ApartIsSymmetric(main.cells, cells);
      var stash := if mode == 1047 || mode == 1049 then None else Some(cells);
      hide Distinct, Apart;
      cells, wrapped, altCells, saved, inAlt := main.cells, Pad(main.wrapped, height), stash, None, false;
      assert View() == LinesOf(main.cells, Pad(main.wrapped, |main.cells|)) by { ViewIsLines(); }
      assert old(SavedView()) == old(LinesOf(main.cells, Pad(main.wrapped, |main.cells|))) by { SavedViewIsLines(); }
    }

    lemma ViewIsLines()
      requires GridOk()
      ensures View() == LinesOf(cells, wrapped)
    {}

    twostate lemma SavedViewIsLines()
      requires old(saved).Some?
      ensures old(SavedView()) == old(LinesOf(saved.value.cells, Pad(saved.value.wrapped, |saved.value.cells|)))
    {}

    /** Brings back the scroll region, and for 1049 the cursor and the pen. */
    method RestorePlace(main: Saved, mode: nat)
      requires GridOk() && MarginsOk() && BuffersOk() && CursorOk() && main.curX < width && main.curY < height
      modifies this`scrollTop, this`scrollBottom, this`curX, this`curY, this`style
      ensures scrollTop == main.scrollTop && scrollBottom == Min(main.scrollBottom, height - 1)
      ensures if mode == 1049 then curX == main.curX && curY == main.curY && style == main.style
              else curX == old(curX) && curY == old(curY) && style == old(style)
      ensures Valid() <==> main.scrollTop <= Min(main.scrollBottom, height - 1)
    {
      hide Distinct, Apart, BuffersOk, Sized;
      scrollTop, scrollBottom := main.scrollTop, main.scrollBottom;
      if mode == 1049 {
        curY, curX, style := main.curY, main.curX, main.style;
      }
      if scrollBottom >= height {
        scrollBottom := height - 1;
      }
    }

    method ExitFromAlt(mode: nat)
      requires Valid() && inAlt
      modifies this`saved, this`cells, this`wrapped, this`altCells, this`scrollTop, this`scrollBottom, this`inAlt, this`link
      modifies this`curX, this`curY, this`style
      ensures !inAlt && saved == None && GridOk() && View() == old(SavedView()) && height == old(height) && width == old(width)
      ensures scrollTop == old(saved.value.scrollTop) && scrollBottom == Min(old(saved.value.scrollBottom), height - 1)
      ensures if mode == 1049 then curX == old(saved.value.curX) && curY == old(saved.value.curY) && style == old(saved.value.style)
              else curX == old(curX) && curY == old(curY) && style == old(style)
      ensures Valid() <==> old(SavedRegionOk())
      ensures wrapped == Pad(old(saved.value.wrapped), height)
      ensures Footprint() <= old(Footprint())
      ensures link == "" && altCells == if mode == 1047 || mode == 1049 then None else Some(old(cells))
    {
      hide View, SavedView, Distinct, Apart, LinesOf, Sized, Uniform, Pad;
      var main := saved.value;
      link := "";
      RestoreMain(mode);
      RestorePlace(main, mode);
    }

    /** Only 1049 restores the cursor and the pen with the rows. */
    method ExitAltScreen(mode: nat)
      requires Valid()
      modifies this
      ensures !old(inAlt) ==> unchanged(this)
      ensures old(inAlt) ==> !inAlt && GridOk() && View() == old(SavedView())
      ensures Valid() <==> old(SavedRegionOk())
    {
      hide View, SavedView, LinesOf;
      if inAlt {
        ExitFromAlt(mode);
      }
    }

    // ---- resizing ----

    method NewRows(n: nat, w: nat) returns (rows: Rows)
      ensures |rows| == n && Distinct(rows) && forall i :: 0 <= i < n ==> fresh(rows[i]) && rows[i].Length == w
      ensures forall i :: 0 <= i < n ==> rows[i][..] == BlankRow(w, DEFAULT)
    {
      rows := [];
      for i := 0 to n
        invariant |rows| == i && forall k :: 0 <= k < i ==> fresh(rows[k]) && rows[k].Length == w && rows[k][..] == BlankRow(w, DEFAULT)
        invariant forall j, k :: 0 <= j < k < i ==> rows[j] != rows[k]
      {
        var row := MakeRow(w, DEFAULT);
        rows := rows + [row];
      }
    }

    lemma GrownAbove(before: seq<Line>, n: nat)
      requires GridOk() && height == |before| + n
      requires forall y :: 0 <= y < n ==> cells[y][..] == BlankRow(width, DEFAULT) && !wrapped[y]
      requires forall y :: n <= y < height ==> Line(cells[y][..], wrapped[y]) == before[y - n]
      ensures View() == Heightened(before, height, width, true)
    {}

    method GrowAbove(rows: nat)
      requires GridOk() && rows > height
      modifies this`cells, this`wrapped, this`height
      ensures GridOk() && height == rows && fresh(RowSet() - old(RowSet()))
      ensures View() == Heightened(old(View()), rows, width, true)
    {
      hide BlankRow, Distinct, Apart, View, LinesOf, Heightened;
      ViewRows();
      var n := rows - height;
      var more := NewRows(n, width);
      StackedRows(more, cells, more + cells);
      cells, wrapped, height := more + cells, seq(n, i => false) + wrapped, rows;
      GrownAbove(old(View()), n);
    }

    method GrowBelow(rows: nat)
      requires GridOk() && rows > height
      modifies this`cells, this`wrapped, this`height
      ensures GridOk() && height == rows && fresh(RowSet() - old(RowSet()))
      ensures View() == Heightened(old(View()), rows, width, false)
    {
      var n := height;
      var more := NewRows(rows - height, width);
      cells, wrapped, height := cells + more, wrapped + seq(rows - height, i => false), rows;
      StackedRows(old(cells), more, cells);
    }

    method Shrink(rows: nat)
      requires GridOk() && 0 < rows <= height
      modifies this`cells, this`wrapped, this`height
      ensures GridOk() && height == rows && fresh(RowSet() - old(RowSet()))
      ensures forall above :: View() == Heightened(old(View()), rows, width, above)
    {
      cells, wrapped, height := cells[..rows], wrapped[..rows], rows;
      forall above ensures View() == Heightened(old(View()), rows, width, above) {}
    }

    /** On the main screen rows are added below; on the alternate one above, and the cursor moves along. */
    method ResizeHeight(rows: nat)
      requires GridOk() && rows > 0
      modifies this`cells, this`wrapped, this`height, this`curY
      ensures GridOk() && height == rows && fresh(RowSet() - old(RowSet()))
      ensures curY == old(curY) + if inAlt && rows > old(height) then rows - old(height) else 0
      ensures View() == Heightened(old(View()), rows, width, inAlt)
    {
      hide View, Heightened, Distinct, GridOk;
      if rows > height && inAlt {
        curY := curY + (rows - height);
        GrowAbove(rows);
      } else if rows > height {
        GrowBelow(rows);
      } else {
        Shrink(rows);
      }
    }

    /** `rows` cut or padded to width `cols`, in storage of their own. */
    method FitRows(rows: Rows, cols: nat) returns (fitted: Rows)
      ensures |fitted| == |rows| && Distinct(fitted) && forall i :: 0 <= i < |rows| ==> fresh(fitted[i]) && fitted[i].Length == cols
      ensures forall i :: 0 <= i < |rows| ==> fitted[i][..] == Fitted(rows[i][..], cols)
    {
      fitted := [];
      for i := 0 to |rows|
        invariant |fitted| == i && forall k :: 0 <= k < i ==> fresh(fitted[k]) && fitted[k].Length == cols
        invariant forall k :: 0 <= k < i ==> fitted[k][..] == Fitted(rows[k][..], cols)
        invariant forall j, k :: 0 <= j < k < i ==> fitted[j] != fitted[k]
      {
        var source := rows[i][..];
        var row := new Cell[cols](x requires 0 <= x => if x < |source| then source[x] else Blank(DEFAULT));
        assert row[..] == Fitted(source, cols);
        fitted := fitted + [row];
      }
    }

    /** Tab stops keep their columns, and columns newly exposed get a stop every eight. */
    method ResizeWidth(cols: nat)
      requires GridOk() && cols > 0
      modifies this`cells, this`width, this`tabStops
      ensures GridOk() && width == cols && fresh(RowSet() - old(RowSet()))
      ensures View() == Widened(old(View()), cols)
      ensures old(TabsOk()) ==> TabsOk()
      ensures tabStops == if cols != old(width) && old(tabStops).Some? then Some(WidenedStops(old(tabStops).value, cols)) else old(tabStops)
    {
      if cols != width {
        var fitted := FitRows(cells, cols);
        cells, width := fitted, cols;
        if tabStops.Some? { tabStops := Some(WidenedStops(tabStops.value, cols)); }
      }
    }

    /** Rebuilds the saved main rows at the new size, and brings the saved cursor onto it. */
    method ResizeSavedMain(rows: nat, cols: nat)
      requires saved.Some? && rows > 0 && cols > 0 && Sized(saved.value.cells, |saved.value.cells|, SavedWidth())
      requires Distinct(saved.value.cells) && Apart(saved.value.cells, cells)
      requires |saved.value.cells| == rows && SavedWidth() == cols ==> saved.value.curX < cols && saved.value.curY < rows
      modifies this`saved
      ensures saved.Some? && Sized(saved.value.cells, rows, cols) && Distinct(saved.value.cells) && Apart(saved.value.cells, cells)
      ensures saved.value.curX < cols && saved.value.curY < rows
      ensures saved.value == old(saved.value).(cells := saved.value.cells, curX := saved.value.curX, curY := saved.value.curY)
      ensures old(saved.value.curX) < old(SavedWidth()) ==> saved.value.curX == Min(old(saved.value.curX), cols - 1)
      ensures old(saved.value.curY) < |old(saved.value.cells)| ==> saved.value.curY == Min(old(saved.value.curY), rows - 1)
      ensures forall y :: 0 <= y < rows ==>
        saved.value.cells[y][..] == if y < |old(saved.value.cells)| then Fitted(old(saved.value.cells[y][..]), cols) else BlankRow(cols, DEFAULT)
    {
      var main := saved.value;
      if |main.cells| == rows && main.cells[0].Length == cols {
        return;
      }
      var kept := main.cells[..Min(rows, |main.cells|)];
      var fitted := FitRows(kept, cols);
      var more := NewRows(rows - |kept|, cols);
      saved := Some(main.(cells := fitted + more,
                          curX := if main.curX >= cols then cols - 1 else main.curX,
                          curY := if main.curY >= rows then rows - 1 else main.curY));
    }

    function SavedWidth(): nat reads this`saved {
      if saved.Some? && |saved.value.cells| > 0 then saved.value.cells[0].Length else 0
    }

    twostate lemma ApartKept(rows: Rows)
      requires old(Apart(rows, cells)) && fresh(RowSet() - old(RowSet()))
      ensures Apart(rows, cells)
    {
      forall j | 0 <= j < |cells| ensures cells[j] in old(RowSet()) || fresh(cells[j]) { assert cells[j] in RowSet(); }
    }

    /** The live grid at the new size, the cursor on it, the region and the margins full. */
    method ResizeLive(rows: nat, cols: nat)
      requires GridOk() && curX < width && curY < height && rows > 0 && cols > 0
      modifies this`cells, this`wrapped, this`height, this`width, this`curX, this`curY
      modifies this`scrollTop, this`scrollBottom, this`leftMargin, this`rightMargin, this`tabStops
      ensures GridOk() && RegionOk() && MarginsOk() && CursorOk() && height == rows && width == cols
      ensures old(TabsOk()) ==> TabsOk()
      ensures fresh(RowSet() - old(RowSet()))
      ensures View() == Widened(Heightened(old(View()), rows, old(width), inAlt), cols)
      ensures scrollTop == 0 && scrollBottom == height - 1 && leftMargin == 0 && rightMargin == width - 1
      ensures curX == Min(old(curX), cols - 1)
      ensures curY == Min(old(curY) + if inAlt && rows > old(height) then rows - old(height) else 0, rows - 1)
      ensures tabStops == if cols != old(width) && old(tabStops).Some? then Some(WidenedStops(old(tabStops).value, cols)) else old(tabStops)
    {
      hide View, Heightened, Widened, Distinct, Sized;
      ResizeHeight(rows);
      ResizeWidth(cols);
      Refit();
    }

    /** The cursor on the screen, the region and the margins full. */
    method Refit()
      requires height > 0 && width > 0
      modifies this`curX, this`curY, this`scrollTop, this`scrollBottom, this`leftMargin, this`rightMargin
      ensures RegionOk() && MarginsOk() && CursorOk()
      ensures scrollTop == 0 && scrollBottom == height - 1 && leftMargin == 0 && rightMargin == width - 1
      ensures curX == Min(old(curX), width - 1) && curY == Min(old(curY), height - 1)
    {
      curX, curY := Min(curX, width - 1), Min(curY, height - 1);
      scrollTop, scrollBottom, leftMargin, rightMargin := 0, height - 1, 0, width - 1;
    }

    /** Each dimension is at least 1 and at most 1000. */
    method Resize(rows: int, cols: int)
      requires Valid()
      modifies this`cells, this`wrapped, this`height, this`width, this`curX, this`curY, this`saved
      modifies this`scrollTop, this`scrollBottom, this`leftMargin, this`rightMargin, this`tabStops
      ensures Valid() && height == Min(Max(rows, 1), 1000) && width == Min(Max(cols, 1), 1000)
      ensures View() == Widened(Heightened(old(View()), height, old(width), inAlt), width)
      ensures scrollTop == 0 && scrollBottom == height - 1 && leftMargin == 0 && rightMargin == width - 1
      ensures curX == Min(old(curX), width - 1)
      ensures curY == Min(old(curY) + if inAlt && height > old(height) then height - old(height) else 0, height - 1)
      ensures tabStops == if width != old(width) && old(tabStops).Some? then Some(WidenedStops(old(tabStops).value, width)) else old(tabStops)
      ensures inAlt ==> saved.Some? && saved.value.scrollTop == old(saved.value.scrollTop)
                        && saved.value.scrollBottom == old(saved.value.scrollBottom)
      ensures fresh(RowSet() - old(RowSet())) && (saved.None? <==> old(saved).None?)
      ensures old(TabsOk()) ==> TabsOk()
    {
      hide View, Heightened, Widened, Distinct, Apart, WidenedStops;
      var h, w := Min(Max(rows, 1), 1000), Min(Max(cols, 1), 1000);
      ResizeLive(h, w);
      if saved.Some? {
        ApartKept(saved.value.cells);
        ResizeSavedMain(h, w);
      } else if altCells.Some? {
        ApartKept(altCells.value);
      }
    }

    // ---- whole runs ----

    constructor (rows: int, cols: int)
      requires rows >= 1 && cols >= 1
      ensures Valid() && !inAlt && height == Min(rows, 1000) && width == Min(cols, 1000)
      ensures curX == 0 && curY == 0 && !originMode && drained == [] && fresh(RowSet())
      ensures altCells == None && TabsOk()
    {
      height, width := Min(rows, 1000), Min(cols, 1000);
      curX, curY, pendingWrap, autoWrap, insertMode, lrMarginMode := 0, 0, false, true, false, false;
      scrollTop, scrollBottom, leftMargin, rightMargin := 0, Min(rows, 1000) - 1, 0, Min(cols, 1000) - 1;
      style, link, guarded, isoGuarded, originMode := PLAIN, "", false, false, false;
      reverseWrap, newLineMode, moreFix, tabStops := false, false, false, None;
      mainCursor, altCursor := SavedCursor(false, 0, 0, PLAIN, false, false, false), SavedCursor(false, 0, 0, PLAIN, false, false, false);
      drained, inAlt, saved, altCells := [], false, None, None;
      cells, wrapped := [], [];
      new;
      var all := NewRows(height, width);
      cells, wrapped := all, seq(height, i => false);
    }

    lemma StashIsShown()
      requires altCells == Some(cells)
      ensures Footprint() == RowSet() + SavedRowSet()
    {}

    lemma SavedWhileAlt()
      requires Valid()
      ensures inAlt <==> saved.Some?
    {}

    lemma SavedIsApart()
      requires Valid()
      ensures SavedRowSet() !! RowSet()
    {}
  }

  /** A screen that shrinks under the alternate buffer comes back with its scroll region's top below its
      last row: the exit brings the bottom onto the screen but not the top. */
  method ShrinkUnderAltLosesTheRegion() returns (s: Screen)
    ensures s.scrollTop == 10 && s.scrollBottom == 4 && s.height == 5 && !s.Valid()
  {
    s := new Screen(24, 80);
    hide Screen.View, Screen.SavedView, Distinct, Apart, LinesOf;
    s.SetScrollRegion(11, 24);
    s.EnterFromMain(47);
    s.Resize(5, 80);
    s.ExitFromAlt(47);
  }

  /** Two groups of rows that share no storage, one above the other. */
  lemma StackedRows(a: Rows, b: Rows, both: Rows)
    requires both == a + b && Distinct(a) && Distinct(b) && Apart(a, b)
    ensures Distinct(both)
  {}

  lemma ApartIsSymmetric(a: Rows, b: Rows)
    requires Apart(a, b)
    ensures Apart(b, a)
  {}
}
