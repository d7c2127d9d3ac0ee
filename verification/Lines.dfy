/** The screen's rows as values, and the one-step and many-step shifts of lines inside a margin box. */
module Lines {
  import opened Sequences
  import opened Sgr

  datatype Cell = Cell(ch: nat, style: Style, link: string, guarded: bool, isoGuarded: bool)

  /** A row: its cells, and whether it soft-wraps from the row above. */
  datatype Line = Line(cells: seq<Cell>, wrapped: bool)

  function Blank(bg: Color): Cell { Cell(0x20, PLAIN.(bg := bg), "", false, false) }

  function BlankRow(width: nat, bg: Color): (r: seq<Cell>)
    ensures |r| == width && forall x :: 0 <= x < width ==> r[x] == Blank(bg)
  {
    seq(width, x => Blank(bg))
  }

  /** A blank is a space in the background given and otherwise in the default look, unlinked and unguarded. */
  lemma BlankIs(width: nat, bg: Color, x: nat)
    requires x < width
    ensures BlankRow(width, bg)[x] == Cell(0x20, PLAIN.(bg := bg), "", false, false)
  {}

  ghost predicate Rectangular(ls: seq<Line>, width: nat) {
    forall y :: 0 <= y < |ls| ==> |ls[y].cells| == width
  }

  /** Rows `top` to `bottom` and columns `left` to `right`, both inclusive. */
  datatype Box = Box(top: nat, bottom: nat, left: nat, right: nat)

  predicate BoxFits(b: Box, height: nat, width: nat) { b.top <= b.bottom < height && b.left <= b.right < width }

  predicate FullWidth(b: Box, width: nat) { b.left == 0 && b.right == width - 1 }

  /** The cells of `into` outside the box's columns, and those of `from` inside them. */
  function Overlay(into: seq<Cell>, from: seq<Cell>, b: Box): (r: seq<Cell>)
    requires |into| == |from|
    ensures |r| == |into| && forall x :: 0 <= x < |r| ==> r[x] == if b.left <= x <= b.right then from[x] else into[x]
  {
    seq(|into|, x requires 0 <= x < |into| => if b.left <= x <= b.right then from[x] else into[x])
  }

  /** One row of a shifted box: `source` is the row that moves here, None for a blank. A row that moves
      whole takes its wrap flag along; a row whose box content moves keeps its own. */
  function Moved(here: Line, source: Option<Line>, b: Box, width: nat, bg: Color): Line
    requires |here.cells| == width && (source.Some? ==> |source.value.cells| == width)
  {
    var cells := if source.Some? then source.value.cells else BlankRow(width, bg);
    Line(Overlay(here.cells, cells, b),
         if FullWidth(b, width) then source.Some? && source.value.wrapped else here.wrapped)
  }

  function RowBelow(ls: seq<Line>, b: Box, n: nat, y: nat): (r: Option<Line>)
    requires b.bottom < |ls|
    ensures r.Some? ==> y + n < |ls| && r.value == ls[y + n]
  {
    if y + n <= b.bottom then Some(ls[y + n]) else None
  }

  function RowAbove(ls: seq<Line>, b: Box, n: nat, y: nat): (r: Option<Line>)
    requires b.bottom < |ls| && y <= b.bottom
    ensures r.Some? ==> n <= y < |ls| && r.value == ls[y - n]
  {
    if y - n >= b.top then Some(ls[y - n]) else None
  }

  /** The box's content `n` rows up, blanks entering at the bottom. */
  function ShiftUp(ls: seq<Line>, b: Box, n: nat, width: nat, bg: Color): (r: seq<Line>)
    requires Rectangular(ls, width) && BoxFits(b, |ls|, width)
    ensures |r| == |ls| && Rectangular(r, width)
  {
    seq(|ls|, y requires 0 <= y < |ls| => if b.top <= y <= b.bottom then Moved(ls[y], RowBelow(ls, b, n, y), b, width, bg) else ls[y])
  }

  /** The box's content `n` rows down, blanks entering at the top. */
  function ShiftDown(ls: seq<Line>, b: Box, n: nat, width: nat, bg: Color): (r: seq<Line>)
    requires Rectangular(ls, width) && BoxFits(b, |ls|, width)
    ensures |r| == |ls| && Rectangular(r, width)
  {
    seq(|ls|, y requires 0 <= y < |ls| => if b.top <= y <= b.bottom then Moved(ls[y], RowAbove(ls, b, n, y), b, width, bg) else ls[y])
  }

  /** What was moved here first leaves no trace in what is moved here next. */
  lemma MovedOver(here: Line, first: Option<Line>, next: Option<Line>, b: Box, width: nat, bg: Color)
    requires |here.cells| == width && (first.Some? ==> |first.value.cells| == width) && (next.Some? ==> |next.value.cells| == width)
    ensures Moved(Moved(here, first, b, width, bg), next, b, width, bg) == Moved(here, next, b, width, bg)
  {}

  /** What comes by way of another row comes as from its source. */
  lemma MovedThrough(here: Line, there: Line, source: Option<Line>, b: Box, width: nat, bg: Color)
    requires |here.cells| == |there.cells| == width && (source.Some? ==> |source.value.cells| == width)
    ensures Moved(here, Some(Moved(there, source, b, width, bg)), b, width, bg) == Moved(here, source, b, width, bg)
  {}

  /** Shifting twice is shifting once by the sum. */
  lemma ShiftUpTwice(ls: seq<Line>, b: Box, m: nat, n: nat, width: nat, bg: Color)
    requires Rectangular(ls, width) && BoxFits(b, |ls|, width)
    ensures ShiftUp(ShiftUp(ls, b, m, width, bg), b, n, width, bg) == ShiftUp(ls, b, m + n, width, bg)
  {
    hide Moved;
    var once := ShiftUp(ls, b, m, width, bg);
    forall y: nat | y < |ls| ensures ShiftUp(once, b, n, width, bg)[y] == ShiftUp(ls, b, m + n, width, bg)[y] {
      if b.top <= y <= b.bottom {
        MovedOver(ls[y], RowBelow(ls, b, m, y), RowBelow(once, b, n, y), b, width, bg);
        if y + n <= b.bottom { MovedThrough(ls[y], ls[y + n], RowBelow(ls, b, m, y + n), b, width, bg); }
      }
    }
  }

  lemma ShiftDownTwice(ls: seq<Line>, b: Box, m: nat, n: nat, width: nat, bg: Color)
    requires Rectangular(ls, width) && BoxFits(b, |ls|, width)
    ensures ShiftDown(ShiftDown(ls, b, m, width, bg), b, n, width, bg) == ShiftDown(ls, b, m + n, width, bg)
  {
    hide Moved;
    var once := ShiftDown(ls, b, m, width, bg);
    forall y: nat | y < |ls| ensures ShiftDown(once, b, n, width, bg)[y] == ShiftDown(ls, b, m + n, width, bg)[y] {
      if b.top <= y <= b.bottom {
        MovedOver(ls[y], RowAbove(ls, b, m, y), RowAbove(once, b, n, y), b, width, bg);
        if y - n >= b.top { MovedThrough(ls[y], ls[y - n], RowAbove(ls, b, m, y - n), b, width, bg); }
      }
    }
  }

  lemma ShiftByNothing(ls: seq<Line>, b: Box, width: nat, bg: Color)
    requires Rectangular(ls, width) && BoxFits(b, |ls|, width)
    ensures ShiftUp(ls, b, 0, width, bg) == ls && ShiftDown(ls, b, 0, width, bg) == ls
  {
    hide Moved;
    forall y: nat | y < |ls| ensures Moved(ls[y], Some(ls[y]), b, width, bg) == ls[y] { MovedHere(ls[y], b, width, bg); }
  }

  /** Nothing outside the box moves, and a shift by the box's height or more blanks it. */
  lemma ShiftIsConfined(ls: seq<Line>, b: Box, n: nat, width: nat, bg: Color, y: nat, x: nat)
    requires Rectangular(ls, width) && BoxFits(b, |ls|, width) && y < |ls| && x < width
    requires !(b.top <= y <= b.bottom && b.left <= x <= b.right)
    ensures ShiftUp(ls, b, n, width, bg)[y].cells[x] == ls[y].cells[x]
    ensures ShiftDown(ls, b, n, width, bg)[y].cells[x] == ls[y].cells[x]
  {}

  /** A shift down after a shift up restores what was neither pushed out nor blanked. */
  lemma ShiftDownUndoesUp(ls: seq<Line>, b: Box, n: nat, width: nat, bg: Color, y: nat)
    requires Rectangular(ls, width) && BoxFits(b, |ls|, width) && b.top + n <= y <= b.bottom
    ensures ShiftDown(ShiftUp(ls, b, n, width, bg), b, n, width, bg)[y] == ls[y]
  {}

  lemma MovedHere(here: Line, b: Box, width: nat, bg: Color)
    requires |here.cells| == width
    ensures Moved(here, Some(here), b, width, bg) == here
  {}

  /** A whole row that moves is that row, flag and all; a whole blank row wraps from nothing. */
  lemma MovedWhole(here: Line, source: Option<Line>, b: Box, width: nat, bg: Color)
    requires |here.cells| == width && (source.Some? ==> |source.value.cells| == width) && FullWidth(b, width)
    ensures Moved(here, source, b, width, bg) == if source.Some? then source.value else Line(BlankRow(width, bg), false)
  {}

  /** Row by row, whole rows that moved. */
  lemma RowsMovedUp(before: seq<Line>, after: seq<Line>, b: Box, width: nat, bg: Color)
    requires Rectangular(before, width) && BoxFits(b, |before|, width) && FullWidth(b, width) && |after| == |before|
    requires forall k: nat :: b.top <= k < b.bottom ==> after[k] == before[k + 1]
    requires forall k: nat :: k < |before| && !(b.top <= k <= b.bottom) ==> after[k] == before[k]
    requires after[b.bottom] == Line(BlankRow(width, bg), false)
    ensures after == ShiftUp(before, b, 1, width, bg)
  {
    hide Moved;
    forall k: nat | k < |before| ensures after[k] == ShiftUp(before, b, 1, width, bg)[k] {
      if b.top <= k <= b.bottom { MovedWhole(before[k], RowBelow(before, b, 1, k), b, width, bg); }
    }
  }

  lemma RowsMovedDown(before: seq<Line>, after: seq<Line>, b: Box, width: nat, bg: Color)
    requires Rectangular(before, width) && BoxFits(b, |before|, width) && FullWidth(b, width) && |after| == |before|
    requires forall k: nat :: b.top < k <= b.bottom ==> after[k] == before[k - 1]
    requires forall k: nat :: k < |before| && !(b.top <= k <= b.bottom) ==> after[k] == before[k]
    requires after[b.top] == Line(BlankRow(width, bg), false)
    ensures after == ShiftDown(before, b, 1, width, bg)
  {
    hide Moved;
    forall k: nat | k < |before| ensures after[k] == ShiftDown(before, b, 1, width, bg)[k] {
      if b.top <= k <= b.bottom { MovedWhole(before[k], RowAbove(before, b, 1, k), b, width, bg); }
    }
  }

  /** Row by row, a box whose content moved and whose rows stayed. */
  lemma BoxMovedUp(before: seq<Line>, after: seq<Line>, b: Box, width: nat, bg: Color)
    requires Rectangular(before, width) && BoxFits(b, |before|, width) && !FullWidth(b, width) && |after| == |before|
    requires forall k: nat :: k < |before| ==> after[k].wrapped == before[k].wrapped
    requires forall k: nat :: b.top <= k < b.bottom ==> after[k].cells == Overlay(before[k].cells, before[k + 1].cells, b)
    requires forall k: nat :: k < |before| && !(b.top <= k <= b.bottom) ==> after[k].cells == before[k].cells
    requires after[b.bottom].cells == Overlay(before[b.bottom].cells, BlankRow(width, bg), b)
    ensures after == ShiftUp(before, b, 1, width, bg)
  {}

  lemma BoxMovedDown(before: seq<Line>, after: seq<Line>, b: Box, width: nat, bg: Color)
    requires Rectangular(before, width) && BoxFits(b, |before|, width) && !FullWidth(b, width) && |after| == |before|
    requires forall k: nat :: k < |before| ==> after[k].wrapped == before[k].wrapped
    requires forall k: nat :: b.top < k <= b.bottom ==> after[k].cells == Overlay(before[k].cells, before[k - 1].cells, b)
    requires forall k: nat :: k < |before| && !(b.top <= k <= b.bottom) ==> after[k].cells == before[k].cells
    requires after[b.top].cells == Overlay(before[b.top].cells, BlankRow(width, bg), b)
    ensures after == ShiftDown(before, b, 1, width, bg)
  {
    hide Overlay;
    forall k: nat | k < |before| ensures after[k] == ShiftDown(before, b, 1, width, bg)[k] {}
  }

  /** After a full-screen scroll by `n` the top row is the row that was `n` below it. */
  lemma TopAfterScroll(ls: seq<Line>, b: Box, n: nat, width: nat, bg: Color)
    requires Rectangular(ls, width) && BoxFits(b, |ls|, width) && n <= b.bottom
    ensures FullWidth(b, width) && b.top == 0 ==> ShiftUp(ls, b, n, width, bg)[0] == ls[n]
  {}

  lemma NextShift(ls: seq<Line>, b: Box, n: nat, width: nat, bg: Color)
    requires Rectangular(ls, width) && BoxFits(b, |ls|, width) && n <= b.bottom
    ensures ShiftUp(ShiftUp(ls, b, n, width, bg), b, 1, width, bg) == ShiftUp(ls, b, n + 1, width, bg)
    ensures FullWidth(b, width) && b.top == 0 ==> ShiftUp(ls, b, n, width, bg)[0] == ls[n]
  {
    ShiftUpTwice(ls, b, n, 1, width, bg);
    TopAfterScroll(ls, b, n, width, bg);
  }

  function Repeat(line: Line, n: nat): (r: seq<Line>)
    ensures |r| == n && forall i :: 0 <= i < n ==> r[i] == line
  {
    seq(n, i => line)
  }

  lemma ConcatByRow(ls: seq<Line>, shifted: seq<Line>, n: nat, blank: Line)
    requires |shifted| == |ls| && n <= |ls|
    requires forall y: nat :: y < |ls| ==> shifted[y] == if y + n < |ls| then ls[y + n] else blank
    ensures ls[..n] + shifted == ls + Repeat(blank, n)
  {}

  /** Conservation: after a full-screen scroll what was drained and what is shown are, together, the old
      rows in order followed by blank ones, so every row keeps its place in the whole history. */
  lemma ScrollConserves(ls: seq<Line>, b: Box, n: nat, width: nat, bg: Color)
    requires Rectangular(ls, width) && FullWidth(b, width) && b.top == 0 && b.bottom == |ls| - 1 && BoxFits(b, |ls|, width)
    requires n <= |ls|
    ensures ls[..n] + ShiftUp(ls, b, n, width, bg) == ls + Repeat(Line(BlankRow(width, bg), false), n)
  {
    hide Moved;
    var blank := Line(BlankRow(width, bg), false);
    forall y: nat | y < |ls| ensures ShiftUp(ls, b, n, width, bg)[y] == if y + n < |ls| then ls[y + n] else blank {
      MovedWhole(ls[y], RowBelow(ls, b, n, y), b, width, bg);
    }
    hide ShiftUp, BlankRow;
    ConcatByRow(ls, ShiftUp(ls, b, n, width, bg), n, blank);
  }

  // ---- within one row ----

  /** ICH: from column `at` to `right`, the cells move right by `n` and blanks fill in. */
  function Inserted(cells: seq<Cell>, at: nat, right: nat, n: nat, bg: Color): (r: seq<Cell>)
    ensures |r| == |cells|
  {
    seq(|cells|, x requires 0 <= x < |cells| =>
      if at <= x <= right then if x >= at + n then cells[x - n] else Blank(bg) else cells[x])
  }

  /** DCH: the mirror of ICH. */
  function Deleted(cells: seq<Cell>, at: nat, right: nat, n: nat, bg: Color): (r: seq<Cell>)
    requires right < |cells|
    ensures |r| == |cells|
  {
    seq(|cells|, x requires 0 <= x < |cells| =>
      if at <= x <= right then if x + n <= right then cells[x + n] else Blank(bg) else cells[x])
  }

  /** Deleting what was just inserted restores what was not pushed out at the right. */
  lemma DeleteUndoesInsert(cells: seq<Cell>, at: nat, right: nat, n: nat, bg: Color, x: nat)
    requires at <= right < |cells| && x < |cells| && (x <= right ==> x + n <= right || x < at)
    ensures Deleted(Inserted(cells, at, right, n, bg), at, right, n, bg)[x] == cells[x]
  {}

  // ---- resizing ----

  /** A row cut or padded to width `w`. */
  function Fitted(cells: seq<Cell>, w: nat): (r: seq<Cell>)
    ensures |r| == w && (|cells| == w ==> r == cells)
  {
    seq(w, x requires 0 <= x => if x < |cells| then cells[x] else Blank(DEFAULT))
  }

  /** The screen at height `h`: cut at the bottom, or grown by blank rows, above when `onTop`. */
  function Heightened(ls: seq<Line>, h: nat, width: nat, onTop: bool): (r: seq<Line>)
    ensures |r| == h
  {
    var grow := if onTop && h > |ls| then h - |ls| else 0;
    seq(h, y requires 0 <= y => if grow <= y < grow + |ls| then ls[y - grow] else Line(BlankRow(width, DEFAULT), false))
  }

  function Widened(ls: seq<Line>, w: nat): (r: seq<Line>)
    ensures |r| == |ls|
  {
    seq(|ls|, y requires 0 <= y < |ls| => Line(Fitted(ls[y].cells, w), ls[y].wrapped))
  }

  /** A row keeps what fits, and what is new is blank; padding it and cutting it again gives it back. */
  lemma FittedKeeps(cells: seq<Cell>, w: nat)
    ensures Fitted(cells, w)[..Min(|cells|, w)] == cells[..Min(|cells|, w)]
    ensures forall x :: |cells| <= x < w ==> Fitted(cells, w)[x] == Blank(DEFAULT)
    ensures w >= |cells| ==> Fitted(Fitted(cells, w), |cells|) == cells
  {}

  /** A screen keeps the rows that fit: from its top, and a growing alternate screen all of them at its bottom. */
  lemma HeightenedKeeps(ls: seq<Line>, h: nat, width: nat, onTop: bool)
    ensures var blank := Line(BlankRow(width, DEFAULT), false);
      Heightened(ls, h, width, onTop) == if h <= |ls| then ls[..h]
                                         else if onTop then Repeat(blank, h - |ls|) + ls
                                         else ls + Repeat(blank, h - |ls|)
  {
    var blank := Line(BlankRow(width, DEFAULT), false);
    hide BlankRow;
    if h <= |ls| {
      assert Heightened(ls, h, width, onTop) == ls[..h];
    } else if onTop {
      assert Heightened(ls, h, width, onTop) == Repeat(blank, h - |ls|) + ls;
    } else {
      assert Heightened(ls, h, width, onTop) == ls + Repeat(blank, h - |ls|);
    }
  }

  /** Widening keeps each row's flag and what fits of its cells. */
  lemma WidenedKeeps(ls: seq<Line>, w: nat, y: nat, x: nat)
    requires y < |ls| && x < w
    ensures Widened(ls, w)[y].wrapped == ls[y].wrapped
    ensures Widened(ls, w)[y].cells[x] == if x < |ls[y].cells| then ls[y].cells[x] else Blank(DEFAULT)
  {}
}
