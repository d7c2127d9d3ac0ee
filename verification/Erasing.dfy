/** Erasing on the screen: by display, line and character, and the rectangle operations. Each blanks or
    fills cells in place and spares what is guarded against it. */
module Erasing {
  import opened Sequences
  import opened Sgr
  import opened Lines
  import opened Grid

  /** Which guards an erase respects: DECSCA's, the ISO ones, both or neither. */
  datatype EraseMode = EraseAll | SpareISO | SpareDECSCA | SpareBoth

  predicate Spared(c: Cell, m: EraseMode) {
    match m
    case EraseAll => false
    case SpareISO => c.isoGuarded
    case SpareDECSCA => c.guarded
    case SpareBoth => c.guarded || c.isoGuarded
  }

  /** Columns `x1` to `x2` erased; columns off the row are skipped. */
  function ErasedRow(cells: seq<Cell>, x1: int, x2: int, m: EraseMode, bg: Color): (r: seq<Cell>)
    ensures |r| == |cells|
  {
    seq(|cells|, x requires 0 <= x < |cells| => if x1 <= x <= x2 && !Spared(cells[x], m) then Blank(bg) else cells[x])
  }

  /** The rectangle from (`y1`, `x1`) to (`y2`, `x2`) erased; wrap flags stay. */
  function Erased(ls: seq<Line>, y1: int, x1: int, y2: int, x2: int, m: EraseMode, bg: Color): (r: seq<Line>)
    ensures |r| == |ls|
  {
    seq(|ls|, y requires 0 <= y < |ls| =>
      if y1 <= y <= y2 then Line(ErasedRow(ls[y].cells, x1, x2, m, bg), ls[y].wrapped) else ls[y])
  }

  /** A guarded cell survives, as does every cell outside the rectangle; every other one is blank. */
  lemma EraseSpares(ls: seq<Line>, y1: int, x1: int, y2: int, x2: int, m: EraseMode, bg: Color, y: nat, x: nat)
    requires y < |ls| && x < |ls[y].cells|
    ensures |Erased(ls, y1, x1, y2, x2, m, bg)[y].cells| == |ls[y].cells|
    ensures Erased(ls, y1, x1, y2, x2, m, bg)[y].cells[x] ==
      if y1 <= y <= y2 && x1 <= x <= x2 && !Spared(ls[y].cells[x], m) then Blank(bg) else ls[y].cells[x]
    ensures Erased(ls, y1, x1, y2, x2, m, bg)[y].wrapped == ls[y].wrapped
  {}

  /** Which guards each mode respects: a plain erase the ISO one, a selective rectangle DECSCA's, a selective erase both. */
  lemma GuardsByMode(ls: seq<Line>, y1: int, x1: int, y2: int, x2: int, bg: Color, y: nat, x: nat)
    requires y < |ls| && x < |ls[y].cells| && y1 <= y <= y2 && x1 <= x <= x2
    ensures var c, blank := ls[y].cells[x], Blank(bg);
      && Erased(ls, y1, x1, y2, x2, EraseAll, bg)[y].cells[x] == blank
      && Erased(ls, y1, x1, y2, x2, SpareISO, bg)[y].cells[x] == (if c.isoGuarded then c else blank)
      && Erased(ls, y1, x1, y2, x2, SpareDECSCA, bg)[y].cells[x] == (if c.guarded then c else blank)
      && Erased(ls, y1, x1, y2, x2, SpareBoth, bg)[y].cells[x] == if c.guarded || c.isoGuarded then c else blank
  {}

  /** Erasing before and including the cursor, then from the cursor on, erases the whole screen of everything
      the two spare: the halves meet at the cursor and leave nothing between them. */
  lemma HalvesMeetAtTheCursor(ls: seq<Line>, curY: nat, curX: nat, width: nat, m: EraseMode, bg: Color)
    requires Rectangular(ls, width) && curY < |ls| && curX < width
    ensures EndErased(StartErased(ls, curY, curX, width, m, bg), curY, curX, width, m, bg)
         == Erased(ls, 0, 0, |ls| - 1, width - 1, m, bg)
    ensures StartErased(EndErased(ls, curY, curX, width, m, bg), curY, curX, width, m, bg)
         == Erased(ls, 0, 0, |ls| - 1, width - 1, m, bg)
  {
    var both := EndErased(StartErased(ls, curY, curX, width, m, bg), curY, curX, width, m, bg);
    var other := StartErased(EndErased(ls, curY, curX, width, m, bg), curY, curX, width, m, bg);
    var all := Erased(ls, 0, 0, |ls| - 1, width - 1, m, bg);
    forall y | 0 <= y < |ls| ensures both[y] == all[y] && other[y] == all[y] {
      assert both[y].cells == all[y].cells && other[y].cells == all[y].cells;
    }
  }

  /** ED 1 and ED 0: up to the cursor, and from it on. */
  function StartErased(ls: seq<Line>, curY: nat, curX: nat, width: nat, m: EraseMode, bg: Color): seq<Line> {
    Erased(Erased(ls, 0, 0, curY - 1, width - 1, m, bg), curY, 0, curY, curX, m, bg)
  }

  function EndErased(ls: seq<Line>, curY: nat, curX: nat, width: nat, m: EraseMode, bg: Color): seq<Line> {
    Erased(Erased(ls, curY, curX, curY, width - 1, m, bg), curY + 1, 0, |ls| - 1, width - 1, m, bg)
  }

  // ---- the erases ----

  method EraseRow(row: array<Cell>, x1: int, x2: int, m: EraseMode, bg: Color)
    modifies row
    ensures row[..] == ErasedRow(old(row[..]), x1, x2, m, bg)
  {
    ghost var was := row[..];
    var x := x1;
    while x <= x2
      invariant x1 <= x && (x <= x2 + 1 || x == x1)
      invariant forall c :: 0 <= c < row.Length ==>
        row[c] == if x1 <= c < x && !Spared(was[c], m) then Blank(bg) else was[c]
      decreases x2 - x
    {
      if 0 <= x < row.Length && !Spared(row[x], m) {
        row[x] := Blank(bg);
      }
      x := x + 1;
    }
    assert row[..] == ErasedRow(was, x1, x2, m, bg);
  }

  /** Rows off the screen are skipped too. */
  method EraseRegionMode(s: Screen, y1: int, x1: int, y2: int, x2: int, m: EraseMode)
    requires s.Valid()
    modifies s.RowSet()
    ensures s.View() == Erased(old(s.View()), y1, x1, y2, x2, m, s.style.bg)
  {
    ghost var before := s.View();
    s.ViewRows();
    hide Screen.View, LinesOf, ErasedRow, Screen.BuffersOk, Screen.MarginsOk, Screen.RegionOk;
    var y := y1;
    while y <= y2
      invariant y1 <= y && (y <= y2 + 1 || y == y1)
      invariant forall k {:trigger s.cells[k]} :: 0 <= k < s.height ==>
        s.cells[k][..] == if y1 <= k < y then ErasedRow(before[k].cells, x1, x2, m, s.style.bg) else before[k].cells
      decreases y2 - y
    {
      if 0 <= y < s.height {
        forall k | 0 <= k < s.height && k != y ensures s.cells[k] != s.cells[y] {}
        EraseRow(s.cells[y], x1, x2, m, s.style.bg);
      }
      y := y + 1;
    }
    s.ViewBecomes(Erased(before, y1, x1, y2, x2, m, s.style.bg));
  }

  /** ED and DECSED. A plain erase spares ISO-guarded cells, a selective one DECSCA-guarded cells too; erasing
      the whole display plainly spares nothing, and takes the pending drain and the wrap flags with it. */
  method EraseInDisplay(s: Screen, mode: nat, selective: bool)
    requires s.Valid()
    modifies s`drained, s`wrapped, s.RowSet()
    ensures s.Valid()
    ensures var m := if selective then SpareBoth else SpareISO;
            var was, bg := old(s.View()), s.style.bg;
            s.View() == match mode
              case 0 => EndErased(was, s.curY, s.curX, s.width, m, bg)
              case 1 => StartErased(was, s.curY, s.curX, s.width, m, bg)
              case 2 => Unwrapped(Erased(was, 0, 0, s.height - 1, s.width - 1, if selective then m else EraseAll, bg))
              case _ => was
    ensures s.drained == if mode == 2 || mode == 3 then [] else old(s.drained)
  {
    hide Erased, Screen.View, LinesOf;
    var regular := if selective then SpareBoth else SpareISO;
    match mode
    case 0 =>
      EraseRegionMode(s, s.curY, s.curX, s.curY, s.width - 1, regular);
      EraseRegionMode(s, s.curY + 1, 0, s.height - 1, s.width - 1, regular);
    case 1 =>
      EraseRegionMode(s, 0, 0, s.curY - 1, s.width - 1, regular);
      EraseRegionMode(s, s.curY, 0, s.curY, s.curX, regular);
    case 2 =>
      EraseRegionMode(s, 0, 0, s.height - 1, s.width - 1, if selective then SpareBoth else EraseAll);
      s.drained := [];
      ClearWrapState(s);
    case 3 => s.drained := [];
    case _ =>
  }

  function Unwrapped(ls: seq<Line>): (r: seq<Line>)
    ensures |r| == |ls| && forall y :: 0 <= y < |r| ==> r[y] == ls[y].(wrapped := false)
  {
    seq(|ls|, y requires 0 <= y < |ls| => ls[y].(wrapped := false))
  }

  method ClearWrapState(s: Screen)
    requires s.Valid()
    modifies s`wrapped
    ensures s.Valid() && s.View() == Unwrapped(old(s.View()))
  {
    s.wrapped := seq(s.height, i => false);
    assert s.View() == Unwrapped(old(s.View()));
  }

  /** EL and DECSEL. */
  method EraseInLine(s: Screen, mode: nat, selective: bool)
    requires s.Valid()
    modifies s.RowSet()
    ensures var from, to := if mode == 0 then s.curX else 0, if mode == 1 then s.curX else s.width - 1;
            var m := if selective then SpareBoth else SpareISO;
            s.View() == if mode <= 2 then Erased(old(s.View()), s.curY, from, s.curY, to, m, s.style.bg) else old(s.View())
  {
    hide Erased, Screen.View;
    var m := if selective then SpareBoth else SpareISO;
    match mode
    case 0 => EraseRegionMode(s, s.curY, s.curX, s.curY, s.width - 1, m);
    case 1 => EraseRegionMode(s, s.curY, 0, s.curY, s.curX, m);
    case 2 => EraseRegionMode(s, s.curY, 0, s.curY, s.width - 1, m);
    case _ =>
  }

  /** ECH: `n` cells from the cursor, at most to the end of the row. */
  method EraseChars(s: Screen, n: nat)
    requires s.Valid()
    modifies s.RowSet()
    ensures s.View() ==
      Erased(old(s.View()), s.curY, s.curX, s.curY, Min(s.curX + n - 1, s.width - 1), SpareISO, s.style.bg)
  {
    hide Erased, Screen.View;
    var end := s.curX + n - 1;
    if end >= s.width {
      end := s.width - 1;
    }
    EraseRegionMode(s, s.curY, s.curX, s.curY, end, SpareISO);
  }

  // ---- rectangles ----

  /** Inclusive bounds; empty when a second bound is below its first. */
  datatype Rect = Rect(y1: nat, x1: nat, y2: nat, x2: nat)

  function Clamp(v: int, lo: nat, hi: nat): (r: nat)
    ensures lo <= hi ==> lo <= r <= hi
    ensures lo <= v <= hi ==> r == v
  {
    Min(Max(v, lo), hi)
  }

  /** One-based bounds, 0 for the default; relative to the region and clamped to it in origin mode. Whatever the
      parameters, the bounds are on the screen, and in origin mode inside the scroll region and the margins. */
  function RectBounds(s: Screen, pt: nat, pl: nat, pb: nat, pr: nat): (r: Rect)
    requires s.RegionOk() && s.MarginsOk()
    reads s
    ensures r.y1 < s.height && r.y2 < s.height && r.x1 < s.width && r.x2 < s.width
    ensures s.originMode ==> s.scrollTop <= r.y1 <= s.scrollBottom && s.scrollTop <= r.y2 <= s.scrollBottom
    ensures s.originMode ==> s.LeftBound() <= r.x1 <= s.RightBound() && s.LeftBound() <= r.x2 <= s.RightBound()
    ensures !s.originMode && 1 <= pt <= pb <= s.height && 1 <= pl <= pr <= s.width ==>
      r == Rect(pt - 1, pl - 1, pb - 1, pr - 1)
  {
    var rowLo, rowHi := if s.originMode then s.scrollTop else 0, if s.originMode then s.scrollBottom else s.height - 1;
    var colLo, colHi := if s.originMode then s.LeftBound() else 0, if s.originMode then s.RightBound() else s.width - 1;
    var oy, ox := rowLo, colLo;
    Rect(Clamp(Max(pt, 1) - 1 + oy, rowLo, rowHi), Clamp(Max(pl, 1) - 1 + ox, colLo, colHi),
         if pb >= 1 then Clamp(pb - 1 + oy, rowLo, rowHi) else rowHi,
         if pr >= 1 then Clamp(pr - 1 + ox, colLo, colHi) else colHi)
  }

  /** Bounds left out are the screen's, or in origin mode the region's and the margins', from whose corner the others count. */
  lemma RectByOrigin(s: Screen, pt: nat, pl: nat, pb: nat, pr: nat)
    requires s.RegionOk() && s.MarginsOk()
    ensures var r, whole := RectBounds(s, pt, pl, pb, pr), RectBounds(s, 0, 0, 0, 0);
      && whole == (if s.originMode then Rect(s.scrollTop, s.LeftBound(), s.scrollBottom, s.RightBound())
                   else Rect(0, 0, s.height - 1, s.width - 1))
      && (pt == 0 ==> r.y1 == whole.y1) && (pl == 0 ==> r.x1 == whole.x1) && (pb == 0 ==> r.y2 == whole.y2) && (pr == 0 ==> r.x2 == whole.x2)
      && (0 < pt <= whole.y2 - whole.y1 + 1 ==> r.y1 == whole.y1 + pt - 1) && (0 < pb <= whole.y2 - whole.y1 + 1 ==> r.y2 == whole.y1 + pb - 1)
      && (0 < pl <= whole.x2 - whole.x1 + 1 ==> r.x1 == whole.x1 + pl - 1) && (0 < pr <= whole.x2 - whole.x1 + 1 ==> r.x2 == whole.x1 + pr - 1)
      && (pt > whole.y2 - whole.y1 + 1 ==> r.y1 == whole.y2) && (pb > whole.y2 - whole.y1 + 1 ==> r.y2 == whole.y2)
      && (pl > whole.x2 - whole.x1 + 1 ==> r.x1 == whole.x2) && (pr > whole.x2 - whole.x1 + 1 ==> r.x2 == whole.x2)
  {}

  predicate InRect(r: Rect, y: int, x: int) { r.y1 <= y <= r.y2 && r.x1 <= x <= r.x2 }

  /** DECERA erases whatever is there; DECSERA spares DECSCA-guarded cells and no others. */
  method EraseRect(s: Screen, pt: nat, pl: nat, pb: nat, pr: nat, selective: bool)
    requires s.Valid()
    modifies s.RowSet()
    ensures var r := RectBounds(s, pt, pl, pb, pr);
            s.View() == Erased(old(s.View()), r.y1, r.x1, r.y2, r.x2, if selective then SpareDECSCA else EraseAll, s.style.bg)
  {
    var r := RectBounds(s, pt, pl, pb, pr);
    EraseRegionMode(s, r.y1, r.x1, r.y2, r.x2, if selective then SpareDECSCA else EraseAll);
  }

  function Painted(cells: seq<Cell>, x1: nat, x2: nat, c: Cell): (r: seq<Cell>)
    ensures |r| == |cells|
  {
    seq(|cells|, x requires 0 <= x < |cells| => if x1 <= x <= x2 then c else cells[x])
  }

  /** The rectangle filled with one cell. */
  function Filled(ls: seq<Line>, r: Rect, c: Cell): (f: seq<Line>)
    ensures |f| == |ls|
  {
    seq(|ls|, y requires 0 <= y < |ls| => if r.y1 <= y <= r.y2 then Line(Painted(ls[y].cells, r.x1, r.x2, c), ls[y].wrapped) else ls[y])
  }

  method PaintRow(row: array<Cell>, x1: nat, x2: nat, c: Cell)
    requires x2 < row.Length
    modifies row
    ensures row[..] == Painted(old(row[..]), x1, x2, c)
  {
    ghost var was := row[..];
    var x := x1;
    while x <= x2
      invariant x1 <= x && (x <= x2 + 1 || x == x1)
      invariant forall k :: 0 <= k < row.Length ==> row[k] == if x1 <= k < x then c else was[k]
      decreases x2 - x
    {
      row[x] := c;
      x := x + 1;
    }
    assert row[..] == Painted(was, x1, x2, c);
  }

  /** Fills rectangle `r`, which lies on the screen. */
  method Paint(s: Screen, r: Rect, c: Cell)
    requires s.Valid() && r.y2 < s.height && r.x2 < s.width
    modifies s.RowSet()
    ensures s.View() == Filled(old(s.View()), r, c)
  {
    ghost var before := s.View();
    s.ViewRows();
    hide Screen.View, LinesOf, Painted, Screen.BuffersOk, Screen.MarginsOk, Screen.RegionOk;
    var y := r.y1;
    while y <= r.y2
      invariant r.y1 <= y && (y <= r.y2 + 1 || y == r.y1)
      invariant forall k {:trigger s.cells[k]} :: 0 <= k < s.height ==>
        s.cells[k][..] == if r.y1 <= k < y then Painted(before[k].cells, r.x1, r.x2, c) else before[k].cells
      decreases r.y2 - y
    {
      forall k | 0 <= k < s.height && k != y ensures s.cells[k] != s.cells[y] {}
      PaintRow(s.cells[y], r.x1, r.x2, c);
      y := y + 1;
    }
    s.ViewBecomes(Filled(before, r, c));
  }

  /** DECFRA: with the pen and its DECSCA guard, but no link; a control character fills as a blank. */
  method FillRect(s: Screen, ch: nat, pt: nat, pl: nat, pb: nat, pr: nat)
    requires s.Valid()
    modifies s.RowSet()
    ensures s.View() == Filled(old(s.View()), RectBounds(s, pt, pl, pb, pr),
                               Cell(if ch < 0x20 then 0x20 else ch, s.style, "", s.guarded, false))
  {
    hide Screen.View, Filled;
    Paint(s, RectBounds(s, pt, pl, pb, pr), Cell(if ch < 0x20 then 0x20 else ch, s.style, "", s.guarded, false));
  }

  // ---- the rectangle copy ----

  /** The cells of `from`, taken before anything is written, at rows and columns from (`dy`, `dx`) on; what
      would fall off the screen is dropped. */
  function CopiedRow(cells: seq<Cell>, source: seq<Cell>, dx: nat): (r: seq<Cell>)
    ensures |r| == |cells|
  {
    seq(|cells|, x requires 0 <= x < |cells| => if dx <= x < dx + |source| then source[x - dx] else cells[x])
  }

  function Slice(ls: seq<Line>, width: nat, from: Rect, i: nat): (r: seq<Cell>)
    requires Rectangular(ls, width) && from.y1 + i <= from.y2 < |ls| && from.x1 <= from.x2 < width
    ensures |r| == from.x2 - from.x1 + 1
  {
    ls[from.y1 + i].cells[from.x1..from.x2 + 1]
  }

  function Copied(ls: seq<Line>, width: nat, from: Rect, dy: nat, dx: nat): (r: seq<Line>)
    requires Rectangular(ls, width) && from.y1 <= from.y2 < |ls| && from.x1 <= from.x2 < width
    ensures |r| == |ls|
  {
    seq(|ls|, y requires 0 <= y < |ls| =>
      if dy <= y <= dy + (from.y2 - from.y1) then Line(CopiedRow(ls[y].cells, Slice(ls, width, from, y - dy), dx), ls[y].wrapped)
      else ls[y])
  }

  /** Every cell the copy reaches shows what its source showed before the copy, overlap or not. */
  lemma CopyIsSimultaneous(ls: seq<Line>, width: nat, from: Rect, dy: nat, dx: nat, y: nat, x: nat)
    requires Rectangular(ls, width) && from.y1 <= from.y2 < |ls| && from.x1 <= from.x2 < width
    requires InRect(from, y, x) && dy + (y - from.y1) < |ls| && dx + (x - from.x1) < width
    ensures Copied(ls, width, from, dy, dx)[dy + (y - from.y1)].cells[dx + (x - from.x1)] == ls[y].cells[x]
  {}

  method BufferRows(s: Screen, from: Rect) returns (buf: seq<seq<Cell>>)
    requires s.Valid() && from.y1 <= from.y2 < s.height && from.x1 <= from.x2 < s.width
    ensures |buf| == from.y2 - from.y1 + 1
    ensures forall i :: 0 <= i < |buf| ==> buf[i] == Slice(s.View(), s.width, from, i)
  {
    buf := [];
    for i := 0 to from.y2 - from.y1 + 1
      invariant |buf| == i && forall k :: 0 <= k < i ==> buf[k] == Slice(s.View(), s.width, from, k)
    {
      buf := buf + [s.cells[from.y1 + i][from.x1..from.x2 + 1]];
      assert s.cells[from.y1 + i][from.x1..from.x2 + 1] == s.View()[from.y1 + i].cells[from.x1..from.x2 + 1];
    }
  }

  method WriteSlice(row: array<Cell>, source: seq<Cell>, dx: nat)
    modifies row
    ensures row[..] == CopiedRow(old(row[..]), source, dx)
  {
    ghost var was := row[..];
    for j := 0 to |source|
      invariant forall x :: 0 <= x < row.Length ==> row[x] == if dx <= x < dx + j then source[x - dx] else was[x]
    {
      if dx + j < row.Length {
        row[dx + j] := source[j];
      }
    }
    assert row[..] == CopiedRow(was, source, dx);
  }

  /** DECCRA: the source rectangle at the destination's corner, through a buffer. */
  method CopyRect(s: Screen, pt: nat, pl: nat, pb: nat, pr: nat, toTop: nat, toLeft: nat)
    requires s.Valid()
    modifies s.RowSet()
    ensures var from, to := RectBounds(s, pt, pl, pb, pr), RectBounds(s, toTop, toLeft, 0, 0);
            s.View() == if from.y1 <= from.y2 && from.x1 <= from.x2
                        then Copied(old(s.View()), s.width, from, to.y1, to.x1) else old(s.View())
  {
    hide Copied, Slice, Screen.View, LinesOf;
    var from, to := RectBounds(s, pt, pl, pb, pr), RectBounds(s, toTop, toLeft, 0, 0);
    if from.y2 < from.y1 || from.x2 < from.x1 { return; }
    var buf := BufferRows(s, from);
    PasteRows(s, buf, from, to.y1, to.x1);
  }

  /** Pastes what `from` held, as the buffer has it, at (`dy`, `dx`). */
  method PasteRows(s: Screen, buf: seq<seq<Cell>>, from: Rect, dy: nat, dx: nat)
    requires s.Valid() && from.y1 <= from.y2 < s.height && from.x1 <= from.x2 < s.width
    requires |buf| == from.y2 - from.y1 + 1 && forall i :: 0 <= i < |buf| ==> buf[i] == Slice(s.View(), s.width, from, i)
    modifies s.RowSet()
    ensures s.View() == Copied(old(s.View()), s.width, from, dy, dx)
  {
    hide Screen.View, LinesOf, CopiedRow, Slice, Copied, Screen.BuffersOk, Screen.MarginsOk, Screen.RegionOk, Distinct;
    ghost var before := s.View();
    s.ViewRows();
    CopiedByRows(before, s.width, from, dy, dx, buf);
    WriteRows(s, buf, dy, dx, before);
    s.ViewBecomes(Copied(before, s.width, from, dy, dx));
  }

  /** Writes each buffered row over its target, top row first. */
  method WriteRows(s: Screen, buf: seq<seq<Cell>>, dy: nat, dx: nat, ghost before: seq<Line>)
    requires s.GridOk() && |before| == s.height
    requires forall k {:trigger s.cells[k]} :: 0 <= k < s.height ==> s.cells[k][..] == before[k].cells
    modifies s.RowSet()
    ensures forall k {:trigger s.cells[k]} :: 0 <= k < s.height ==>
      s.cells[k][..] == if dy <= k < dy + |buf| then CopiedRow(before[k].cells, buf[k - dy], dx) else before[k].cells
  {
    hide CopiedRow;
    for i := 0 to |buf|
      invariant forall k {:trigger s.cells[k]} :: 0 <= k < s.height ==>
        s.cells[k][..] == if dy <= k < dy + i then CopiedRow(before[k].cells, buf[k - dy], dx) else before[k].cells
    {
      if dy + i < s.height {
        forall k | 0 <= k < s.height && k != dy + i ensures s.cells[k] != s.cells[dy + i] {}
        WriteSlice(s.cells[dy + i], buf[i], dx);
      }
    }
  }

  lemma CopiedByRows(ls: seq<Line>, width: nat, from: Rect, dy: nat, dx: nat, buf: seq<seq<Cell>>)
    requires Rectangular(ls, width) && from.y1 <= from.y2 < |ls| && from.x1 <= from.x2 < width
    requires |buf| == from.y2 - from.y1 + 1 && forall i :: 0 <= i < |buf| ==> buf[i] == Slice(ls, width, from, i)
    ensures var r := Copied(ls, width, from, dy, dx);
      && |r| == |ls|
      && forall k {:trigger r[k]} :: 0 <= k < |ls| ==>
        r[k] == if dy <= k < dy + |buf| then Line(CopiedRow(ls[k].cells, buf[k - dy], dx), ls[k].wrapped) else ls[k]
  {}
}
