/** Whole runs of screen operations: whatever an application sends, in whatever order, the grid stays well
    formed, and an alternate-screen session gives the main screen back. */
module ScreenRuns {
  import opened Sequences
  import opened Sgr
  import opened Lines
  import opened Grid
  import Erasing
  import Columns
  import Motion

  /** What an application can do to the screen shown. */
  datatype Op =
    | Print(ch: nat, w: nat)
    | LineFeed
    | Down
    | NextLine
    | ReverseIndex
    | Scroll(up: bool, n: nat)
    | ShiftLines(insert: bool, n: nat)
    | ShiftChars(insert: bool, n: nat)
    | ShiftColumns(insert: bool, n: nat)
    | ShiftScreen(left: bool, n: nat)
    | Index(back: bool)
    | EraseDisplay(mode: nat, selective: bool)
    | EraseLine(mode: nat, selective: bool)
    | EraseChars(n: nat)
    | EraseRect(pt: nat, pl: nat, pb: nat, pr: nat, selective: bool)
    | FillRect(ch: nat, pt: nat, pl: nat, pb: nat, pr: nat)
    | CopyRect(pt: nat, pl: nat, pb: nat, pr: nat, toTop: nat, toLeft: nat)
    | Align
    | Vertical(up: bool, n: nat)
    | Horizontal(left: bool, n: nat)
    | Lines(up: bool, n: nat)
    | Relative(n: nat)
    | ToColumn(x: nat)
    | ToRow(y: nat)
    | CancelWrap
    | Backspace
    | CarriageReturn
    | Tab
    | Tabs(forward: bool, n: nat)
    | TabStop(on: bool)
    | ClearTabs
    | MoveTo(y: nat, x: nat)
    | Cursor(save: bool)
    | Region(first: int, last: int)
    | Margins(first: int, last: int)
    | MarginMode(on: bool)
    | OriginMode(on: bool)
    | SetPen(pen: Style, url: string, guarded: bool, isoGuarded: bool)
    | SetModes(autoWrap: bool, insertMode: bool, reverseWrap: bool, newLine: bool, moreFix: bool)
    | ColumnMode(clear: bool)
    | SoftReset

  /** What changes the buffers themselves: an alternate-screen switch, a hard reset, a resize from outside. */
  datatype Event = Application(op: Op) | AltScreen(on: bool, mode: nat) | Reset | Resizing(rows: int, cols: int)

  /** Modes that an operation may change. */
  datatype Flags = Flags(origin: bool, autoWrap: bool, reverseWrap: bool, moreFix: bool, margins: bool)

  function FlagsOf(s: Screen): Flags
    reads s`originMode, s`autoWrap, s`reverseWrap, s`moreFix, s`lrMarginMode
  {
    Flags(s.originMode, s.autoWrap, s.reverseWrap, s.moreFix, s.lrMarginMode)
  }

  /** Which of those modes are on after an operation other than restoring the cursor. */
  function FlagsAfter(op: Op, f: Flags): Flags {
    match op
    case OriginMode(on) => f.(origin := on)
    case MarginMode(on) => f.(margins := on)
    case SetModes(wrap, _, reverse, _, moreFix) => f.(autoWrap := wrap, reverseWrap := reverse, moreFix := moreFix)
    case SoftReset => Flags(false, true, false, false, false)
    case ColumnMode(_) => f.(margins := false)
    case Align => f.(margins := false)
    case _ => f
  }

  // ---- resets ----

  /** DECSTR keeps the cells, the cursor and the tab stops; region, margins, modes, pen and saved cursors go. */
  method SoftReset(s: Screen)
    requires s.Valid()
    modifies s`style, s`link, s`guarded, s`isoGuarded, s`mainCursor, s`altCursor
    modifies s`scrollTop, s`scrollBottom, s`lrMarginMode, s`leftMargin, s`rightMargin
    modifies s`pendingWrap, s`originMode, s`autoWrap, s`insertMode, s`newLineMode, s`reverseWrap, s`moreFix
    ensures s.Valid() && s.style == PLAIN && s.link == "" && !s.guarded && !s.isoGuarded && s.mainCursor == s.altCursor == NO_CURSOR
    ensures s.scrollTop == 0 && s.scrollBottom == s.height - 1 && s.leftMargin == 0 && s.rightMargin == s.width - 1
    ensures FlagsOf(s) == Flags(false, true, false, false, false) && !s.insertMode && !s.newLineMode && !s.pendingWrap
  {
    hide Screen.GridOk, Screen.BuffersOk, Screen.RegionOk, Screen.MarginsOk, Screen.CursorOk;
    ResetPen(s);
    ResetBox(s);
    ResetModes(s);
  }

  method ResetPen(s: Screen)
    modifies s`style, s`link, s`guarded, s`isoGuarded, s`mainCursor, s`altCursor
    ensures s.style == PLAIN && s.link == "" && !s.guarded && !s.isoGuarded && s.mainCursor == s.altCursor == NO_CURSOR
  {
    s.style, s.link, s.guarded, s.isoGuarded := PLAIN, "", false, false;
    s.mainCursor, s.altCursor := NO_CURSOR, NO_CURSOR;
  }

  method ResetBox(s: Screen)
    requires s.Valid()
    modifies s`scrollTop, s`scrollBottom, s`lrMarginMode, s`leftMargin, s`rightMargin
    ensures s.Valid() && !s.lrMarginMode
    ensures s.scrollTop == 0 && s.scrollBottom == s.height - 1 && s.leftMargin == 0 && s.rightMargin == s.width - 1
  {
    s.scrollTop, s.scrollBottom := 0, s.height - 1;
    s.lrMarginMode, s.leftMargin, s.rightMargin := false, 0, s.width - 1;
  }

  method ResetModes(s: Screen)
    modifies s`pendingWrap, s`originMode, s`autoWrap, s`insertMode, s`newLineMode, s`reverseWrap, s`moreFix
    ensures !s.pendingWrap && s.autoWrap && !s.insertMode && !s.originMode && !s.reverseWrap && !s.newLineMode && !s.moreFix
  {
    s.pendingWrap, s.originMode, s.autoWrap, s.insertMode := false, false, true, false;
    s.newLineMode, s.reverseWrap, s.moreFix := false, false, false;
  }

  method FullRegionAndMargins(s: Screen)
    requires s.Valid()
    modifies s`scrollTop, s`scrollBottom, s`lrMarginMode, s`leftMargin, s`rightMargin, s`curX, s`curY, s`pendingWrap
    ensures s.Valid() && s.curX == 0 && s.curY == 0 && !s.pendingWrap && !s.lrMarginMode
    ensures s.scrollTop == 0 && s.scrollBottom == s.height - 1 && s.leftMargin == 0 && s.rightMargin == s.width - 1
  {
    ResetBox(s);
    s.curX, s.curY, s.pendingWrap := 0, 0, false;
  }

  /** DECCOLM keeps the width, which the viewport owns; margins, cursor and, unless suppressed, the cells and the
      pending drain are reset. */
  method ColumnMode(s: Screen, clear: bool)
    requires s.Valid()
    modifies s`scrollTop, s`scrollBottom, s`lrMarginMode, s`leftMargin, s`rightMargin, s`curX, s`curY, s`pendingWrap
    modifies s`drained, s.RowSet()
    ensures s.Valid() && s.curX == 0 && s.curY == 0 && !s.pendingWrap && !s.lrMarginMode
    ensures s.scrollTop == 0 && s.scrollBottom == s.height - 1 && s.leftMargin == 0 && s.rightMargin == s.width - 1
    ensures s.View() == if clear then Erasing.Erased(old(s.View()), 0, 0, s.height - 1, s.width - 1, Erasing.EraseAll, s.style.bg)
                        else old(s.View())
    ensures s.drained == if clear then [] else old(s.drained)
  {
    hide Screen.View, Screen.GridOk, Screen.BuffersOk, Erasing.Erased, LinesOf;
    FullRegionAndMargins(s);
    if clear {
      Erasing.EraseRegionMode(s, 0, 0, s.height - 1, s.width - 1, Erasing.EraseAll);
      s.drained := [];
    }
  }

  /** DECALN: the whole screen in E, with default attributes. */
  method Align(s: Screen)
    requires s.Valid()
    modifies s`scrollTop, s`scrollBottom, s`lrMarginMode, s`leftMargin, s`rightMargin, s`curX, s`curY, s`pendingWrap
    modifies s.RowSet()
    ensures s.Valid() && s.curX == 0 && s.curY == 0 && !s.pendingWrap && !s.lrMarginMode
    ensures s.scrollTop == 0 && s.scrollBottom == s.height - 1 && s.leftMargin == 0 && s.rightMargin == s.width - 1
    ensures s.View() == Erasing.Filled(old(s.View()), Erasing.Rect(0, 0, s.height - 1, s.width - 1), Cell('E' as nat, PLAIN, "", false, false))
  {
    Erasing.Paint(s, Erasing.Rect(0, 0, s.height - 1, s.width - 1), Cell('E' as nat, PLAIN, "", false, false));
    FullRegionAndMargins(s);
  }

  /** RIS: besides the soft reset the cells, the wrap flags, the pending drain, the tab stops and both kept
      buffers go, and the screen shown is the main one. */
  method HardReset(s: Screen)
    requires s.Valid()
    modifies s, s.RowSet()
    ensures s.Valid() && s.TabsOk() && !s.inAlt && s.saved == None && s.altCells == None && s.cells == old(s.cells)
    ensures s.height == old(s.height) && s.width == old(s.width) && s.curX == 0 && s.curY == 0 && s.drained == [] && !s.pendingWrap
    ensures s.View() == Repeat(Line(BlankRow(s.width, DEFAULT), false), s.height)
  {
    hide Screen.Valid, Screen.View;
    SoftReset(s);
    BlankScreen(s);
    ForgetBuffers(s);
  }

  method BlankScreen(s: Screen)
    requires s.Valid() && s.style == PLAIN
    modifies s`drained, s`wrapped, s.RowSet()
    ensures s.Valid() && s.drained == [] && s.View() == Repeat(Line(BlankRow(s.width, DEFAULT), false), s.height)
  {
    hide Screen.View, Screen.RegionOk, Screen.MarginsOk, Screen.CursorOk, Screen.BuffersOk, Erasing.Erased, LinesOf, Repeat, BlankRow;
    ghost var before := s.View();
    Erasing.EraseRegionMode(s, 0, 0, s.height - 1, s.width - 1, Erasing.EraseAll);
    AllErased(before, s.width, DEFAULT);
    s.drained := [];
    Erasing.ClearWrapState(s);
  }

  lemma AllErased(ls: seq<Line>, width: nat, bg: Color)
    requires Rectangular(ls, width)
    ensures Erasing.Unwrapped(Erasing.Erased(ls, 0, 0, |ls| - 1, width - 1, Erasing.EraseAll, bg))
         == Repeat(Line(BlankRow(width, bg), false), |ls|)
  {
    forall y | 0 <= y < |ls|
      ensures Erasing.ErasedRow(ls[y].cells, 0, width - 1, Erasing.EraseAll, bg) == BlankRow(width, bg) {}
  }

  method ForgetBuffers(s: Screen)
    requires s.Valid()
    modifies s`curX, s`curY, s`inAlt, s`saved, s`altCells, s`tabStops
    ensures s.Valid() && s.TabsOk() && !s.inAlt && s.saved == None && s.altCells == None && s.curX == 0 && s.curY == 0
  {
    s.curY, s.curX, s.inAlt, s.saved, s.altCells, s.tabStops := 0, 0, false, None, None, None;
  }

  // ---- one operation ----

  /** A character printed from where `before` was, once the wraps it waits for are done. */
  ghost predicate Prints(s: Screen, before: Page, deferred: bool, ch: nat, w: nat)
    requires s.Valid() && s.PageOk(before) && w > 0
    reads s, s.RowSet()
  {
    var p := s.Settled(before, deferred, w, s.style);
    s.View() == s.Printed(p, ch, w, s.style).rows && s.drained == p.drained && s.curY == p.y && s.CursorPast(p.x, w)
  }

  lemma PlainPrint(s: Screen, before: Page, ch: nat)
    requires s.Valid() && s.PageOk(before) && !s.insertMode && Prints(s, before, false, ch, 1)
    ensures s.View() == before.rows[before.y := before.rows[before.y].(cells := before.rows[before.y].cells[before.x := s.Glyph(ch)])]
    ensures s.drained == before.drained && s.curY == before.y && s.CursorPast(before.x, 1)
  {
    s.SettledAlready(before, 1);
    hide Screen.Settled, Screen.View, Inserted;
  }

  /** A wide character where it fits: it and its second half. */
  lemma WidePrint(s: Screen, before: Page, ch: nat)
    requires s.Valid() && s.PageOk(before) && !s.insertMode && before.x < s.EdgeFrom(before.x) && Prints(s, before, false, ch, 2)
    ensures var x, y, row := before.x, before.y, before.rows[before.y];
      && x + 1 < s.width && s.View() == before.rows[y := row.(cells := row.cells[x := s.Glyph(ch)][x + 1 := s.Glyph(0)])]
      && s.drained == before.drained && s.curY == y && s.CursorPast(x, 2)
  {
    hide Screen.View, Inserted, Screen.Wrapping, Screen.BuffersOk;
  }

  /** A wide character in the last column leaves a blank there and goes to the next row, which continues this one. */
  lemma WideWrap(s: Screen, before: Page, ch: nat)
    requires s.Valid() && s.PageOk(before) && !s.insertMode && s.autoWrap && s.LeftBound() == 0 && s.RightBound() == s.width - 1
    requires s.width > 1 && before.x == s.width - 1 && before.y < s.scrollBottom && Prints(s, before, false, ch, 2)
    ensures var x, y, row, next := before.x, before.y, before.rows[before.y], before.rows[before.y + 1];
      && s.View() == before.rows[y := row.(cells := row.cells[x := Cell(0x20, s.style, "", false, false)])]
                                [y + 1 := Line(next.cells[0 := s.Glyph(ch)][1 := s.Glyph(0)], true)]
      && s.drained == before.drained && s.curY == y + 1 && s.CursorPast(0, 2)
  {
    hide Screen.View, Inserted, ShiftUp, Screen.BuffersOk;
  }

  /** A deferred wrap comes before the character: it goes to the next row, which continues this one. */
  lemma WrapThenPrint(s: Screen, before: Page, ch: nat)
    requires s.Valid() && s.PageOk(before) && !s.insertMode && s.LeftBound() == 0 && s.RightBound() == s.width - 1
    requires before.y < s.scrollBottom && Prints(s, before, true, ch, 1)
    ensures var y, next := before.y, before.rows[before.y + 1];
      && s.View() == before.rows[y + 1 := Line(next.cells[0 := s.Glyph(ch)], true)]
      && s.drained == before.drained && s.curY == y + 1 && s.CursorPast(0, 1)
  {
    hide Screen.View, Inserted, ShiftUp, Screen.BuffersOk;
  }

  /** At the bottom of a full-screen region the screen scrolls first, and its top row is drained. */
  lemma ScrollThenPrint(s: Screen, before: Page, ch: nat)
    requires s.Valid() && s.PageOk(before) && !s.insertMode && s.LeftBound() == 0 && s.RightBound() == s.width - 1
    requires s.scrollTop == 0 && before.y == s.scrollBottom == s.height - 1 && Prints(s, before, true, ch, 1)
    ensures s.View() == before.rows[1..] + [Line(BlankRow(s.width, s.style.bg)[0 := s.Glyph(ch)], true)]
    ensures s.drained == before.drained + [before.rows[0]] && s.curY == before.y && s.CursorPast(0, 1)
  {
    hide Screen.View, Inserted, Screen.BuffersOk, Moved;
    var b, blank := s.MarginBox(0), Line(BlankRow(s.width, s.style.bg), false);
    var shifted := ShiftUp(before.rows, b, 1, s.width, s.style.bg);
    forall y | 0 <= y < s.height ensures shifted[y] == if y + 1 < s.height then before.rows[y + 1] else blank {
      MovedWhole(before.rows[y], RowBelow(before.rows, b, 1, y), b, s.width, s.style.bg);
    }
    assert shifted == before.rows[1..] + [blank];
  }

  lemma PrintsAfter(s: Screen, before: Page, deferred: bool, ch: nat, w: nat)
    requires s.Valid() && s.PageOk(before) && w > 0 && Prints(s, before, deferred, ch, w)
    ensures (s.Now(), s.pendingWrap) == s.After(before, deferred, ch, w, s.style)
  {
    hide Screen.View, Screen.Settled, Screen.BuffersOk, Screen.GridOk;
  }

  method PrintNext(s: Screen, ch: nat, w: nat, ghost from: Page, ghost deferred: bool, ghost i: nat)
    requires s.Valid() && w > 0 && s.width > 0 && s.PageOk(from)
    requires (s.Now(), s.pendingWrap) == s.AfterAll(from, deferred, ch, Min(w, 2), s.style, i)
    modifies s`cells, s`wrapped, s`drained, s`curX, s`curY, s`pendingWrap, s.RowSet()
    ensures s.Valid() && fresh(s.RowSet() - old(s.RowSet())) && s.PageOk(from)
    ensures (s.Now(), s.pendingWrap) == s.AfterAll(from, deferred, ch, Min(w, 2), s.style, i + 1)
  {
    hide Screen.View, Screen.GridOk, Screen.BuffersOk, LinesOf, Prints, Screen.After, Screen.Now;
    ghost var page, wraps := s.Now(), s.pendingWrap;
    PerformCharacter(s, ch, w);
    PrintsAfter(s, page, wraps, ch, Min(w, 2));
  }

  lemma NonePrinted(s: Screen, ch: nat, w: nat)
    requires s.Valid() && w > 0
    ensures s.width > 0 && s.PageOk(s.Now())
    ensures (s.Now(), s.pendingWrap) == s.AfterAll(s.Now(), s.pendingWrap, ch, Min(w, 2), s.style, 0)
  {}

  /** Characters one after the other, where each goes on from the one before. */
  method PrintAgain(s: Screen, ch: nat, w: nat, n: nat)
    requires s.Valid() && w > 0
    modifies s`cells, s`wrapped, s`drained, s`curX, s`curY, s`pendingWrap, s.RowSet()
    ensures s.Valid() && fresh(s.RowSet() - old(s.RowSet())) && s.width > 0 && s.PageOk(old(s.Now()))
    ensures (s.Now(), s.pendingWrap) == s.AfterAll(old(s.Now()), old(s.pendingWrap), ch, Min(w, 2), s.style, n)
  {
    hide Screen.Valid, Screen.AfterAll, Screen.Now, Screen.PageOk;
    ghost var from, deferred := s.Now(), s.pendingWrap;
    NonePrinted(s, ch, w);
    for i := 0 to n
      invariant s.Valid() && fresh(s.RowSet() - old(s.RowSet())) && s.width > 0 && s.PageOk(from)
      invariant (s.Now(), s.pendingWrap) == s.AfterAll(from, deferred, ch, Min(w, 2), s.style, i)
    {
      PrintNext(s, ch, w, from, deferred, i);
    }
  }

  /** The cells with `n` of `c` from column `x` on. */
  function Filled(cells: seq<Cell>, x: nat, n: nat, c: Cell): (r: seq<Cell>)
    requires x + n <= |cells|
    ensures |r| == |cells|
  {
    cells[..x] + seq(n, _ => c) + cells[x + n..]
  }

  lemma FilledGrows(cells: seq<Cell>, x: nat, n: nat, c: Cell)
    requires x + n < |cells|
    ensures Filled(cells, x, n, c)[x + n := c] == Filled(cells, x, n + 1, c)
    ensures Filled(cells, x, 0, c) == cells
  {}

  /** Narrow characters where they fit up to the right margin: they fill as many cells from the cursor on and nothing
      else, and the cursor is past them, or at the margin with the next wrap deferred. */
  lemma {:induction false} RepeatFits(s: Screen, p: Page, ch: nat, pen: Style, n: nat)
    requires s.Valid() && s.PageOk(p) && s.width > 0 && !s.insertMode && s.LeftBound() <= p.x <= s.RightBound() && p.x + n <= s.RightBound() + 1
    ensures var r, row := s.AfterAll(p, false, ch, 1, pen, n), p.rows[p.y];
      && p.x + n <= |row.cells| && r.0.rows == p.rows[p.y := row.(cells := Filled(row.cells, p.x, n, s.GlyphIn(pen, ch)))]
      && r.0.drained == p.drained && r.0.y == p.y
      && if p.x + n <= s.RightBound() then r.0.x == p.x + n && !r.1 else r.0.x == s.RightBound() && r.1 == s.autoWrap
  {
    var cells := p.rows[p.y].cells;
    if n == 0 {
      assert Filled(cells, p.x, 0, s.GlyphIn(pen, ch)) == cells;
    } else {
      RepeatFits(s, p, ch, pen, n - 1);
      var q := s.AfterAll(p, false, ch, 1, pen, n - 1);
      s.SettledAlready(q.0, 1);
      FilledGrows(cells, p.x, n - 1, s.GlyphIn(pen, ch));
    }
  }

  // ---- what an operation does ----

  /** Where a cursor operation takes the cursor, and whether a wrap stays deferred. */
  function Destination(s: Screen, op: Op, from: Motion.Place): (to: Motion.Place)
    requires s.width > 0 && s.height > 0
    reads s
  {
    match op
    case Vertical(up, n) => from.(y := RowBy(s, from.y, up, n))
    case Horizontal(left, n) =>
      if !left then from.(x := Min(from.x + n, if from.x <= s.RightBound() then s.RightBound() else s.width - 1))
      else if s.reverseWrap && s.autoWrap then Motion.BackTimes(from, Motion.Bounds(s), true, Max(n, 1))
      else from.(x := Max(from.x - Max(n, 1), if from.x >= s.LeftBound() then s.LeftBound() else 0))
    case Lines(up, n) => from.(y := RowBy(s, from.y, up, n), x := s.LeftBound())
    case Relative(n) => from.(x := Min(from.x + n, s.width - 1))
    case ToColumn(x) => from.(x := ColumnAt(s, x))
    case ToRow(y) => from.(y := RowAt(s, y))
    case MoveTo(y, x) => from.(y := RowAt(s, y), x := ColumnAt(s, x))
    case Backspace => Motion.Back(from, Motion.Bounds(s), s.reverseWrap && s.autoWrap)
    case CarriageReturn => Motion.Place(from.y, if from.x >= s.LeftBound() then s.LeftBound() else 0, false)
    case CancelWrap => from.(pending := false)
    case _ => from
  }

  function RowBy(s: Screen, y: nat, up: bool, n: nat): nat
    requires s.height > 0
    reads s
  {
    if up then Max(y - n, if y >= s.scrollTop then s.scrollTop else 0)
    else Min(y + n, if y <= s.scrollBottom then s.scrollBottom else s.height - 1)
  }

  function RowAt(s: Screen, y: nat): nat
    requires s.height > 0
    reads s
  {
    if s.originMode then Min(y + s.scrollTop, s.scrollBottom) else Min(y, s.height - 1)
  }

  function ColumnAt(s: Screen, x: nat): nat
    requires s.width > 0
    reads s
  {
    if s.originMode then Min(x + s.LeftBound(), s.RightBound()) else Min(x, s.width - 1)
  }

  predicate OnPlace(op: Op) {
    op.Vertical? || op.Horizontal? || op.Lines? || op.Relative? || op.ToColumn? || op.ToRow? || op.MoveTo? || op.Backspace?
    || op.CarriageReturn? || op.CancelWrap?
  }

  predicate Erases(op: Op) { op.EraseDisplay? || op.EraseLine? || op.EraseChars? }

  /** The page with what the operation erases. */
  ghost function ErasedPage(s: Screen, op: Op, p: Page): Page
    requires s.PageOk(p)
    reads s
  {
    var bg := s.style.bg;
    match op
    case EraseDisplay(mode, selective) =>
      var m := if selective then Erasing.SpareBoth else Erasing.SpareISO;
      var rows := if mode == 0 then Erasing.EndErased(p.rows, p.y, p.x, s.width, m, bg)
                  else if mode == 1 then Erasing.StartErased(p.rows, p.y, p.x, s.width, m, bg)
                  else if mode == 2 then
                    Erasing.Unwrapped(Erasing.Erased(p.rows, 0, 0, s.height - 1, s.width - 1, if selective then m else Erasing.EraseAll, bg))
                  else p.rows;
      p.(rows := rows, drained := if mode == 2 || mode == 3 then [] else p.drained)
    case EraseLine(mode, selective) =>
      var m := if selective then Erasing.SpareBoth else Erasing.SpareISO;
      if mode > 2 then p
      else p.(rows := Erasing.Erased(p.rows, p.y, if mode == 0 then p.x else 0, p.y, if mode == 1 then p.x else s.width - 1, m, bg))
    case EraseChars(n) => p.(rows := Erasing.Erased(p.rows, p.y, p.x, p.y, Min(p.x + n - 1, s.width - 1), Erasing.SpareISO, bg))
    case _ => p
  }

  predicate Shifts(op: Op) { op.Scroll? || op.ShiftLines? || op.ShiftChars? }

  /** The page with its lines or its row's cells shifted; a line shift also returns the cursor. */
  ghost function ShiftedPage(s: Screen, op: Op, p: Page): Page
    requires s.PageOk(p)
    reads s
  {
    var bg := s.style.bg;
    match op
    case Scroll(up, n) =>
      var k := Min(n, s.scrollBottom - s.scrollTop + 1);
      if up then p.(rows := ShiftUp(p.rows, s.MarginBox(s.scrollTop), k, s.width, bg),
                    drained := p.drained + if s.FullScreenScroll() then p.rows[..k] else [])
      else p.(rows := ShiftDown(p.rows, s.MarginBox(s.scrollTop), k, s.width, bg))
    case ShiftLines(insert, n) =>
      if !CanShiftLines(s, p) then p
      else
        var k := Min(n, s.scrollBottom - p.y + 1);
        p.(rows := if insert then ShiftDown(p.rows, s.MarginBox(p.y), k, s.width, bg) else ShiftUp(p.rows, s.MarginBox(p.y), k, s.width, bg),
           x := s.LeftBound())
    case ShiftChars(insert, n) =>
      if !s.WithinHMargins(p.x) then p
      else
        var line := p.rows[p.y];
        p.(rows := p.rows[p.y := Line(if insert then Inserted(line.cells, p.x, s.RightBound(), n, bg)
                                      else Deleted(line.cells, p.x, s.RightBound(), n, bg), line.wrapped)])
    case _ => p
  }

  ghost predicate CanShiftLines(s: Screen, p: Page)
    requires s.width > 0
    reads s
  {
    s.scrollTop <= p.y <= s.scrollBottom && s.WithinHMargins(p.x)
  }

  predicate Feeds(op: Op) { op.LineFeed? || op.Down? || op.NextLine? || op.ReverseIndex? }

  /** The page one line down: at the region's bottom it scrolls, from inside the margins only. */
  ghost function LineDownPage(s: Screen, p: Page): Page
    requires s.PageOk(p)
    reads s
  {
    if p.y != s.scrollBottom then p.(y := Min(p.y + 1, s.height - 1))
    else if !s.WithinHMargins(p.x) then p
    else p.(rows := ShiftUp(p.rows, s.MarginBox(s.scrollTop), 1, s.width, s.style.bg),
            drained := p.drained + if s.FullScreenScroll() then [p.rows[0]] else [])
  }

  /** The page after a line feed or an index. */
  ghost function FedPage(s: Screen, op: Op, p: Page): Page
    requires s.PageOk(p)
    reads s
  {
    match op
    case LineFeed => LineDownPage(s, if s.newLineMode then p.(x := 0) else p)
    case Down => LineDownPage(s, p)
    case NextLine => LineDownPage(s, p).(x := if p.x >= s.LeftBound() then s.LeftBound() else 0)
    case ReverseIndex =>
      if p.y != s.scrollTop then p.(y := Max(p.y - 1, 0))
      else if !s.WithinHMargins(p.x) then p
      else p.(rows := ShiftDown(p.rows, s.MarginBox(s.scrollTop), 1, s.width, s.style.bg))
    case _ => p
  }

  predicate OnColumns(op: Op) { op.ShiftColumns? || op.ShiftScreen? || op.Index? }

  predicate OnRectangle(op: Op) { op.EraseRect? || op.FillRect? || op.CopyRect? }

  /** The page with columns of the region shifted; at the margin an index shifts, elsewhere it moves. */
  ghost function ColumnPage(s: Screen, op: Op, p: Page): Page
    requires s.PageOk(p)
    reads s
  {
    var top, bottom, left, right, bg := s.scrollTop, s.scrollBottom, s.LeftBound(), s.RightBound(), s.style.bg;
    match op
    case ShiftColumns(insert, n) =>
      if !CanShiftLines(s, p) || n == 0 then p
      else p.(rows := Columns.ColumnsShifted(p.rows, s.width, top, bottom, insert, p.x, right, Min(n, right - p.x + 1), bg))
    case ShiftScreen(toLeft, n) => p.(rows := Columns.ColumnsShifted(p.rows, s.width, top, bottom, !toLeft, 0, s.width - 1, n, bg))
    case Index(back) =>
      if p.x == (if back then left else right) then
        p.(rows := Columns.ColumnsShifted(p.rows, s.width, top, bottom, back, left, right, 1, bg))
      else p.(x := if back then Max(p.x - 1, 0) else Min(p.x + 1, s.width - 1))
    case _ => p
  }

  /** The page with a rectangle of it erased, filled or copied. */
  ghost function RectanglePage(s: Screen, op: Op, p: Page): Page
    requires s.PageOk(p)
    reads s
  {
    match op
    case EraseRect(pt, pl, pb, pr, selective) =>
      var r := Erasing.RectBounds(s, pt, pl, pb, pr);
      p.(rows := Erasing.Erased(p.rows, r.y1, r.x1, r.y2, r.x2, if selective then Erasing.SpareDECSCA else Erasing.EraseAll, s.style.bg))
    case FillRect(ch, pt, pl, pb, pr) =>
      p.(rows := Erasing.Filled(p.rows, Erasing.RectBounds(s, pt, pl, pb, pr), Cell(if ch < 0x20 then 0x20 else ch, s.style, "", s.guarded, false)))
    case CopyRect(pt, pl, pb, pr, toTop, toLeft) =>
      var from, to := Erasing.RectBounds(s, pt, pl, pb, pr), Erasing.RectBounds(s, toTop, toLeft, 0, 0);
      if from.y1 <= from.y2 && from.x1 <= from.x2 then p.(rows := Erasing.Copied(p.rows, s.width, from, to.y1, to.x1)) else p
    case _ => p
  }

  predicate Types(op: Op) { op.Print? || op.Tab? || op.Tabs? }

  /** What the tab control does: a deferred wrap makes it do nothing, or with the more fix is carried out first. */
  ghost predicate Tabbed(s: Screen, p: Page, deferred: bool)
    requires s.Valid() && s.PageOk(p)
    reads s, s.RowSet()
  {
    if deferred && !s.moreFix then s.Now() == p && s.pendingWrap
    else if deferred then
      && Motion.OneTabFrom(s, if s.WithinHMargins(p.x) then s.LeftBound() else 0) && s.curY == Min(p.y + 1, s.scrollBottom)
      && !s.pendingWrap && s.ScrolledOnce(p.rows, p.drained, p.y + 1 > s.scrollBottom)
    else Motion.OneTabFrom(s, p.x) && s.curY == p.y && !s.pendingWrap && s.View() == p.rows && s.drained == p.drained
  }

  /** What a character or a tab does; a character of no width does nothing. */
  ghost predicate Typed(s: Screen, op: Op, p: Page, deferred: bool)
    requires s.Valid() && s.PageOk(p)
    reads s, s.RowSet()
  {
    match op
    case Print(ch, w) => if w > 0 then Prints(s, p, deferred, ch, Min(w, 2)) else s.Now() == p && s.pendingWrap == deferred
    case Tab => Tabbed(s, p, deferred)
    case Tabs(forward, n) =>
      && s.View() == p.rows && s.drained == p.drained && s.curY == p.y && s.pendingWrap == deferred
      && if forward then Motion.ForwardFrom(s, p.x, n) else Motion.BackwardFrom(s, p.x, n)
    case _ => true
  }

  /** What an operation that leaves the setting does to the page `p` and to a deferred wrap. */
  ghost predicate Performed(s: Screen, op: Op, p: Page, deferred: bool)
    requires s.Valid() && s.PageOk(p)
    reads s, s.RowSet()
  {
    if OnPlace(op) then
      s.View() == p.rows && s.drained == p.drained && Motion.PlaceOf(s) == Destination(s, op, Motion.Place(p.y, p.x, deferred))
    else if Erases(op) then s.Now() == ErasedPage(s, op, p) && s.pendingWrap == deferred
    else if Shifts(op) then
      s.Now() == ShiftedPage(s, op, p) && s.pendingWrap == (deferred && !(op.ShiftLines? && CanShiftLines(s, p)))
    else if Feeds(op) then s.Now() == FedPage(s, op, p) && s.pendingWrap == (deferred && op.Down?)
    else if OnColumns(op) then s.Now() == ColumnPage(s, op, p) && s.pendingWrap == (deferred && !op.Index?)
    else if OnRectangle(op) then s.Now() == RectanglePage(s, op, p) && s.pendingWrap == deferred
    else Typed(s, op, p, deferred)
  }

  // ---- what changes the setting ----

  /** What decides where a character goes and how it looks, which modes are on, where the tab stops are, and the saved
      cursor of the screen shown. */
  datatype ScreenSetting = ScreenSetting(glyph: Cell, newLine: bool, insert: bool, flags: Flags, left: nat, right: nat,
                                         top: nat, bottom: nat, stops: Option<seq<bool>>, slot: SavedCursor)

  ghost function SettingOf(s: Screen): ScreenSetting
    reads s`style, s`link, s`guarded, s`isoGuarded, s`newLineMode, s`insertMode, s`leftMargin, s`rightMargin, s`scrollTop, s`scrollBottom
    reads s`originMode, s`autoWrap, s`reverseWrap, s`moreFix, s`lrMarginMode, s`tabStops, s`inAlt, s`mainCursor, s`altCursor
  {
    ScreenSetting(s.Glyph(0), s.newLineMode, s.insertMode, FlagsOf(s), s.leftMargin, s.rightMargin, s.scrollTop, s.scrollBottom,
                  s.tabStops, if s.inAlt then s.altCursor else s.mainCursor)
  }

  const NO_CURSOR := SavedCursor(false, 0, 0, PLAIN, false, false, false)

  predicate OnStops(op: Op) { op.TabStop? || op.ClearTabs? }

  predicate OnBox(op: Op) { op.Region? || op.Margins? }

  predicate OnFlags(op: Op) { op.SetModes? || op.MarginMode? || op.OriginMode? }

  predicate OnPen(op: Op) { op.SetPen? || op.Cursor? }

  predicate OnScreen(op: Op) { op.Align? || op.ColumnMode? || op.SoftReset? }

  predicate Rearranges(op: Op) { OnStops(op) || OnBox(op) || OnFlags(op) || OnPen(op) || OnScreen(op) }

  /** Nothing but the setting changed, from `b` to `to`. */
  ghost predicate OnlySet(s: Screen, p: Page, deferred: bool, to: ScreenSetting)
    requires s.Valid()
    reads s, s.RowSet()
  {
    s.Now() == p && s.pendingWrap == deferred && SettingOf(s) == to
  }

  ghost predicate StopsSet(s: Screen, op: Op, p: Page, deferred: bool, b: ScreenSetting)
    requires s.Valid()
    reads s, s.RowSet()
  {
    && OnlySet(s, p, deferred, b.(stops := s.tabStops))
    && match op
       case TabStop(on) => forall c :: 0 < c < s.width ==> (Motion.IsStop(s, c) <==> if c == p.x then on else Motion.StopIn(b.stops, c))
       case _ => forall c: nat :: !Motion.IsStop(s, c)
  }

  /** A region or margins of two lines or more are set, and the cursor is homed; others are ignored. */
  ghost predicate BoxSet(s: Screen, op: Op, p: Page, deferred: bool, b: ScreenSetting)
    requires s.Valid()
    reads s, s.RowSet()
  {
    match op
    case Region(first, last) =>
      var top, bottom := Max(first - 1, 0), Min(last - 1, s.height - 1);
      if top >= bottom then OnlySet(s, p, deferred, b)
      else OnlySet(s, Homed(s, p, top, s.LeftBound()), false, b.(top := top, bottom := bottom))
    case Margins(first, last) =>
      var left, right := Max(first - 1, 0), Min(last - 1, s.width - 1);
      if left >= right then OnlySet(s, p, deferred, b)
      else OnlySet(s, Homed(s, p, s.scrollTop, left), false, b.(left := left, right := right))
    case _ => true
  }

  /** The cursor at the corner of the region and the margins in origin mode, else at that of the screen. */
  ghost function Homed(s: Screen, p: Page, top: nat, left: nat): Page
    reads s`originMode
  {
    p.(y := if s.originMode then top else 0, x := if s.originMode then left else 0)
  }

  ghost predicate FlagsSet(s: Screen, op: Op, p: Page, deferred: bool, b: ScreenSetting)
    requires s.Valid()
    reads s, s.RowSet()
  {
    match op
    case SetModes(wrap, insert, reverse, newLine, moreFix) =>
      OnlySet(s, p, deferred, b.(insert := insert, newLine := newLine,
                                 flags := b.flags.(autoWrap := wrap, reverseWrap := reverse, moreFix := moreFix)))
    case MarginMode(on) =>
      OnlySet(s, p, deferred, b.(flags := b.flags.(margins := on), left := if on then b.left else 0, right := if on then b.right else s.width - 1))
    case OriginMode(on) =>
      OnlySet(s, Homed(s, p, s.scrollTop, s.LeftBound()), deferred, b.(flags := b.flags.(origin := on)))
    case _ => true
  }

  /** The pen as given, or the cursor with what is saved beside it kept or brought back; nothing saved is the home position. */
  ghost predicate PenSet(s: Screen, op: Op, p: Page, deferred: bool, b: ScreenSetting)
    requires s.Valid()
    reads s, s.RowSet()
  {
    match op
    case SetPen(pen, url, guarded, iso) => OnlySet(s, p, deferred, b.(glyph := Cell(0, pen, url, guarded, iso)))
    case Cursor(save) =>
      if save then
        OnlySet(s, p, deferred, b.(slot := SavedCursor(true, p.x, p.y, b.glyph.style, b.flags.origin, deferred, b.glyph.guarded)))
      else if !b.slot.valid then OnlySet(s, p.(y := 0, x := 0), false, b)
      else OnlySet(s, p.(y := Min(b.slot.y, s.height - 1), x := Min(b.slot.x, s.width - 1)), b.slot.pendingWrap,
                   b.(glyph := b.glyph.(style := b.slot.style, guarded := b.slot.guarded), flags := b.flags.(origin := b.slot.origin)))
    case _ => true
  }

  /** The region and the margins at the screen's edges. */
  ghost function Unboxed(s: Screen, b: ScreenSetting): ScreenSetting
    requires s.width > 0 && s.height > 0
    reads s`width, s`height
  {
    b.(flags := b.flags.(margins := false), left := 0, right := s.width - 1, top := 0, bottom := s.height - 1)
  }

  ghost predicate ScreenSet(s: Screen, op: Op, p: Page, deferred: bool, b: ScreenSetting)
    requires s.Valid()
    reads s, s.RowSet()
  {
    match op
    case Align =>
      OnlySet(s, Page(Erasing.Filled(p.rows, Erasing.Rect(0, 0, s.height - 1, s.width - 1), Cell('E' as nat, PLAIN, "", false, false)),
                      p.drained, 0, 0), false, Unboxed(s, b))
    case ColumnMode(clear) =>
      OnlySet(s, Page(if clear then Erasing.Erased(p.rows, 0, 0, s.height - 1, s.width - 1, Erasing.EraseAll, s.style.bg) else p.rows,
                      if clear then [] else p.drained, 0, 0), false, Unboxed(s, b))
    case SoftReset =>
      OnlySet(s, p, false, ScreenSetting(Cell(0, PLAIN, "", false, false), false, false, Flags(false, true, false, false, false),
                                         0, s.width - 1, 0, s.height - 1, b.stops, NO_CURSOR))
    case _ => true
  }

  /** What an operation that changes the setting does to it, to the page `p` and to a deferred wrap. */
  ghost predicate Rearranged(s: Screen, op: Op, p: Page, deferred: bool, b: ScreenSetting)
    requires s.Valid()
    reads s, s.RowSet()
  {
    if OnStops(op) then StopsSet(s, op, p, deferred, b)
    else if OnBox(op) then BoxSet(s, op, p, deferred, b)
    else if OnFlags(op) then FlagsSet(s, op, p, deferred, b)
    else if OnPen(op) then PenSet(s, op, p, deferred, b)
    else ScreenSet(s, op, p, deferred, b)
  }

  /** What any operation does to the page `p`, a deferred wrap and the setting `b`. */
  ghost predicate Effect(s: Screen, op: Op, p: Page, deferred: bool, b: ScreenSetting)
    requires s.Valid()
    reads s, s.RowSet()
  {
    s.PageOk(p) && if Rearranges(op) then Rearranged(s, op, p, deferred, b) else Performed(s, op, p, deferred) && SettingOf(s) == b
  }

  predicate Vertically(op: Op) { op.Vertical? || op.Lines? || op.Relative? }

  predicate BackOrAlong(op: Op) { op.Horizontal? || op.Backspace? }

  /** What ED leaves on the rows. */
  ghost function DisplayErased(s: Screen, mode: nat, p: Page): seq<Line>
    requires s.PageOk(p)
    reads s
  {
    if mode == 0 then Erasing.EndErased(p.rows, p.y, p.x, s.width, Erasing.SpareISO, s.style.bg)
    else if mode == 1 then Erasing.StartErased(p.rows, p.y, p.x, s.width, Erasing.SpareISO, s.style.bg)
    else if mode == 2 then Repeat(Line(BlankRow(s.width, s.style.bg), false), s.height)
    else p.rows
  }

  method MoveVertically(s: Screen, op: Op)
    requires s.Valid() && Vertically(op)
    modifies s`curX, s`curY
    ensures s.Valid() && Motion.PlaceOf(s) == Destination(s, op, old(Motion.PlaceOf(s)))
  {
    hide Screen.BuffersOk, Screen.GridOk, Screen.SavedRowSet;
    match op
    case Vertical(up, n) => if up { Motion.CursorUp(s, n); } else { Motion.CursorDown(s, n); }
    case Lines(up, n) => Motion.CursorLine(s, up, n);
    case Relative(n) => Motion.CursorRelative(s, n);
  }

  method MoveAlong(s: Screen, op: Op)
    requires s.Valid() && BackOrAlong(op)
    modifies s`curX, s`curY, s`pendingWrap
    ensures s.Valid() && Motion.PlaceOf(s) == Destination(s, op, old(Motion.PlaceOf(s)))
  {
    hide Screen.BuffersOk, Motion.Back;
    match op
    case Horizontal(left, n) => if left { Motion.CursorLeft(s, n); } else { Motion.CursorRight(s, n); }
    case Backspace => Motion.Backspace(s);
  }

  method MoveStraight(s: Screen, op: Op)
    requires s.Valid() && OnPlace(op) && !Vertically(op) && !BackOrAlong(op)
    modifies s`curX, s`curY, s`pendingWrap
    ensures s.Valid() && Motion.PlaceOf(s) == Destination(s, op, old(Motion.PlaceOf(s)))
  {
    hide Screen.BuffersOk;
    match op
    case CarriageReturn => Motion.CarriageReturn(s);
    case MoveTo(y, x) => s.CursorPosition(y, x);
    case ToColumn(x) => Motion.CursorColumn(s, x);
    case ToRow(y) => Motion.CursorRow(s, y);
    case CancelWrap => s.pendingWrap := false;
  }

  method PerformOnPlace(s: Screen, op: Op)
    requires s.Valid() && OnPlace(op)
    modifies s`curX, s`curY, s`pendingWrap
    ensures s.Valid() && Performed(s, op, old(s.Now()), old(s.pendingWrap))
  {
    hide Screen.BuffersOk, OnPlace, Vertically, BackOrAlong, Destination;
    if Vertically(op) { MoveVertically(s, op); }
    else if BackOrAlong(op) { MoveAlong(s, op); }
    else { MoveStraight(s, op); }
  }

  method PerformErase(s: Screen, op: Op)
    requires s.Valid() && Erases(op)
    modifies s`drained, s`wrapped, s.RowSet()
    ensures s.Valid() && Performed(s, op, old(s.Now()), old(s.pendingWrap))
  {
    hide Destination, ShiftedPage, FedPage, ColumnPage, RectanglePage, Typed, Screen.View, Screen.GridOk, Screen.BuffersOk, LinesOf, Erasing.Erased, Erasing.EndErased, Erasing.StartErased, Erasing.Unwrapped;
    match op
    case EraseDisplay(mode, selective) => Erasing.EraseInDisplay(s, mode, selective);
    case EraseLine(mode, selective) => Erasing.EraseInLine(s, mode, selective);
    case EraseChars(n) => Erasing.EraseChars(s, n);
  }

  method PerformShiftLines(s: Screen, insert: bool, n: nat)
    requires s.Valid()
    modifies s`cells, s`wrapped, s`curX, s`pendingWrap, s.RowSet()
    ensures s.Valid() && fresh(s.RowSet() - old(s.RowSet())) && Performed(s, ShiftLines(insert, n), old(s.Now()), old(s.pendingWrap))
  {
    hide Screen.View, Screen.GridOk, Screen.BuffersOk, ShiftUp, ShiftDown, LinesOf;
    if insert { s.InsertLines(n); } else { s.DeleteLines(n); }
  }

  method PerformShiftChars(s: Screen, insert: bool, n: nat)
    requires s.Valid()
    modifies s.RowSet()
    ensures s.Valid() && Performed(s, ShiftChars(insert, n), old(s.Now()), old(s.pendingWrap))
  {
    hide Screen.View, Screen.GridOk, Screen.BuffersOk, Inserted, Deleted, LinesOf;
    s.ViewRows();
    if insert { s.InsertChars(n); } else { s.DeleteChars(n); }
  }

  method PerformScroll(s: Screen, up: bool, n: nat)
    requires s.Valid()
    modifies s`cells, s`wrapped, s`drained, s.RowSet()
    ensures s.Valid() && fresh(s.RowSet() - old(s.RowSet())) && Performed(s, Scroll(up, n), old(s.Now()), old(s.pendingWrap))
  {
    hide Screen.View, Screen.GridOk, Screen.BuffersOk, ShiftUp, ShiftDown, LinesOf;
    if up { s.ScrollUp(n); } else { s.ScrollDown(n); }
  }

  method PerformShift(s: Screen, op: Op)
    requires s.Valid() && Shifts(op)
    modifies s`cells, s`wrapped, s`drained, s`curX, s`pendingWrap, s.RowSet()
    ensures s.Valid() && fresh(s.RowSet() - old(s.RowSet())) && Performed(s, op, old(s.Now()), old(s.pendingWrap))
  {
    hide Performed, Screen.Valid, Screen.Now;
    match op
    case Scroll(up, n) => PerformScroll(s, up, n);
    case ShiftLines(insert, n) => PerformShiftLines(s, insert, n);
    case ShiftChars(insert, n) => PerformShiftChars(s, insert, n);
  }

  method PerformLineFeed(s: Screen)
    requires s.Valid()
    modifies s`cells, s`wrapped, s`drained, s`curX, s`curY, s`pendingWrap, s.RowSet()
    ensures s.Valid() && fresh(s.RowSet() - old(s.RowSet())) && Performed(s, LineFeed, old(s.Now()), old(s.pendingWrap))
  {
    hide Screen.View, Screen.GridOk, Screen.BuffersOk, ShiftUp, LinesOf;
    Motion.LineFeed(s);
  }

  method PerformFeed(s: Screen, op: Op)
    requires s.Valid() && Feeds(op) && !op.LineFeed?
    modifies s`cells, s`wrapped, s`drained, s`curX, s`curY, s`pendingWrap, s.RowSet()
    ensures s.Valid() && fresh(s.RowSet() - old(s.RowSet())) && Performed(s, op, old(s.Now()), old(s.pendingWrap))
  {
    hide Destination, ErasedPage, ShiftedPage, ColumnPage, RectanglePage, Typed, Screen.View, Screen.GridOk, Screen.BuffersOk, ShiftUp, ShiftDown, LinesOf;
    match op
    case Down => s.LineDown();
    case NextLine => Motion.NextLine(s);
    case ReverseIndex => Motion.ReverseIndex(s);
  }

  // ---- columns, rectangles and text ----

  method PerformOnColumns(s: Screen, op: Op)
    requires s.Valid() && OnColumns(op)
    modifies s`curX, s`pendingWrap, s.RowSet()
    ensures s.Valid() && Performed(s, op, old(s.Now()), old(s.pendingWrap))
  {
    hide Screen.View, Screen.GridOk, Screen.BuffersOk, LinesOf, Columns.ColumnsShifted, Destination, ErasedPage, ShiftedPage, FedPage,
      RectanglePage, Typed;
    match op
    case ShiftColumns(insert, n) => Columns.InsertOrDeleteColumns(s, insert, n);
    case ShiftScreen(left, n) => Columns.ShiftScreen(s, left, n);
    case Index(back) => if back { Columns.BackIndex(s); } else { Columns.ForwardIndex(s); }
  }

  method PerformOnRectangle(s: Screen, op: Op)
    requires s.Valid() && OnRectangle(op)
    modifies s.RowSet()
    ensures s.Valid() && Performed(s, op, old(s.Now()), old(s.pendingWrap))
  {
    hide Screen.View, Screen.GridOk, Screen.BuffersOk, LinesOf, Erasing.Erased, Erasing.Filled, Erasing.Copied, Erasing.RectBounds,
      Destination, ErasedPage, ShiftedPage, FedPage, ColumnPage, Typed;
    match op
    case EraseRect(pt, pl, pb, pr, selective) => Erasing.EraseRect(s, pt, pl, pb, pr, selective);
    case FillRect(ch, pt, pl, pb, pr) => Erasing.FillRect(s, ch, pt, pl, pb, pr);
    case CopyRect(pt, pl, pb, pr, toTop, toLeft) => Erasing.CopyRect(s, pt, pl, pb, pr, toTop, toLeft);
  }

  method PerformTabs(s: Screen, forward: bool, n: nat)
    requires s.Valid() && s.TabsOk()
    modifies s`curX
    ensures s.Valid() && Performed(s, Tabs(forward, n), old(s.Now()), old(s.pendingWrap))
  {
    hide Screen.GridOk, Screen.BuffersOk, Screen.View, Motion.ForwardFrom, Motion.BackwardFrom, Screen.TabsOk;
    if forward { Motion.TabForward(s, n); } else { Motion.TabBackward(s, n); }
    s.ViewStays();
  }

  method PerformTab(s: Screen)
    requires s.Valid() && s.TabsOk()
    modifies s`cells, s`wrapped, s`drained, s`curX, s`curY, s`pendingWrap, s.RowSet()
    ensures s.Valid() && fresh(s.RowSet() - old(s.RowSet())) && Performed(s, Tab, old(s.Now()), old(s.pendingWrap))
  {
    hide Screen.View, Screen.GridOk, Screen.BuffersOk, LinesOf, Screen.ScrolledOnce, Motion.OneTabFrom;
    Motion.Tab(s);
  }

  method PerformCharacter(s: Screen, ch: nat, w: nat)
    requires s.Valid()
    modifies s`cells, s`wrapped, s`drained, s`curX, s`curY, s`pendingWrap, s.RowSet()
    ensures s.Valid() && fresh(s.RowSet() - old(s.RowSet())) && Performed(s, Print(ch, w), old(s.Now()), old(s.pendingWrap))
  {
    hide Destination, ErasedPage, ShiftedPage, FedPage, ColumnPage, RectanglePage, Screen.View, Screen.Settled, Screen.Printed, Screen.CursorPast, Screen.GridOk, Screen.BuffersOk, LinesOf;
    var _, _ := s.Put(ch, Min(w, 2));
  }

  method PerformTyping(s: Screen, op: Op)
    requires s.Valid() && s.TabsOk() && Types(op)
    modifies s`cells, s`wrapped, s`drained, s`curX, s`curY, s`pendingWrap, s.RowSet()
    ensures s.Valid() && fresh(s.RowSet() - old(s.RowSet())) && Performed(s, op, old(s.Now()), old(s.pendingWrap))
  {
    hide Performed, Screen.Valid, Screen.Now, Screen.TabsOk;
    match op
    case Print(ch, w) => PerformCharacter(s, ch, w);
    case Tab => PerformTab(s);
    case Tabs(forward, n) => PerformTabs(s, forward, n);
  }

  lemma Kinds(op: Op)
    ensures Rearranges(op) || OnPlace(op) || Erases(op) || Shifts(op) || Feeds(op) || OnColumns(op) || OnRectangle(op) || Types(op)
  {}

  method PerformPlain(s: Screen, op: Op)
    requires s.Valid() && s.TabsOk() && !Rearranges(op)
    modifies s`cells, s`wrapped, s`drained, s`curX, s`curY, s`pendingWrap, s.RowSet()
    ensures s.Valid() && fresh(s.RowSet() - old(s.RowSet()))
    ensures Performed(s, op, old(s.Now()), old(s.pendingWrap)) && SettingOf(s) == old(SettingOf(s))
  {
    hide Performed, Screen.Valid, Screen.Now, OnPlace, Erases, Shifts, Feeds, OnColumns, OnRectangle, Types, SettingOf, Rearranges, Screen.TabsOk;
    Kinds(op);
    if OnPlace(op) { PerformOnPlace(s, op); }
    else if Erases(op) { PerformErase(s, op); }
    else if Shifts(op) { PerformShift(s, op); }
    else if op == LineFeed { PerformLineFeed(s); }
    else if Feeds(op) { PerformFeed(s, op); }
    else if OnColumns(op) { PerformOnColumns(s, op); }
    else if OnRectangle(op) { PerformOnRectangle(s, op); }
    else { PerformTyping(s, op); }
  }

  // ---- stops, boxes, modes and the pen ----

  method SetStop(s: Screen, on: bool)
    requires s.Valid() && s.TabsOk()
    modifies s`tabStops
    ensures s.Valid() && s.TabsOk() && StopsSet(s, TabStop(on), old(s.Now()), old(s.pendingWrap), old(SettingOf(s)))
  {
    hide Screen.Valid, Screen.View, FlagsOf, Screen.Glyph;
    Motion.SetTabStop(s, s.curX, on);
    s.ViewStays();
  }

  method ClearStops(s: Screen)
    requires s.Valid() && s.TabsOk()
    modifies s`tabStops
    ensures s.Valid() && s.TabsOk() && StopsSet(s, ClearTabs, old(s.Now()), old(s.pendingWrap), old(SettingOf(s)))
  {
    hide Screen.Valid, Screen.View, FlagsOf, Screen.Glyph;
    Motion.ClearAllTabStops(s);
    s.ViewStays();
  }

  method RearrangeStops(s: Screen, op: Op)
    requires s.Valid() && s.TabsOk() && OnStops(op)
    modifies s`tabStops
    ensures s.Valid() && s.TabsOk() && Rearranged(s, op, old(s.Now()), old(s.pendingWrap), old(SettingOf(s)))
  {
    hide Screen.Valid, Screen.Now, SettingOf, StopsSet;
    match op
    case TabStop(on) => SetStop(s, on);
    case ClearTabs => ClearStops(s);
  }

  method SetRegion(s: Screen, first: int, last: int)
    requires s.Valid()
    modifies s`scrollTop, s`scrollBottom, s`curX, s`curY, s`pendingWrap
    ensures s.Valid()
    ensures var taken := Max(first - 1, 0) < Min(last - 1, s.height - 1);
      && s.Now() == (if taken then Homed(s, old(s.Now()), Max(first - 1, 0), s.LeftBound()) else old(s.Now()))
      && s.pendingWrap == (old(s.pendingWrap) && !taken)
      && SettingOf(s) == if taken then old(SettingOf(s)).(top := Max(first - 1, 0), bottom := Min(last - 1, s.height - 1)) else old(SettingOf(s))
  {
    hide Screen.Valid, Screen.View, FlagsOf, Screen.Glyph;
    s.SetScrollRegion(first, last);
    s.ViewStays();
  }

  method SetMargins(s: Screen, first: int, last: int)
    requires s.Valid()
    modifies s`leftMargin, s`rightMargin, s`curX, s`curY, s`pendingWrap
    ensures s.Valid()
    ensures var taken := Max(first - 1, 0) < Min(last - 1, s.width - 1);
      && s.Now() == (if taken then Homed(s, old(s.Now()), s.scrollTop, Max(first - 1, 0)) else old(s.Now()))
      && s.pendingWrap == (old(s.pendingWrap) && !taken)
      && SettingOf(s) == if taken then old(SettingOf(s)).(left := Max(first - 1, 0), right := Min(last - 1, s.width - 1)) else old(SettingOf(s))
  {
    hide Screen.Valid, Screen.View, FlagsOf, Screen.Glyph;
    s.SetLeftRightMargins(first, last);
    s.ViewStays();
  }

  method RearrangeBox(s: Screen, op: Op)
    requires s.Valid() && OnBox(op)
    modifies s`scrollTop, s`scrollBottom, s`leftMargin, s`rightMargin, s`curX, s`curY, s`pendingWrap
    ensures s.Valid() && Rearranged(s, op, old(s.Now()), old(s.pendingWrap), old(SettingOf(s)))
  {
    hide Screen.Valid, Screen.Now, SettingOf;
    match op
    case Region(first, last) => SetRegion(s, first, last);
    case Margins(first, last) => SetMargins(s, first, last);
  }

  /** DECOM homes the cursor, in the region when it is set. */
  method SetOrigin(s: Screen, on: bool)
    requires s.Valid()
    modifies s`originMode, s`curX, s`curY
    ensures s.Valid() && s.originMode == on
    ensures if on then s.curY == s.scrollTop && s.curX == s.LeftBound() else s.curY == 0 && s.curX == 0
  {
    hide Screen.GridOk, Screen.BuffersOk;
    s.originMode := on;
    s.curY, s.curX := if on then s.scrollTop else 0, if on then s.LeftBound() else 0;
  }

  method SetOriginMode(s: Screen, on: bool)
    requires s.Valid()
    modifies s`originMode, s`curX, s`curY
    ensures s.Valid() && FlagsSet(s, OriginMode(on), old(s.Now()), old(s.pendingWrap), old(SettingOf(s)))
  {
    hide Screen.Valid, Screen.View, Screen.Glyph;
    SetOrigin(s, on);
    s.ViewStays();
  }

  method SetMarginMode(s: Screen, on: bool)
    requires s.Valid()
    modifies s`lrMarginMode, s`leftMargin, s`rightMargin
    ensures s.Valid() && FlagsSet(s, MarginMode(on), old(s.Now()), old(s.pendingWrap), old(SettingOf(s)))
  {
    s.HasSize();
    hide Screen.Valid, Screen.View, Screen.Glyph;
    s.SetMarginMode(on);
    s.ViewStays();
  }

  method WriteFlags(s: Screen, wrap: bool, insert: bool, reverse: bool, newLine: bool, moreFix: bool)
    requires s.Valid()
    modifies s`autoWrap, s`insertMode, s`reverseWrap, s`newLineMode, s`moreFix
    ensures s.Valid() && s.autoWrap == wrap && s.insertMode == insert && s.reverseWrap == reverse && s.newLineMode == newLine
    ensures s.moreFix == moreFix
  {
    hide *;
    s.autoWrap, s.insertMode, s.reverseWrap, s.newLineMode, s.moreFix := wrap, insert, reverse, newLine, moreFix;
  }

  method SetFlags(s: Screen, wrap: bool, insert: bool, reverse: bool, newLine: bool, moreFix: bool)
    requires s.Valid()
    modifies s`autoWrap, s`insertMode, s`reverseWrap, s`newLineMode, s`moreFix
    ensures s.Valid() && s.autoWrap == wrap && s.insertMode == insert && s.reverseWrap == reverse && s.newLineMode == newLine
    ensures s.moreFix == moreFix
    ensures FlagsSet(s, SetModes(wrap, insert, reverse, newLine, moreFix), old(s.Now()), old(s.pendingWrap), old(SettingOf(s)))
  {
    hide Screen.Valid, Screen.View, Screen.Glyph;
    WriteFlags(s, wrap, insert, reverse, newLine, moreFix);
    s.ViewStays();
  }

  method RearrangeFlags(s: Screen, op: Op)
    requires s.Valid() && OnFlags(op)
    modifies s`lrMarginMode, s`leftMargin, s`rightMargin, s`originMode, s`curX, s`curY
    modifies s`autoWrap, s`insertMode, s`newLineMode, s`reverseWrap, s`moreFix
    ensures s.Valid() && Rearranged(s, op, old(s.Now()), old(s.pendingWrap), old(SettingOf(s)))
  {
    hide Screen.Valid, Screen.Now, SettingOf, FlagsSet;
    match op
    case SetModes(wrap, insert, reverse, newLine, moreFix) => SetFlags(s, wrap, insert, reverse, newLine, moreFix);
    case MarginMode(on) => SetMarginMode(s, on);
    case OriginMode(on) => SetOriginMode(s, on);
  }

  method WritePen(s: Screen, pen: Style, url: string, guarded: bool, isoGuarded: bool)
    requires s.Valid()
    modifies s`style, s`link, s`guarded, s`isoGuarded
    ensures s.Valid() && s.style == pen && s.link == url && s.guarded == guarded && s.isoGuarded == isoGuarded
  {
    hide *;
    s.style, s.link, s.guarded, s.isoGuarded := pen, url, guarded, isoGuarded;
  }

  method SetPen(s: Screen, pen: Style, url: string, guarded: bool, isoGuarded: bool)
    requires s.Valid()
    modifies s`style, s`link, s`guarded, s`isoGuarded
    ensures s.Valid() && PenSet(s, Op.SetPen(pen, url, guarded, isoGuarded), old(s.Now()), old(s.pendingWrap), old(SettingOf(s)))
  {
    hide Screen.Valid, Screen.View, FlagsOf;
    WritePen(s, pen, url, guarded, isoGuarded);
    s.ViewStays();
  }

  method SaveCursor(s: Screen)
    requires s.Valid()
    modifies s`mainCursor, s`altCursor
    ensures s.Valid() && PenSet(s, Cursor(true), old(s.Now()), old(s.pendingWrap), old(SettingOf(s)))
  {
    hide Screen.Valid, Screen.View;
    s.SaveCursor();
    s.ViewStays();
  }

  method RestoreCursor(s: Screen)
    requires s.Valid()
    modifies s`style, s`guarded, s`curX, s`curY, s`pendingWrap, s`originMode
    ensures s.Valid()
    ensures var p, b := old(s.Now()), old(SettingOf(s));
      && s.Now() == (if b.slot.valid then p.(y := Min(b.slot.y, s.height - 1), x := Min(b.slot.x, s.width - 1)) else p.(y := 0, x := 0))
      && s.pendingWrap == (b.slot.valid && b.slot.pendingWrap)
      && SettingOf(s) == if !b.slot.valid then b
         else b.(glyph := b.glyph.(style := b.slot.style, guarded := b.slot.guarded), flags := b.flags.(origin := b.slot.origin))
  {
    s.HasSize();
    hide Screen.Valid, Screen.View;
    s.RestoreCursor();
    s.ViewStays();
  }

  method RearrangePen(s: Screen, op: Op)
    requires s.Valid() && OnPen(op)
    modifies s`style, s`link, s`guarded, s`isoGuarded, s`mainCursor, s`altCursor, s`curX, s`curY, s`pendingWrap, s`originMode
    ensures s.Valid() && Rearranged(s, op, old(s.Now()), old(s.pendingWrap), old(SettingOf(s)))
  {
    hide Screen.Valid, Screen.Now, SettingOf;
    match op
    case SetPen(pen, url, guarded, iso) => SetPen(s, pen, url, guarded, iso);
    case Cursor(save) => if save { SaveCursor(s); } else { RestoreCursor(s); }
  }

  method AlignScreen(s: Screen)
    requires s.Valid()
    modifies s`scrollTop, s`scrollBottom, s`lrMarginMode, s`leftMargin, s`rightMargin, s`curX, s`curY, s`pendingWrap
    modifies s.RowSet()
    ensures s.Valid() && s.height > 0 && s.width > 0 && SettingOf(s) == Unboxed(s, old(SettingOf(s))) && !s.pendingWrap
    ensures s.Now() == Page(Erasing.Filled(old(s.View()), Erasing.Rect(0, 0, s.height - 1, s.width - 1), Cell('E' as nat, PLAIN, "", false, false)),
                            old(s.drained), 0, 0)
  {
    s.HasSize();
    hide Screen.Valid, Screen.View, Erasing.Filled, Screen.Glyph;
    Align(s);
  }

  method SetColumnMode(s: Screen, clear: bool)
    requires s.Valid()
    modifies s`scrollTop, s`scrollBottom, s`lrMarginMode, s`leftMargin, s`rightMargin, s`curX, s`curY, s`pendingWrap
    modifies s`drained, s.RowSet()
    ensures s.Valid() && s.height > 0 && s.width > 0 && SettingOf(s) == Unboxed(s, old(SettingOf(s))) && !s.pendingWrap
    ensures s.Now() == Page(if clear then Erasing.Erased(old(s.View()), 0, 0, s.height - 1, s.width - 1, Erasing.EraseAll, s.style.bg)
                            else old(s.View()), if clear then [] else old(s.drained), 0, 0)
  {
    s.HasSize();
    hide Screen.Valid, Screen.View, Erasing.Erased, Screen.Glyph;
    ColumnMode(s, clear);
  }

  method ResetSoftly(s: Screen)
    requires s.Valid()
    modifies s`style, s`link, s`guarded, s`isoGuarded, s`mainCursor, s`altCursor
    modifies s`scrollTop, s`scrollBottom, s`lrMarginMode, s`leftMargin, s`rightMargin
    modifies s`pendingWrap, s`originMode, s`autoWrap, s`insertMode, s`newLineMode, s`reverseWrap, s`moreFix
    ensures s.Valid() && ScreenSet(s, Op.SoftReset, old(s.Now()), old(s.pendingWrap), old(SettingOf(s)))
  {
    s.HasSize();
    hide Screen.Valid, Screen.View, FlagsOf;
    SoftReset(s);
    s.ViewStays();
  }

  method RearrangeScreen(s: Screen, op: Op)
    requires s.Valid() && OnScreen(op)
    modifies s`wrapped, s`drained, s`curX, s`curY, s`pendingWrap, s`scrollTop, s`scrollBottom, s`lrMarginMode, s`leftMargin
    modifies s`rightMargin, s.RowSet(), s`style, s`link, s`guarded, s`isoGuarded, s`mainCursor, s`altCursor
    modifies s`originMode, s`autoWrap, s`insertMode, s`newLineMode, s`reverseWrap, s`moreFix
    ensures s.Valid() && Rearranged(s, op, old(s.Now()), old(s.pendingWrap), old(SettingOf(s)))
  {
    hide Screen.Valid, Screen.View, SettingOf, Unboxed, Erasing.Filled, Erasing.Erased, FlagsSet, BoxSet, StopsSet, PenSet;
    match op
    case Align => AlignScreen(s);
    case ColumnMode(clear) => SetColumnMode(s, clear);
    case SoftReset => ResetSoftly(s);
  }

  /** What a change of the setting does to the modes. */
  lemma FlagsIn(s: Screen, p: Page, deferred: bool, to: ScreenSetting)
    requires s.Valid() && OnlySet(s, p, deferred, to)
    ensures FlagsOf(s) == to.flags
  {
    hide Screen.Valid, Screen.Now, FlagsOf;
  }

  lemma FlagsAfterBox(s: Screen, op: Op, p: Page, deferred: bool, b: ScreenSetting)
    requires s.Valid()
    ensures OnStops(op) && StopsSet(s, op, p, deferred, b) ==> FlagsOf(s) == b.flags
    ensures OnBox(op) && BoxSet(s, op, p, deferred, b) ==> FlagsOf(s) == b.flags
  {
    hide Screen.Valid, Screen.Now, OnlySet, FlagsOf;
    forall q, d, to | OnlySet(s, q, d, to) ensures FlagsOf(s) == to.flags { FlagsIn(s, q, d, to); }
  }

  lemma FlagsAfterReset(s: Screen, op: Op, p: Page, deferred: bool, b: ScreenSetting)
    requires s.Valid()
    ensures OnScreen(op) && ScreenSet(s, op, p, deferred, b) ==> FlagsOf(s) == FlagsAfter(op, b.flags)
  {
    s.HasSize();
    hide Screen.Valid, Screen.Now, OnlySet, FlagsOf, Erasing.Filled, Erasing.Erased;
    forall q, d, to | OnlySet(s, q, d, to) ensures FlagsOf(s) == to.flags { FlagsIn(s, q, d, to); }
  }

  lemma FlagsAfterFlags(s: Screen, op: Op, p: Page, deferred: bool, b: ScreenSetting)
    requires s.Valid()
    ensures OnFlags(op) && FlagsSet(s, op, p, deferred, b) ==> FlagsOf(s) == FlagsAfter(op, b.flags)
    ensures op.SetPen? && PenSet(s, op, p, deferred, b) ==> FlagsOf(s) == b.flags
  {
    s.HasSize();
    hide Screen.Valid, Screen.Now, OnlySet, FlagsOf;
    forall q, d, to | OnlySet(s, q, d, to) ensures FlagsOf(s) == to.flags { FlagsIn(s, q, d, to); }
  }

  lemma FlagsRearranged(s: Screen, op: Op, p: Page, deferred: bool, b: ScreenSetting)
    requires s.Valid() && Rearranged(s, op, p, deferred, b) && Rearranges(op) && !op.Cursor?
    ensures FlagsOf(s) == FlagsAfter(op, b.flags)
  {
    hide Screen.Valid, Screen.Now, OnlySet, FlagsOf, StopsSet, BoxSet, ScreenSet, FlagsSet, PenSet;
    FlagsAfterBox(s, op, p, deferred, b);
    FlagsAfterReset(s, op, p, deferred, b);
    FlagsAfterFlags(s, op, p, deferred, b);
  }

  lemma FlagsFollow(s: Screen, op: Op, p: Page, deferred: bool, b: ScreenSetting)
    requires s.Valid() && Effect(s, op, p, deferred, b)
    ensures op.Cursor? || FlagsOf(s) == FlagsAfter(op, b.flags)
  {
    hide Screen.Valid, Screen.Now, Performed, Rearranged, FlagsOf;
    if Rearranges(op) && !op.Cursor? { FlagsRearranged(s, op, p, deferred, b); }
  }

  method PerformRearranging(s: Screen, op: Op)
    requires s.Valid() && s.TabsOk() && Rearranges(op)
    modifies s`wrapped, s`drained, s`curX, s`curY, s`pendingWrap, s`tabStops, s.RowSet()
    modifies s`style, s`link, s`guarded, s`isoGuarded, s`mainCursor, s`altCursor
    modifies s`scrollTop, s`scrollBottom, s`lrMarginMode, s`leftMargin, s`rightMargin
    modifies s`originMode, s`autoWrap, s`insertMode, s`newLineMode, s`reverseWrap, s`moreFix
    ensures s.Valid() && s.TabsOk() && Rearranged(s, op, old(s.Now()), old(s.pendingWrap), old(SettingOf(s)))
  {
    hide Screen.Valid, Screen.TabsOk, Screen.Now, SettingOf, Rearranged, OnStops, OnBox, OnFlags, OnPen, OnScreen;
    if OnStops(op) { RearrangeStops(s, op); }
    else if OnBox(op) { RearrangeBox(s, op); }
    else if OnFlags(op) { RearrangeFlags(s, op); }
    else if OnPen(op) { RearrangePen(s, op); }
    else { RearrangeScreen(s, op); }
  }

  lemma PageStays(s: Screen, p: Page)
    requires s.Valid() && |p.rows| == s.height && Rectangular(p.rows, s.width) && p.x < s.width && p.y < s.height
    ensures s.PageOk(p)
  {}

  method PerformAny(s: Screen, op: Op)
    requires s.Valid() && s.TabsOk()
    modifies s`cells, s`wrapped, s`drained, s`curX, s`curY, s`pendingWrap, s`tabStops, s.RowSet()
    modifies s`style, s`link, s`guarded, s`isoGuarded, s`mainCursor, s`altCursor
    modifies s`scrollTop, s`scrollBottom, s`lrMarginMode, s`leftMargin, s`rightMargin
    modifies s`originMode, s`autoWrap, s`insertMode, s`newLineMode, s`reverseWrap, s`moreFix
    ensures s.Valid() && s.TabsOk() && fresh(s.RowSet() - old(s.RowSet()))
    ensures Effect(s, op, old(s.Now()), old(s.pendingWrap), old(SettingOf(s)))
  {
    hide Screen.Valid, Screen.TabsOk, Screen.Now, SettingOf, Rearranged, Performed, Rearranges;
    ghost var p := s.Now();
    if Rearranges(op) { PerformRearranging(s, op); } else { PerformPlain(s, op); }
    PageStays(s, p);
  }

  /** One operation of the screen shown. Whatever it is, the saved main screen is not touched, and to what is shown, to
      the modes, margins, tab stops, pen and saved cursor it does what is described above. */
  method Perform(s: Screen, op: Op)
    requires s.Valid() && s.TabsOk()
    modifies s`cells, s`wrapped, s`drained, s`curX, s`curY, s`pendingWrap, s`tabStops, s.RowSet()
    modifies s`style, s`link, s`guarded, s`isoGuarded, s`mainCursor, s`altCursor
    modifies s`scrollTop, s`scrollBottom, s`lrMarginMode, s`leftMargin, s`rightMargin
    modifies s`originMode, s`autoWrap, s`insertMode, s`newLineMode, s`reverseWrap, s`moreFix
    ensures s.Valid() && s.TabsOk() && fresh(s.RowSet() - old(s.RowSet()))
    ensures s.saved.Some? ==> s.SavedView() == old(s.SavedView())
    ensures Effect(s, op, old(s.Now()), old(s.pendingWrap), old(SettingOf(s)))
  {
    s.SavedIsApart();
    hide Screen.Valid, Screen.SavedView, Screen.RowSet, Screen.SavedRowSet, Screen.TabsOk, Screen.Now, Screen.PageOk, SettingOf, Effect;
    PerformAny(s, op);
  }

  /** A character printed `n` times, with all that it does to the screen shown. */
  method PerformAgain(s: Screen, ch: nat, w: nat, n: nat)
    requires s.Valid() && s.TabsOk() && w > 0
    modifies s`cells, s`wrapped, s`drained, s`curX, s`curY, s`pendingWrap, s.RowSet()
    ensures s.Valid() && s.TabsOk() && fresh(s.RowSet() - old(s.RowSet()))
    ensures s.saved.Some? ==> s.SavedView() == old(s.SavedView())
    ensures s.width > 0 && s.PageOk(old(s.Now()))
    ensures (s.Now(), s.pendingWrap) == s.AfterAll(old(s.Now()), old(s.pendingWrap), ch, Min(w, 2), s.style, n)
  {
    s.SavedIsApart();
    hide Screen.Valid, Screen.SavedView, Screen.RowSet, Screen.SavedRowSet, Screen.Now, Screen.PageOk, Screen.AfterAll;
    PrintAgain(s, ch, w, n);
  }

  // ---- runs ----

  /** The main screen is kept aside on the way in and shown again on the way out; the pending drain goes whenever
      the alternate screen is reset. */
  method SwitchScreen(s: Screen, on: bool, mode: nat)
    requires s.Valid() && s.TabsOk() && s.SavedRegionOk()
    modifies s, s.Footprint()
    ensures s.Valid() && s.TabsOk() && s.SavedRegionOk() && fresh(s.Footprint() - old(s.Footprint()))
    ensures s.height == old(s.height) && s.width == old(s.width) && s.inAlt == on && FlagsOf(s) == old(FlagsOf(s))
    ensures s.drained == if on then old(s.drained) else []
    ensures on && !old(s.inAlt) ==>
      && s.saved.Some? && s.SavedView() == old(s.View())
      && s.saved.value == Saved(s.saved.value.cells, old(s.wrapped), old(s.curX), old(s.curY), old(s.style), old(s.scrollTop), old(s.scrollBottom))
    ensures !on && old(s.inAlt) ==>
      && old(s.saved).Some? && s.View() == old(s.SavedView())
      && var main := old(s.saved).value;
         && s.scrollTop == main.scrollTop && s.scrollBottom == Min(main.scrollBottom, s.height - 1)
         && (mode == 1049 ==> s.curX == main.curX && s.curY == main.curY && s.style == main.style)
  {
    hide Screen.Valid, Screen.SavedView, Screen.View;
    s.SavedWhileAlt();
    if on && !s.inAlt {
      s.EnterFromMain(mode);
      s.StashIsShown();
    } else if !on {
      if s.inAlt { s.ExitFromAlt(mode); }
      s.drained := [];
    }
  }

  /** One event; a resize waits while the alternate screen is shown. */
  method Step(s: Screen, e: Event)
    requires s.Valid() && s.TabsOk() && s.SavedRegionOk()
    modifies s, s.Footprint()
    ensures s.Valid() && s.TabsOk() && s.SavedRegionOk()
    ensures fresh(s.Footprint() - old(s.Footprint()))
  {
    s.SavedWhileAlt();
    hide Screen.Valid, Screen.SavedView, Screen.View, SettingOf, Effect;
    match e
    case Application(op) => Perform(s, op);
    case AltScreen(on, mode) => SwitchScreen(s, on, mode);
    case Reset => HardReset(s);
    case Resizing(rows, cols) =>
      if !s.inAlt {
        s.Resize(rows, cols);
      }
  }

  /** Over every run of operations, alternate-screen switches, resets and main-screen resizes: the cursor, the
      margins, the region and the tab stops stay in bounds, every row has the right length, and no two rows live
      or kept share storage. So no operation of any run indexes out of range. */
  method Run(s: Screen, events: seq<Event>)
    requires s.Valid() && s.TabsOk() && s.SavedRegionOk()
    modifies s, s.Footprint()
    ensures s.Valid() && s.TabsOk() && s.SavedRegionOk()
  {
    hide Screen.Valid, Screen.SavedRegionOk, Screen.TabsOk;
    for i := 0 to |events|
      invariant s.Valid() && s.TabsOk() && s.SavedRegionOk()
      invariant fresh(s.Footprint() - old(s.Footprint()))
    {
      Step(s, events[i]);
    }
  }

  /** Operations one after the other. */
  method PerformAll(s: Screen, ops: seq<Op>)
    requires s.Valid() && s.TabsOk()
    modifies s`cells, s`wrapped, s`drained, s`curX, s`curY, s`pendingWrap, s`tabStops, s.RowSet()
    modifies s`style, s`link, s`guarded, s`isoGuarded, s`mainCursor, s`altCursor
    modifies s`scrollTop, s`scrollBottom, s`lrMarginMode, s`leftMargin, s`rightMargin
    modifies s`originMode, s`autoWrap, s`insertMode, s`newLineMode, s`reverseWrap, s`moreFix
    ensures s.Valid() && s.TabsOk() && fresh(s.RowSet() - old(s.RowSet())) && (s.saved.Some? ==> s.SavedView() == old(s.SavedView()))
  {
    hide Screen.Valid, Screen.SavedView, Screen.TabsOk, Effect;
    for i := 0 to |ops|
      invariant s.Valid() && s.TabsOk() && fresh(s.RowSet() - old(s.RowSet()))
      invariant s.saved.Some? ==> s.SavedView() == old(s.SavedView())
    {
      Perform(s, ops[i]);
    }
  }

  /** An alternate-screen session without a resize or a hard reset: whatever the application does in it, the main
      screen's cells, wrap flags and scroll region come back as they were, and with 1049 the cursor and the pen. */
  method AltSession(s: Screen, mode: nat, ops: seq<Op>)
    requires s.Valid() && s.TabsOk() && !s.inAlt
    modifies s, s.RowSet(), s.StashSet()
    ensures s.Valid() && !s.inAlt && s.View() == old(s.View()) && s.height == old(s.height) && s.width == old(s.width)
    ensures s.wrapped == old(s.wrapped) && s.scrollTop == old(s.scrollTop) && s.scrollBottom == old(s.scrollBottom)
    ensures mode == 1049 ==> s.curX == old(s.curX) && s.curY == old(s.curY) && s.style == old(s.style)
  {
    assert s.scrollBottom < s.height && |s.wrapped| == s.height;
    hide Screen.Valid, Screen.View, Screen.SavedView, Screen.SavedRegionOk, Screen.Footprint, Screen.TabsOk;
    s.EnterFromMain(mode);
    PerformAll(s, ops);
    s.ExitFromAlt(mode);
  }
}
