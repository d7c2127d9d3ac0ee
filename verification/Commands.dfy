/** What the bytes of each command do to the screen: for every control sequence, escape sequence and control character
    that acts on the grid, in the middle of anything, where the cursor is, what the rows show and what is set afterwards. */
module Commands {
  import opened Sequences
  import opened Sgr
  import opened Lines
  import opened Grid
  import opened Terminal
  import opened ByteRuns
  import Columns
  import Erasing
  import Motion
  import Params
  import Parser
  import ScreenRuns
  import SgrRoundTrip

  /** The first and the second number, where none or 0 stands for 1, and any number, where none stands for 0. */
  function Count(ns: seq<nat>): nat { if ns == [] || ns[0] == 0 then 1 else ns[0] }

  function Second(ns: seq<nat>): nat { if |ns| < 2 || ns[1] == 0 then 1 else ns[1] }

  function Number(ns: seq<nat>, i: nat): nat { if i < |ns| then ns[i] else 0 }

  // ---- what stays ----

  /** Nothing but the cursor moved since `was`. */
  ghost predicate OnlyMoved(t: Terminal, was: Before)
    requires t.Valid()
    reads t, t.screen, t.screen.Footprint(), t.ParserSet()
  {
    && t.Settings() == was.setting && t.ModesNow() == was.modes
    && t.screen.View() == was.page.rows && t.screen.drained == was.page.drained && !t.screen.pendingWrap
  }

  /** Nothing but the page changed since `was`, to `to`. */
  ghost predicate OnlyPage(t: Terminal, was: Before, to: Page)
    requires t.Valid()
    reads t, t.screen, t.screen.Footprint(), t.ParserSet()
  {
    t.Settings() == was.setting && t.ModesNow() == was.modes && t.screen.Now() == to
  }

  lemma Plainly(t: Terminal, op: ScreenRuns.Op, was: Before)
    requires t.Valid() && t.Done(op, was) && !ScreenRuns.Rearranges(op)
    ensures t.screen.Valid() && t.screen.PageOk(was.page) && ScreenRuns.Performed(t.screen, op, was.page, was.deferred)
    ensures t.Settings() == was.setting && t.ModesNow() == was.modes
  {
    t.SettingHere();
    hide Terminal.Valid, ScreenRuns.Performed, ScreenRuns.Rearranged, Screen.PageOk, ScreenRuns.SettingOf, Terminal.ModesNow;
  }

  // ---- the cursor ----

  ghost predicate MovedVertically(t: Terminal, up: bool, n: nat, was: Before)
    requires t.Valid()
    reads t, t.screen, t.screen.Footprint(), t.ParserSet()
  {
    && OnlyMoved(t, was) && t.screen.curX == was.page.x
    && (up ==> t.screen.curY == Max(was.page.y - n, if was.page.y >= t.screen.scrollTop then t.screen.scrollTop else 0))
    && (!up ==> t.screen.curY == Min(was.page.y + n, if was.page.y <= t.screen.scrollBottom then t.screen.scrollBottom else t.screen.height - 1))
  }

  lemma MoveVerticallyIs(private: bool, ns: seq<nat>, f: char)
    requires Printable(ns) && (f == 'A' || f == 'B' || f == 'e')
    ensures MainOp(f, Marker(private), Sent(ns)) == Some(ScreenRuns.Vertical(f == 'A', Count(ns))) && ClearsWrap(f)
  {}

  lemma MoveVerticallyDone(t: Terminal, up: bool, n: nat, was: Before)
    requires t.Valid() && t.Done(ScreenRuns.Vertical(up, n), was.(deferred := false))
    ensures MovedVertically(t, up, n, was)
  {
    hide Terminal.Valid, Terminal.Done, Terminal.Settings, Terminal.ModesNow, Screen.View,
      ScreenRuns.ErasedPage, ScreenRuns.ShiftedPage, ScreenRuns.FedPage, ScreenRuns.ColumnPage, ScreenRuns.RectanglePage, ScreenRuns.Typed;
    Plainly(t, ScreenRuns.Vertical(up, n), was.(deferred := false));
  }

  /** CUU, CUD and VPR: up or down, stopping at the region's edge from inside it and at the screen's from outside. */
  method MoveVertically(t: Terminal, private: bool, ns: seq<nat>, f: char) returns (ghost was: Before)
    requires t.Valid() && Printable(ns) && (f == 'A' || f == 'B' || f == 'e')
    modifies t, t.screen, t.screen.Footprint(), t.ParserSet()
    ensures t.Valid() && fresh(t.screen.Footprint() - old(t.screen.Footprint())) && Ready(t)
    ensures From(was, old(t.Was()), old(t.parser.utf8Len), old(t.parser.state)) && MovedVertically(t, f == 'A', Count(ns), was)
  {
    hide *;
    MoveVerticallyIs(private, ns, f);
    was := Operate(t, private, ns, f as int, ScreenRuns.Vertical(f == 'A', Count(ns)));
    MoveVerticallyDone(t, f == 'A', Count(ns), was);
  }

  ghost predicate MovedRight(t: Terminal, n: nat, was: Before)
    requires t.Valid()
    reads t, t.screen, t.screen.Footprint(), t.ParserSet()
  {
    && OnlyMoved(t, was) && t.screen.curY == was.page.y && t.screen.width > 0
    && t.screen.curX == Min(was.page.x + n, if was.page.x <= t.screen.RightBound() then t.screen.RightBound() else t.screen.width - 1)
  }

  lemma MoveRightIs(private: bool, ns: seq<nat>)
    requires Printable(ns)
    ensures MainOp('C', Marker(private), Sent(ns)) == Some(ScreenRuns.Horizontal(false, Count(ns))) && ClearsWrap('C')
  {}

  lemma MoveRightDone(t: Terminal, n: nat, was: Before)
    requires t.Valid() && t.Done(ScreenRuns.Horizontal(false, n), was.(deferred := false))
    ensures MovedRight(t, n, was)
  {
    hide Terminal.Valid, Terminal.Done, Terminal.Settings, Terminal.ModesNow, Screen.View,
      ScreenRuns.ErasedPage, ScreenRuns.ShiftedPage, ScreenRuns.FedPage, ScreenRuns.ColumnPage, ScreenRuns.RectanglePage, ScreenRuns.Typed;
    Plainly(t, ScreenRuns.Horizontal(false, n), was.(deferred := false));
  }

  /** CUF: right, stopping at the right margin from inside the margins and at the screen's edge from past it. */
  method MoveRight(t: Terminal, private: bool, ns: seq<nat>) returns (ghost was: Before)
    requires t.Valid() && Printable(ns)
    modifies t, t.screen, t.screen.Footprint(), t.ParserSet()
    ensures t.Valid() && fresh(t.screen.Footprint() - old(t.screen.Footprint())) && Ready(t)
    ensures From(was, old(t.Was()), old(t.parser.utf8Len), old(t.parser.state)) && MovedRight(t, Count(ns), was)
  {
    hide *;
    MoveRightIs(private, ns);
    was := Operate(t, private, ns, 'C' as int, ScreenRuns.Horizontal(false, Count(ns)));
    MoveRightDone(t, Count(ns), was);
  }

  ghost predicate MovedLeft(t: Terminal, n: nat, was: Before)
    requires t.Valid()
    reads t, t.screen, t.screen.Footprint(), t.ParserSet()
  {
    && OnlyMoved(t, was) && t.screen.width > 0
    && if t.screen.reverseWrap && t.screen.autoWrap then
         Motion.PlaceOf(t.screen) == Motion.BackTimes(Motion.Place(was.page.y, was.page.x, false), Motion.Bounds(t.screen), true, Max(n, 1))
       else
         && t.screen.curY == was.page.y
         && t.screen.curX == Max(was.page.x - Max(n, 1), if was.page.x >= t.screen.LeftBound() then t.screen.LeftBound() else 0)
  }

  lemma MoveLeftIs(private: bool, ns: seq<nat>)
    requires Printable(ns)
    ensures MainOp('D', Marker(private), Sent(ns)) == Some(ScreenRuns.Horizontal(true, Count(ns))) && ClearsWrap('D')
  {}

  lemma {:induction false} NeverWaits(p: Motion.Place, b: Box, n: nat)
    requires !p.pending
    ensures !Motion.BackTimes(p, b, true, n).pending
  {
    if n > 0 { NeverWaits(p, b, n - 1); }
  }

  lemma MoveLeftDone(t: Terminal, n: nat, was: Before)
    requires t.Valid() && t.Done(ScreenRuns.Horizontal(true, n), was.(deferred := false))
    ensures MovedLeft(t, n, was)
  {
    hide Terminal.Valid, Terminal.Done, Terminal.Settings, Terminal.ModesNow, Screen.View, Motion.BackTimes,
      ScreenRuns.ErasedPage, ScreenRuns.ShiftedPage, ScreenRuns.FedPage, ScreenRuns.ColumnPage, ScreenRuns.RectanglePage, ScreenRuns.Typed;
    Plainly(t, ScreenRuns.Horizontal(true, n), was.(deferred := false));
    NeverWaits(Motion.Place(was.page.y, was.page.x, false), Motion.Bounds(t.screen), Max(n, 1));
  }

  /** CUB: left, stopping at the left margin from inside the margins and at the screen's edge from before it; under reverse
      wrap as many backspaces. */
  method MoveLeft(t: Terminal, private: bool, ns: seq<nat>) returns (ghost was: Before)
    requires t.Valid() && Printable(ns)
    modifies t, t.screen, t.screen.Footprint(), t.ParserSet()
    ensures t.Valid() && fresh(t.screen.Footprint() - old(t.screen.Footprint())) && Ready(t)
    ensures From(was, old(t.Was()), old(t.parser.utf8Len), old(t.parser.state)) && MovedLeft(t, Count(ns), was)
  {
    hide *;
    MoveLeftIs(private, ns);
    was := Operate(t, private, ns, 'D' as int, ScreenRuns.Horizontal(true, Count(ns)));
    MoveLeftDone(t, Count(ns), was);
  }

  ghost predicate MovedLines(t: Terminal, up: bool, n: nat, was: Before)
    requires t.Valid()
    reads t, t.screen, t.screen.Footprint(), t.ParserSet()
  {
    && OnlyMoved(t, was) && t.screen.curX == t.screen.LeftBound()
    && (up ==> t.screen.curY == Max(was.page.y - n, if was.page.y >= t.screen.scrollTop then t.screen.scrollTop else 0))
    && (!up ==> t.screen.curY == Min(was.page.y + n, if was.page.y <= t.screen.scrollBottom then t.screen.scrollBottom else t.screen.height - 1))
  }

  lemma MoveLinesIs(private: bool, ns: seq<nat>, up: bool)
    requires Printable(ns)
    ensures MainOp((if up then 'F' else 'E'), Marker(private), Sent(ns)) == Some(ScreenRuns.Lines(up, Count(ns))) && ClearsWrap((if up then 'F' else 'E'))
  {}

  lemma MoveLinesDone(t: Terminal, up: bool, n: nat, was: Before)
    requires t.Valid() && t.Done(ScreenRuns.Lines(up, n), was.(deferred := false))
    ensures MovedLines(t, up, n, was)
  {
    hide Terminal.Valid, Terminal.Done, Terminal.Settings, Terminal.ModesNow, Screen.View,
      ScreenRuns.ErasedPage, ScreenRuns.ShiftedPage, ScreenRuns.FedPage, ScreenRuns.ColumnPage, ScreenRuns.RectanglePage, ScreenRuns.Typed;
    Plainly(t, ScreenRuns.Lines(up, n), was.(deferred := false));
  }

  /** CNL and CPL: down or up as CUD and CUU, and to the left margin from wherever the column was. */
  method MoveLines(t: Terminal, private: bool, ns: seq<nat>, up: bool) returns (ghost was: Before)
    requires t.Valid() && Printable(ns)
    modifies t, t.screen, t.screen.Footprint(), t.ParserSet()
    ensures t.Valid() && fresh(t.screen.Footprint() - old(t.screen.Footprint())) && Ready(t)
    ensures From(was, old(t.Was()), old(t.parser.utf8Len), old(t.parser.state)) && MovedLines(t, up, Count(ns), was)
  {
    hide *;
    MoveLinesIs(private, ns, up);
    was := Operate(t, private, ns, (if up then 'F' else 'E') as int, ScreenRuns.Lines(up, Count(ns)));
    MoveLinesDone(t, up, Count(ns), was);
  }

  ghost predicate AtColumn(t: Terminal, x: nat, was: Before)
    requires t.Valid()
    reads t, t.screen, t.screen.Footprint(), t.ParserSet()
  {
    && OnlyMoved(t, was) && t.screen.curY == was.page.y && t.screen.width > 0
    && t.screen.curX == if t.screen.originMode then Min(x + t.screen.LeftBound(), t.screen.RightBound()) else Min(x, t.screen.width - 1)
  }

  lemma MoveToColumnIs(private: bool, ns: seq<nat>, f: char)
    requires Printable(ns) && (f == 'G' || f == '`')
    ensures MainOp(f, Marker(private), Sent(ns)) == Some(ScreenRuns.ToColumn(Count(ns) - 1)) && ClearsWrap(f)
  {}

  lemma MoveToColumnDone(t: Terminal, x: nat, was: Before)
    requires t.Valid() && t.Done(ScreenRuns.ToColumn(x), was.(deferred := false))
    ensures AtColumn(t, x, was)
  {
    hide Terminal.Valid, Terminal.Done, Terminal.Settings, Terminal.ModesNow, Screen.View,
      ScreenRuns.ErasedPage, ScreenRuns.ShiftedPage, ScreenRuns.FedPage, ScreenRuns.ColumnPage, ScreenRuns.RectanglePage, ScreenRuns.Typed;
    Plainly(t, ScreenRuns.ToColumn(x), was.(deferred := false));
  }

  /** CHA and HPA: to that column, counted from one, from the left margin in origin mode. */
  method MoveToColumn(t: Terminal, private: bool, ns: seq<nat>, f: char) returns (ghost was: Before)
    requires t.Valid() && Printable(ns) && (f == 'G' || f == '`')
    modifies t, t.screen, t.screen.Footprint(), t.ParserSet()
    ensures t.Valid() && fresh(t.screen.Footprint() - old(t.screen.Footprint())) && Ready(t)
    ensures From(was, old(t.Was()), old(t.parser.utf8Len), old(t.parser.state)) && AtColumn(t, Count(ns) - 1, was)
  {
    hide *;
    MoveToColumnIs(private, ns, f);
    was := Operate(t, private, ns, f as int, ScreenRuns.ToColumn(Count(ns) - 1));
    MoveToColumnDone(t, Count(ns) - 1, was);
  }

  ghost predicate AtRow(t: Terminal, y: nat, was: Before)
    requires t.Valid()
    reads t, t.screen, t.screen.Footprint(), t.ParserSet()
  {
    && OnlyMoved(t, was) && t.screen.curX == was.page.x
    && t.screen.curY == if t.screen.originMode then Min(y + t.screen.scrollTop, t.screen.scrollBottom) else Min(y, t.screen.height - 1)
  }

  lemma MoveToRowIs(private: bool, ns: seq<nat>)
    requires Printable(ns)
    ensures MainOp('d', Marker(private), Sent(ns)) == Some(ScreenRuns.ToRow(Count(ns) - 1)) && ClearsWrap('d')
  {}

  lemma MoveToRowDone(t: Terminal, y: nat, was: Before)
    requires t.Valid() && t.Done(ScreenRuns.ToRow(y), was.(deferred := false))
    ensures AtRow(t, y, was)
  {
    hide Terminal.Valid, Terminal.Done, Terminal.Settings, Terminal.ModesNow, Screen.View,
      ScreenRuns.ErasedPage, ScreenRuns.ShiftedPage, ScreenRuns.FedPage, ScreenRuns.ColumnPage, ScreenRuns.RectanglePage, ScreenRuns.Typed;
    Plainly(t, ScreenRuns.ToRow(y), was.(deferred := false));
  }

  /** VPA: to that row, counted from one, from the region's top in origin mode. */
  method MoveToRow(t: Terminal, private: bool, ns: seq<nat>) returns (ghost was: Before)
    requires t.Valid() && Printable(ns)
    modifies t, t.screen, t.screen.Footprint(), t.ParserSet()
    ensures t.Valid() && fresh(t.screen.Footprint() - old(t.screen.Footprint())) && Ready(t)
    ensures From(was, old(t.Was()), old(t.parser.utf8Len), old(t.parser.state)) && AtRow(t, Count(ns) - 1, was)
  {
    hide *;
    MoveToRowIs(private, ns);
    was := Operate(t, private, ns, 'd' as int, ScreenRuns.ToRow(Count(ns) - 1));
    MoveToRowDone(t, Count(ns) - 1, was);
  }

  ghost predicate MovedAlong(t: Terminal, n: nat, was: Before)
    requires t.Valid()
    reads t, t.screen, t.screen.Footprint(), t.ParserSet()
  {
    OnlyMoved(t, was) && t.screen.curY == was.page.y && t.screen.curX == Min(was.page.x + n, t.screen.width - 1)
  }

  lemma MoveAlongIs(private: bool, ns: seq<nat>)
    requires Printable(ns)
    ensures MainOp('a', Marker(private), Sent(ns)) == Some(ScreenRuns.Relative(Count(ns))) && ClearsWrap('a')
  {}

  lemma MoveAlongDone(t: Terminal, n: nat, was: Before)
    requires t.Valid() && t.Done(ScreenRuns.Relative(n), was.(deferred := false))
    ensures MovedAlong(t, n, was)
  {
    hide Terminal.Valid, Terminal.Done, Terminal.Settings, Terminal.ModesNow, Screen.View,
      ScreenRuns.ErasedPage, ScreenRuns.ShiftedPage, ScreenRuns.FedPage, ScreenRuns.ColumnPage, ScreenRuns.RectanglePage, ScreenRuns.Typed;
    Plainly(t, ScreenRuns.Relative(n), was.(deferred := false));
  }

  /** HPR: right by that many columns, whatever the margins, at most to the screen's edge. */
  method MoveAlong(t: Terminal, private: bool, ns: seq<nat>) returns (ghost was: Before)
    requires t.Valid() && Printable(ns)
    modifies t, t.screen, t.screen.Footprint(), t.ParserSet()
    ensures t.Valid() && fresh(t.screen.Footprint() - old(t.screen.Footprint())) && Ready(t)
    ensures From(was, old(t.Was()), old(t.parser.utf8Len), old(t.parser.state)) && MovedAlong(t, Count(ns), was)
  {
    hide *;
    MoveAlongIs(private, ns);
    was := Operate(t, private, ns, 'a' as int, ScreenRuns.Relative(Count(ns)));
    MoveAlongDone(t, Count(ns), was);
  }

  ghost predicate AtPlace(t: Terminal, y: nat, x: nat, was: Before)
    requires t.Valid()
    reads t, t.screen, t.screen.Footprint(), t.ParserSet()
  {
    && OnlyMoved(t, was) && t.screen.width > 0
    && t.screen.curY == (if t.screen.originMode then Min(y + t.screen.scrollTop, t.screen.scrollBottom) else Min(y, t.screen.height - 1))
    && t.screen.curX == if t.screen.originMode then Min(x + t.screen.LeftBound(), t.screen.RightBound()) else Min(x, t.screen.width - 1)
  }

  lemma MoveCursorIs(private: bool, ns: seq<nat>, f: char)
    requires Printable(ns) && (f == 'H' || f == 'f')
    ensures MainOp(f, Marker(private), Sent(ns)) == Some(ScreenRuns.MoveTo(Count(ns) - 1, Second(ns) - 1)) && ClearsWrap(f)
  {}

  lemma MoveCursorDone(t: Terminal, y: nat, x: nat, was: Before)
    requires t.Valid() && t.Done(ScreenRuns.MoveTo(y, x), was.(deferred := false))
    ensures AtPlace(t, y, x, was)
  {
    hide Terminal.Valid, Terminal.Done, Terminal.Settings, Terminal.ModesNow, Screen.View,
      ScreenRuns.ErasedPage, ScreenRuns.ShiftedPage, ScreenRuns.FedPage, ScreenRuns.ColumnPage, ScreenRuns.RectanglePage, ScreenRuns.Typed;
    Plainly(t, ScreenRuns.MoveTo(y, x), was.(deferred := false));
  }

  /** CUP and HVP: to that row and column, from the corner of the region and the margins in origin mode, cut at their limits. */
  method MoveCursor(t: Terminal, private: bool, ns: seq<nat>, f: char) returns (ghost was: Before)
    requires t.Valid() && Printable(ns) && (f == 'H' || f == 'f')
    modifies t, t.screen, t.screen.Footprint(), t.ParserSet()
    ensures t.Valid() && fresh(t.screen.Footprint() - old(t.screen.Footprint())) && Ready(t)
    ensures From(was, old(t.Was()), old(t.parser.utf8Len), old(t.parser.state)) && AtPlace(t, Count(ns) - 1, Second(ns) - 1, was)
  {
    hide *;
    MoveCursorIs(private, ns, f);
    was := Operate(t, private, ns, f as int, ScreenRuns.MoveTo(Count(ns) - 1, Second(ns) - 1));
    MoveCursorDone(t, Count(ns) - 1, Second(ns) - 1, was);
  }

  ghost predicate MovedByTabs(t: Terminal, forward: bool, n: nat, was: Before)
    requires t.Valid()
    reads t, t.screen, t.screen.Footprint(), t.ParserSet()
  {
    && OnlyMoved(t, was) && t.screen.curY == was.page.y && t.screen.width > 0
    && if forward then Motion.ForwardFrom(t.screen, was.page.x, n) else Motion.BackwardFrom(t.screen, was.page.x, n)
  }

  lemma MoveByTabsIs(private: bool, ns: seq<nat>, forward: bool)
    requires Printable(ns)
    ensures MainOp((if forward then 'I' else 'Z'), Marker(private), Sent(ns)) == Some(ScreenRuns.Tabs(forward, Count(ns))) && ClearsWrap((if forward then 'I' else 'Z'))
  {}

  lemma MoveByTabsDone(t: Terminal, forward: bool, n: nat, was: Before)
    requires t.Valid() && t.Done(ScreenRuns.Tabs(forward, n), was.(deferred := false))
    ensures MovedByTabs(t, forward, n, was)
  {
    hide Terminal.Valid, Terminal.Done, Terminal.Settings, Terminal.ModesNow, Screen.View, Motion.ForwardFrom, Motion.BackwardFrom,
      ScreenRuns.Destination, ScreenRuns.ErasedPage, ScreenRuns.ShiftedPage, ScreenRuns.FedPage, ScreenRuns.ColumnPage, ScreenRuns.RectanglePage;
    Plainly(t, ScreenRuns.Tabs(forward, n), was.(deferred := false));
  }

  /** CHT and CBT: to the stop that many stops on or back, or to the limit when there are fewer. */
  method MoveByTabs(t: Terminal, private: bool, ns: seq<nat>, forward: bool) returns (ghost was: Before)
    requires t.Valid() && Printable(ns)
    modifies t, t.screen, t.screen.Footprint(), t.ParserSet()
    ensures t.Valid() && fresh(t.screen.Footprint() - old(t.screen.Footprint())) && Ready(t)
    ensures From(was, old(t.Was()), old(t.parser.utf8Len), old(t.parser.state)) && MovedByTabs(t, forward, Count(ns), was)
  {
    hide *;
    MoveByTabsIs(private, ns, forward);
    was := Operate(t, private, ns, (if forward then 'I' else 'Z') as int, ScreenRuns.Tabs(forward, Count(ns)));
    MoveByTabsDone(t, forward, Count(ns), was);
  }

  // ---- erasing and shifting ----

  ghost predicate DisplayErased(t: Terminal, mode: nat, selective: bool, was: Before)
    requires t.Valid()
    reads t, t.screen, t.screen.Footprint(), t.ParserSet()
  {
    var p, width, bg, spared := was.page, t.screen.width, t.screen.style.bg, if selective then Erasing.SpareBoth else Erasing.SpareISO;
    && t.screen.PageOk(p) && t.screen.pendingWrap == was.deferred
    && OnlyPage(t, was, p.(drained := if mode == 2 || mode == 3 then [] else p.drained,
                           rows := if mode == 0 then Erasing.EndErased(p.rows, p.y, p.x, width, spared, bg)
                                   else if mode == 1 then Erasing.StartErased(p.rows, p.y, p.x, width, spared, bg)
                                   else if mode == 2 && !selective then Repeat(Line(BlankRow(width, bg), false), t.screen.height)
                                   else if mode == 2 then
                                     Erasing.Unwrapped(Erasing.Erased(p.rows, 0, 0, t.screen.height - 1, width - 1, spared, bg))
                                   else p.rows))
  }

  lemma EraseDisplayIs(private: bool, ns: seq<nat>)
    requires Printable(ns)
    ensures MainOp('J', Marker(private), Sent(ns)) == Some(ScreenRuns.EraseDisplay(Number(ns, 0), private)) && !ClearsWrap('J')
  {}

  lemma EraseDisplayDone(t: Terminal, mode: nat, selective: bool, was: Before)
    requires t.Valid() && t.Done(ScreenRuns.EraseDisplay(mode, selective), was)
    ensures DisplayErased(t, mode, selective, was)
  {
    hide Terminal.Valid, Terminal.Done, Terminal.Settings, Terminal.ModesNow, Screen.View, Erasing.EndErased, Erasing.StartErased, Erasing.Erased, Erasing.Unwrapped,
      BlankRow, Repeat,
      ScreenRuns.Destination, ScreenRuns.ShiftedPage, ScreenRuns.FedPage, ScreenRuns.ColumnPage, ScreenRuns.RectanglePage, ScreenRuns.Typed;
    Plainly(t, ScreenRuns.EraseDisplay(mode, selective), was);
    ScreenRuns.AllErased(was.page.rows, t.screen.width, t.screen.style.bg);
  }

  /** ED and DECSED: from the cursor on, up to it, or everywhere; the cursor stays. A plain erase spares ISO-guarded cells but
      in mode 2, a selective one all guarded cells. Modes 2 and 3 forget the lines not yet sent. */
  method EraseDisplay(t: Terminal, private: bool, ns: seq<nat>) returns (ghost was: Before)
    requires t.Valid() && Printable(ns)
    modifies t, t.screen, t.screen.Footprint(), t.ParserSet()
    ensures t.Valid() && fresh(t.screen.Footprint() - old(t.screen.Footprint())) && Ready(t)
    ensures From(was, old(t.Was()), old(t.parser.utf8Len), old(t.parser.state)) && DisplayErased(t, Number(ns, 0), private, was)
  {
    hide *;
    EraseDisplayIs(private, ns);
    was := Operate(t, private, ns, 'J' as int, ScreenRuns.EraseDisplay(Number(ns, 0), private));
    EraseDisplayDone(t, Number(ns, 0), private, was);
  }

  ghost predicate LineErased(t: Terminal, mode: nat, selective: bool, was: Before)
    requires t.Valid()
    reads t, t.screen, t.screen.Footprint(), t.ParserSet()
  {
    var p := was.page;
    && t.screen.pendingWrap == was.deferred
    && OnlyPage(t, was, if mode > 2 then p else p.(rows :=
         Erasing.Erased(p.rows, p.y, if mode == 0 then p.x else 0, p.y, if mode == 1 then p.x else t.screen.width - 1,
                        if selective then Erasing.SpareBoth else Erasing.SpareISO, t.screen.style.bg)))
  }

  lemma EraseLineIs(private: bool, ns: seq<nat>)
    requires Printable(ns)
    ensures MainOp('K', Marker(private), Sent(ns)) == Some(ScreenRuns.EraseLine(Number(ns, 0), private)) && !ClearsWrap('K')
  {}

  lemma EraseLineDone(t: Terminal, mode: nat, selective: bool, was: Before)
    requires t.Valid() && t.Done(ScreenRuns.EraseLine(mode, selective), was)
    ensures LineErased(t, mode, selective, was)
  {
    hide Terminal.Valid, Terminal.Done, Terminal.Settings, Terminal.ModesNow, Screen.View, Erasing.Erased,
      ScreenRuns.Destination, ScreenRuns.ShiftedPage, ScreenRuns.FedPage, ScreenRuns.ColumnPage, ScreenRuns.RectanglePage, ScreenRuns.Typed;
    Plainly(t, ScreenRuns.EraseLine(mode, selective), was);
  }

  /** EL and DECSEL: the cursor's row from the cursor on, up to it, or all of it; any other mode does nothing. */
  method EraseLine(t: Terminal, private: bool, ns: seq<nat>) returns (ghost was: Before)
    requires t.Valid() && Printable(ns)
    modifies t, t.screen, t.screen.Footprint(), t.ParserSet()
    ensures t.Valid() && fresh(t.screen.Footprint() - old(t.screen.Footprint())) && Ready(t)
    ensures From(was, old(t.Was()), old(t.parser.utf8Len), old(t.parser.state)) && LineErased(t, Number(ns, 0), private, was)
  {
    hide *;
    EraseLineIs(private, ns);
    was := Operate(t, private, ns, 'K' as int, ScreenRuns.EraseLine(Number(ns, 0), private));
    EraseLineDone(t, Number(ns, 0), private, was);
  }

  ghost predicate CellsErased(t: Terminal, n: nat, was: Before)
    requires t.Valid()
    reads t, t.screen, t.screen.Footprint(), t.ParserSet()
  {
    var p := was.page;
    && t.screen.pendingWrap == was.deferred
    && OnlyPage(t, was, p.(rows := Erasing.Erased(p.rows, p.y, p.x, p.y, Min(p.x + n, t.screen.width) - 1, Erasing.SpareISO, t.screen.style.bg)))
  }

  lemma EraseCellsIs(private: bool, ns: seq<nat>)
    requires Printable(ns)
    ensures MainOp('X', Marker(private), Sent(ns)) == Some(ScreenRuns.EraseChars(Count(ns))) && !ClearsWrap('X')
  {}

  lemma EraseCellsDone(t: Terminal, n: nat, was: Before)
    requires t.Valid() && t.Done(ScreenRuns.EraseChars(n), was)
    ensures CellsErased(t, n, was)
  {
    hide Terminal.Valid, Terminal.Done, Terminal.Settings, Terminal.ModesNow, Screen.View, Erasing.Erased,
      ScreenRuns.Destination, ScreenRuns.ShiftedPage, ScreenRuns.FedPage, ScreenRuns.ColumnPage, ScreenRuns.RectanglePage, ScreenRuns.Typed;
    Plainly(t, ScreenRuns.EraseChars(n), was);
  }

  /** ECH: that many cells from the cursor on, at most to the end of the row. */
  method EraseCells(t: Terminal, private: bool, ns: seq<nat>) returns (ghost was: Before)
    requires t.Valid() && Printable(ns)
    modifies t, t.screen, t.screen.Footprint(), t.ParserSet()
    ensures t.Valid() && fresh(t.screen.Footprint() - old(t.screen.Footprint())) && Ready(t)
    ensures From(was, old(t.Was()), old(t.parser.utf8Len), old(t.parser.state)) && CellsErased(t, Count(ns), was)
  {
    hide *;
    EraseCellsIs(private, ns);
    was := Operate(t, private, ns, 'X' as int, ScreenRuns.EraseChars(Count(ns)));
    EraseCellsDone(t, Count(ns), was);
  }

  ghost predicate CellsShifted(t: Terminal, insert: bool, n: nat, was: Before)
    requires t.Valid()
    reads t, t.screen, t.screen.Footprint(), t.ParserSet()
  {
    && t.screen.pendingWrap == was.deferred && t.screen.PageOk(was.page) && t.screen.width > 0
    && var p, right, bg := was.page, t.screen.RightBound(), t.screen.style.bg;
       var row := p.rows[p.y];
       OnlyPage(t, was, if !t.screen.WithinHMargins(p.x) then p else p.(rows := p.rows[p.y := row.(cells :=
         if insert then Inserted(row.cells, p.x, right, n, bg) else Deleted(row.cells, p.x, right, n, bg))]))
  }

  lemma ShiftCellsIs(private: bool, ns: seq<nat>, insert: bool)
    requires Printable(ns)
    ensures MainOp((if insert then '@' else 'P'), Marker(private), Sent(ns)) == Some(ScreenRuns.ShiftChars(insert, Count(ns))) && !ClearsWrap((if insert then '@' else 'P'))
  {}

  lemma ShiftCellsDone(t: Terminal, insert: bool, n: nat, was: Before)
    requires t.Valid() && t.Done(ScreenRuns.ShiftChars(insert, n), was)
    ensures CellsShifted(t, insert, n, was)
  {
    hide Terminal.Valid, Terminal.Done, Terminal.Settings, Terminal.ModesNow, Screen.View, Inserted, Deleted,
      ScreenRuns.Destination, ScreenRuns.ErasedPage, ScreenRuns.FedPage, ScreenRuns.ColumnPage, ScreenRuns.RectanglePage, ScreenRuns.Typed;
    Plainly(t, ScreenRuns.ShiftChars(insert, n), was);
  }

  /** ICH and DCH: from inside the margins the cells from the cursor to the right margin shift; from outside nothing changes. */
  method ShiftCells(t: Terminal, private: bool, ns: seq<nat>, insert: bool) returns (ghost was: Before)
    requires t.Valid() && Printable(ns)
    modifies t, t.screen, t.screen.Footprint(), t.ParserSet()
    ensures t.Valid() && fresh(t.screen.Footprint() - old(t.screen.Footprint())) && Ready(t)
    ensures From(was, old(t.Was()), old(t.parser.utf8Len), old(t.parser.state)) && CellsShifted(t, insert, Count(ns), was)
  {
    hide *;
    ShiftCellsIs(private, ns, insert);
    was := Operate(t, private, ns, (if insert then '@' else 'P') as int, ScreenRuns.ShiftChars(insert, Count(ns)));
    ShiftCellsDone(t, insert, Count(ns), was);
  }

  ghost predicate LinesShifted(t: Terminal, insert: bool, n: nat, was: Before)
    requires t.Valid()
    reads t, t.screen, t.screen.Footprint(), t.ParserSet()
  {
    && t.screen.PageOk(was.page) && t.screen.width > 0
    && var p, width, bg := was.page, t.screen.width, t.screen.style.bg;
       var inside := t.screen.scrollTop <= p.y <= t.screen.scrollBottom && t.screen.WithinHMargins(p.x);
       && t.screen.pendingWrap == (was.deferred && !inside)
       && if !inside then OnlyPage(t, was, p)
          else
            var k, b := Min(n, t.screen.scrollBottom - p.y + 1), t.screen.MarginBox(p.y);
            OnlyPage(t, was, p.(x := t.screen.LeftBound(),
                                rows := if insert then ShiftDown(p.rows, b, k, width, bg) else ShiftUp(p.rows, b, k, width, bg)))
  }

  lemma ShiftLinesIs(private: bool, ns: seq<nat>, insert: bool)
    requires Printable(ns)
    ensures MainOp((if insert then 'L' else 'M'), Marker(private), Sent(ns)) == Some(ScreenRuns.ShiftLines(insert, Count(ns))) && !ClearsWrap((if insert then 'L' else 'M'))
  {}

  lemma ShiftLinesDone(t: Terminal, insert: bool, n: nat, was: Before)
    requires t.Valid() && t.Done(ScreenRuns.ShiftLines(insert, n), was)
    ensures LinesShifted(t, insert, n, was)
  {
    hide Terminal.Valid, Terminal.Done, Terminal.Settings, Terminal.ModesNow, Screen.View, ShiftUp, ShiftDown,
      ScreenRuns.Destination, ScreenRuns.ErasedPage, ScreenRuns.FedPage, ScreenRuns.ColumnPage, ScreenRuns.RectanglePage, ScreenRuns.Typed;
    Plainly(t, ScreenRuns.ShiftLines(insert, n), was);
  }

  /** IL and DL: from inside the region and the margins the lines from the cursor's on shift down or up, and the cursor returns to
      the left margin; from outside nothing changes. */
  method ShiftLines(t: Terminal, private: bool, ns: seq<nat>, insert: bool) returns (ghost was: Before)
    requires t.Valid() && Printable(ns)
    modifies t, t.screen, t.screen.Footprint(), t.ParserSet()
    ensures t.Valid() && fresh(t.screen.Footprint() - old(t.screen.Footprint())) && Ready(t)
    ensures From(was, old(t.Was()), old(t.parser.utf8Len), old(t.parser.state)) && LinesShifted(t, insert, Count(ns), was)
  {
    hide *;
    ShiftLinesIs(private, ns, insert);
    was := Operate(t, private, ns, (if insert then 'L' else 'M') as int, ScreenRuns.ShiftLines(insert, Count(ns)));
    ShiftLinesDone(t, insert, Count(ns), was);
  }

  ghost predicate LinesScrolled(t: Terminal, up: bool, n: nat, was: Before)
    requires t.Valid()
    reads t, t.screen, t.screen.Footprint(), t.ParserSet()
  {
    && t.screen.PageOk(was.page) && t.screen.width > 0 && t.screen.pendingWrap == was.deferred
    && var p, width, bg := was.page, t.screen.width, t.screen.style.bg;
       var k, b := Min(n, t.screen.scrollBottom - t.screen.scrollTop + 1), t.screen.MarginBox(t.screen.scrollTop);
       OnlyPage(t, was, if up then p.(rows := ShiftUp(p.rows, b, k, width, bg),
                                      drained := p.drained + if t.screen.FullScreenScroll() then p.rows[..k] else [])
                        else p.(rows := ShiftDown(p.rows, b, k, width, bg)))
  }

  lemma ScrollLinesIs(private: bool, ns: seq<nat>, f: char)
    requires Printable(ns) && (f == 'S' || f == 'T' || f == '^')
    ensures MainOp(f, Marker(private), Sent(ns)) == Some(ScreenRuns.Scroll(f == 'S', Count(ns))) && !ClearsWrap(f)
  {}

  lemma ScrollLinesDone(t: Terminal, up: bool, n: nat, was: Before)
    requires t.Valid() && t.Done(ScreenRuns.Scroll(up, n), was)
    ensures LinesScrolled(t, up, n, was)
  {
    hide Terminal.Valid, Terminal.Done, Terminal.Settings, Terminal.ModesNow, Screen.View, ShiftUp, ShiftDown,
      ScreenRuns.Destination, ScreenRuns.ErasedPage, ScreenRuns.FedPage, ScreenRuns.ColumnPage, ScreenRuns.RectanglePage, ScreenRuns.Typed;
    Plainly(t, ScreenRuns.Scroll(up, n), was);
  }

  /** SU and SD: the region's lines shift inside the margins, wherever the cursor is; a scroll up of the full screen drains its top rows. */
  method ScrollLines(t: Terminal, private: bool, ns: seq<nat>, f: char) returns (ghost was: Before)
    requires t.Valid() && Printable(ns) && (f == 'S' || f == 'T' || f == '^')
    modifies t, t.screen, t.screen.Footprint(), t.ParserSet()
    ensures t.Valid() && fresh(t.screen.Footprint() - old(t.screen.Footprint())) && Ready(t)
    ensures From(was, old(t.Was()), old(t.parser.utf8Len), old(t.parser.state)) && LinesScrolled(t, f == 'S', Count(ns), was)
  {
    hide *;
    ScrollLinesIs(private, ns, f);
    was := Operate(t, private, ns, f as int, ScreenRuns.Scroll(f == 'S', Count(ns)));
    ScrollLinesDone(t, f == 'S', Count(ns), was);
  }

  /** The bytes that clear a screen: whatever was there, every cell is blank in the pen's background, no row wraps, and
      the cursor is at home. */
  method ClearScreen(t: Terminal)
    requires t.Valid()
    modifies t, t.screen, t.screen.Footprint(), t.ParserSet()
    ensures t.Valid() && t.screen.drained == [] && !t.screen.pendingWrap
    ensures t.screen.View() == Repeat(Line(BlankRow(t.screen.width, t.screen.style.bg), false), t.screen.height)
    ensures t.screen.curY == (if t.screen.originMode then t.screen.scrollTop else 0)
    ensures t.screen.curX == (if t.screen.originMode then t.screen.LeftBound() else 0)
  {
    ghost var _ := MoveCursor(t, false, [], 'H');
    ghost var was := EraseDisplay(t, false, [2]);
  }
}
