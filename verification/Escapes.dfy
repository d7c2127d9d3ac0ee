/** What the bytes of escape sequences, control characters, characters of several bytes, hyperlinks and single modes do. */
module Escapes {
  import opened Sequences
  import opened Sgr
  import opened Lines
  import opened Grid
  import opened Terminal
  import opened ByteRuns
  import opened Commands
  import opened Controls
  import Characters
  import Columns
  import Erasing
  import Motion
  import Params
  import Parser
  import ParserTable
  import ScreenRuns

  // ---- escape sequences ----

  lemma EscapeIn(t: Terminal, f: char, op: ScreenRuns.Op, was: Before)
    requires t.Valid() && t.CarriedEscape(None, f, was) && Terminal.EscapeOp(f) == Some(op)
    ensures t.Done(op, was.(deferred := was.deferred && f != 'D'))
  {
    hide Terminal.Valid, Terminal.Done, Terminal.CursorDone, Terminal.Set, Terminal.IsNew, Designated;
  }

  lemma SimpleEnds(f: char)
    requires f in "DEM69HVWNO78c"
    ensures Parser.EndsEscape(f as int)
  {}

  /** The page one line down: at the region's bottom its lines scroll up, from inside the margins only, and a scroll of the
      full screen drains the top row; elsewhere the cursor moves, at most to the last row. */
  ghost function Lower(s: Screen, p: Page): Page
    requires s.PageOk(p)
    reads s
  {
    if p.y != s.scrollBottom then p.(y := Min(p.y + 1, s.height - 1))
    else if !(s.LeftBound() <= p.x <= s.RightBound()) then p
    else p.(rows := ShiftUp(p.rows, s.MarginBox(s.scrollTop), 1, s.width, s.style.bg),
            drained := p.drained + if s.FullScreenScroll() then [p.rows[0]] else [])
  }

  /** The column a return goes to. */
  function ReturnColumn(s: Screen, x: nat): nat reads s { if x >= s.LeftBound() then s.LeftBound() else 0 }

  ghost predicate MovedDown(t: Terminal, was: Before)
    requires t.Valid()
    reads t, t.screen, t.screen.Footprint(), t.ParserSet()
  {
    t.screen.PageOk(was.page) && OnlyPage(t, was, Lower(t.screen, was.page)) && !t.screen.pendingWrap
  }

  lemma IndexDownDone(t: Terminal, was: Before)
    requires t.Valid() && t.CarriedEscape(None, 'D', was)
    ensures MovedDown(t, was)
  {
    hide Terminal.Valid, Terminal.Done, Terminal.CarriedEscape, Terminal.Settings, Terminal.ModesNow, Screen.View, ShiftUp,
      ScreenRuns.Destination, ScreenRuns.ErasedPage, ScreenRuns.ShiftedPage, ScreenRuns.ColumnPage, ScreenRuns.RectanglePage, ScreenRuns.Typed;
    EscapeIn(t, 'D', ScreenRuns.Down, was);
    Plainly(t, ScreenRuns.Down, was.(deferred := false));
  }

  /** IND: one line down. */
  method IndexDown(t: Terminal) returns (ghost was: Before)
    requires t.Valid()
    modifies t, t.screen, t.screen.Footprint(), t.ParserSet()
    ensures t.Valid() && fresh(t.screen.Footprint() - old(t.screen.Footprint())) && Ready(t)
    ensures From(was, old(t.Was()), old(t.parser.utf8Len), old(t.parser.state)) && MovedDown(t, was)
  {
    hide *;
    SimpleEnds('D');
    was := EscapeSequence(t, 'D' as int);
    IndexDownDone(t, was);
  }

  ghost predicate MovedToNextLine(t: Terminal, was: Before)
    requires t.Valid()
    reads t, t.screen, t.screen.Footprint(), t.ParserSet()
  {
    && t.screen.PageOk(was.page) && !t.screen.pendingWrap
    && OnlyPage(t, was, Lower(t.screen, was.page).(x := ReturnColumn(t.screen, was.page.x)))
  }

  lemma NextLineDone(t: Terminal, was: Before)
    requires t.Valid() && t.CarriedEscape(None, 'E', was)
    ensures MovedToNextLine(t, was)
  {
    hide Terminal.Valid, Terminal.Done, Terminal.CarriedEscape, Terminal.Settings, Terminal.ModesNow, Screen.View, ShiftUp,
      ScreenRuns.Destination, ScreenRuns.ErasedPage, ScreenRuns.ShiftedPage, ScreenRuns.ColumnPage, ScreenRuns.RectanglePage, ScreenRuns.Typed;
    EscapeIn(t, 'E', ScreenRuns.NextLine, was);
    Plainly(t, ScreenRuns.NextLine, was);
  }

  /** NEL: one line down, and back to the left margin, or to the edge from left of it. */
  method NextLine(t: Terminal) returns (ghost was: Before)
    requires t.Valid()
    modifies t, t.screen, t.screen.Footprint(), t.ParserSet()
    ensures t.Valid() && fresh(t.screen.Footprint() - old(t.screen.Footprint())) && Ready(t)
    ensures From(was, old(t.Was()), old(t.parser.utf8Len), old(t.parser.state)) && MovedToNextLine(t, was)
  {
    hide *;
    SimpleEnds('E');
    was := EscapeSequence(t, 'E' as int);
    NextLineDone(t, was);
  }

  ghost predicate MovedUp(t: Terminal, was: Before)
    requires t.Valid()
    reads t, t.screen, t.screen.Footprint(), t.ParserSet()
  {
    && t.screen.PageOk(was.page) && t.screen.width > 0 && !t.screen.pendingWrap
    && var p := was.page;
       OnlyPage(t, was, if p.y != t.screen.scrollTop then p.(y := Max(p.y - 1, 0))
                        else if !t.screen.WithinHMargins(p.x) then p
                        else p.(rows := ShiftDown(p.rows, t.screen.MarginBox(t.screen.scrollTop), 1, t.screen.width, t.screen.style.bg)))
  }

  lemma IndexUpDone(t: Terminal, was: Before)
    requires t.Valid() && t.CarriedEscape(None, 'M', was)
    ensures MovedUp(t, was)
  {
    hide Terminal.Valid, Terminal.Done, Terminal.CarriedEscape, Terminal.Settings, Terminal.ModesNow, Screen.View, ShiftDown,
      ScreenRuns.Destination, ScreenRuns.ErasedPage, ScreenRuns.ShiftedPage, ScreenRuns.ColumnPage, ScreenRuns.RectanglePage, ScreenRuns.Typed;
    EscapeIn(t, 'M', ScreenRuns.ReverseIndex, was);
    Plainly(t, ScreenRuns.ReverseIndex, was);
  }

  /** RI: one line up; at the region's top its lines scroll down, from inside the margins only. */
  method IndexUp(t: Terminal) returns (ghost was: Before)
    requires t.Valid()
    modifies t, t.screen, t.screen.Footprint(), t.ParserSet()
    ensures t.Valid() && fresh(t.screen.Footprint() - old(t.screen.Footprint())) && Ready(t)
    ensures From(was, old(t.Was()), old(t.parser.utf8Len), old(t.parser.state)) && MovedUp(t, was)
  {
    hide *;
    SimpleEnds('M');
    was := EscapeSequence(t, 'M' as int);
    IndexUpDone(t, was);
  }

  ghost predicate MovedSideways(t: Terminal, back: bool, was: Before)
    requires t.Valid()
    reads t, t.screen, t.screen.Footprint(), t.ParserSet()
  {
    && t.screen.PageOk(was.page) && t.screen.width > 0 && !t.screen.pendingWrap
    && var p, left, right := was.page, t.screen.LeftBound(), t.screen.RightBound();
       OnlyPage(t, was,
         if p.x == (if back then left else right) then
           p.(rows := Columns.ColumnsShifted(p.rows, t.screen.width, t.screen.scrollTop, t.screen.scrollBottom, back, left, right, 1, t.screen.style.bg))
         else p.(x := if back then Max(p.x - 1, 0) else Min(p.x + 1, t.screen.width - 1)))
  }

  lemma IndexSidewaysDone(t: Terminal, back: bool, was: Before)
    requires t.Valid() && t.CarriedEscape(None, (if back then '6' else '9'), was)
    ensures MovedSideways(t, back, was)
  {
    hide Terminal.Valid, Terminal.Done, Terminal.CarriedEscape, Terminal.Settings, Terminal.ModesNow, Screen.View, Columns.ColumnsShifted,
      ScreenRuns.Destination, ScreenRuns.ErasedPage, ScreenRuns.ShiftedPage, ScreenRuns.FedPage, ScreenRuns.RectanglePage, ScreenRuns.Typed;
    EscapeIn(t, (if back then '6' else '9'), ScreenRuns.Index(back), was);
    Plainly(t, ScreenRuns.Index(back), was);
  }

  /** DECBI and DECFI: one column back or forward; at the margin the region's columns shift away from it instead. */
  method IndexSideways(t: Terminal, back: bool) returns (ghost was: Before)
    requires t.Valid()
    modifies t, t.screen, t.screen.Footprint(), t.ParserSet()
    ensures t.Valid() && fresh(t.screen.Footprint() - old(t.screen.Footprint())) && Ready(t)
    ensures From(was, old(t.Was()), old(t.parser.utf8Len), old(t.parser.state)) && MovedSideways(t, back, was)
  {
    hide *;
    SimpleEnds((if back then '6' else '9'));
    was := EscapeSequence(t, (if back then '6' else '9') as int);
    IndexSidewaysDone(t, back, was);
  }

  lemma SetStopDone(t: Terminal, was: Before)
    requires t.Valid() && t.CarriedEscape(None, 'H', was)
    ensures StopChanged(t, true, was)
  {
    hide Terminal.Valid, Terminal.Done, Terminal.CarriedEscape, StopChanged;
    EscapeIn(t, 'H', ScreenRuns.TabStop(true), was);
    StopDone(t, true, was);
  }

  /** HTS: a stop at the cursor. */
  method SetStop(t: Terminal) returns (ghost was: Before)
    requires t.Valid()
    modifies t, t.screen, t.screen.Footprint(), t.ParserSet()
    ensures t.Valid() && fresh(t.screen.Footprint() - old(t.screen.Footprint())) && Ready(t)
    ensures From(was, old(t.Was()), old(t.parser.utf8Len), old(t.parser.state)) && StopChanged(t, true, was)
  {
    hide *;
    SimpleEnds('H');
    was := EscapeSequence(t, 'H' as int);
    SetStopDone(t, was);
  }

  lemma SlotDone(t: Terminal, save: bool, was: Before)
    requires t.Valid() && t.CarriedEscape(None, if save then '7' else '8', was)
    ensures if save then CursorKept(t, was) else CursorBack(t, was)
  {
    hide Terminal.Valid, Terminal.Done, Terminal.CursorDone, Terminal.Set, Terminal.IsNew, Designated, CursorKept, CursorBack;
    if save { CursorIsKept(t, was); } else { CursorIsBack(t, was); }
  }

  /** DECSC and DECRC. */
  method SaveOrRestore(t: Terminal, save: bool) returns (ghost was: Before)
    requires t.Valid()
    modifies t, t.screen, t.screen.Footprint(), t.ParserSet()
    ensures t.Valid() && fresh(t.screen.Footprint() - old(t.screen.Footprint())) && Ready(t)
    ensures From(was, old(t.Was()), old(t.parser.utf8Len), old(t.parser.state)) && if save then CursorKept(t, was) else CursorBack(t, was)
  {
    hide *;
    SimpleEnds(if save then '7' else '8');
    was := EscapeSequence(t, (if save then '7' else '8') as int);
    SlotDone(t, save, was);
  }

  /** The ISO guard of what is printed from now on. */
  ghost predicate Guarded(t: Terminal, on: bool, was: Before)
    requires t.Valid()
    reads t, t.screen, t.screen.Footprint(), t.ParserSet()
  {
    Becomes(t, was.page, was.deferred, Beside(was, was.setting.screen.(glyph := was.setting.screen.glyph.(isoGuarded := on))))
  }

  lemma GuardDone(t: Terminal, on: bool, was: Before)
    requires t.Valid() && t.CarriedEscape(None, if on then 'V' else 'W', was)
    ensures Guarded(t, on, was)
  {
    hide Terminal.Valid, Terminal.Done, Terminal.CursorDone, Terminal.IsNew, Designated, Terminal.Settings, Screen.Now;
  }

  /** SPA and EPA. */
  method Guard(t: Terminal, on: bool) returns (ghost was: Before)
    requires t.Valid()
    modifies t, t.screen, t.screen.Footprint(), t.ParserSet()
    ensures t.Valid() && fresh(t.screen.Footprint() - old(t.screen.Footprint())) && Ready(t)
    ensures From(was, old(t.Was()), old(t.parser.utf8Len), old(t.parser.state)) && Guarded(t, on, was)
  {
    hide *;
    SimpleEnds(if on then 'V' else 'W');
    was := EscapeSequence(t, (if on then 'V' else 'W') as int);
    GuardDone(t, on, was);
  }

  lemma ShiftDone(t: Terminal, f: char, was: Before)
    requires t.Valid() && t.CarriedEscape(None, f, was) && (f == 'N' || f == 'O')
    ensures Becomes(t, was.page, was.deferred, was.setting) && t.singleShift == Some(if f == 'N' then 2 else 3)
  {
    hide Terminal.Valid, Terminal.Done, Terminal.CursorDone, Terminal.IsNew, Designated, Terminal.Settings, Screen.Now;
  }

  /** SS2 and SS3: the next character is read in the third or the fourth set. */
  method ShiftOnce(t: Terminal, f: char) returns (ghost was: Before)
    requires t.Valid() && (f == 'N' || f == 'O')
    modifies t, t.screen, t.screen.Footprint(), t.ParserSet()
    ensures t.Valid() && fresh(t.screen.Footprint() - old(t.screen.Footprint())) && Ready(t)
    ensures From(was, old(t.Was()), old(t.parser.utf8Len), old(t.parser.state))
    ensures Becomes(t, was.page, was.deferred, was.setting) && t.singleShift == Some(if f == 'N' then 2 else 3)
  {
    hide *;
    SimpleEnds(f);
    was := EscapeSequence(t, f as int);
    ShiftDone(t, f, was);
  }

  lemma NewDone(t: Terminal, was: Before)
    requires t.Valid() && t.CarriedEscape(None, 'c', was)
    ensures t.IsNew()
  {
    hide Terminal.Valid, Terminal.Done, Terminal.CursorDone, Terminal.IsNew, Designated, Terminal.Set;
  }

  /** RIS: from any terminal, in the middle of anything, the blank main screen of a new one. */
  method ResetAll(t: Terminal)
    requires t.Valid()
    modifies t, t.screen, t.screen.Footprint(), t.ParserSet()
    ensures t.Valid() && Ready(t) && !t.screen.inAlt && t.screen.saved == None && t.charsets == DEFAULT_SETS && t.singleShift == None
    ensures t.screen.curX == 0 && t.screen.curY == 0 && t.screen.drained == [] && !t.screen.pendingWrap
    ensures t.screen.View() == Repeat(Line(BlankRow(t.screen.width, DEFAULT), false), t.screen.height)
  {
    hide Terminal.Valid, Terminal.ScreenOk, Terminal.Keeps, Terminal.Shown, Terminal.Was, Terminal.CarriedEscape, Parser.EndsEscape, Ready;
    SimpleEnds('c');
    ghost var was := EscapeSequence(t, 'c' as int);
    NewDone(t, was);
  }

  lemma AlignedDone(t: Terminal, was: Before)
    requires t.Valid() && t.CarriedEscape(Some('#' as int), '8', was)
    ensures Aligned(t, was)
  {
    hide Terminal.Valid, Terminal.Done, Terminal.Set, Designated, Becomes, ScreenRuns.OnlySet, Screen.Now, Erasing.Filled;
    Rearranging(t, ScreenRuns.Align, was);
  }

  /** Every cell is an E in the default look, region and margins are the screen, and the cursor is at home. */
  ghost predicate Aligned(t: Terminal, was: Before)
    requires t.Valid()
    reads t, t.screen, t.screen.Footprint(), t.ParserSet()
  {
    var b := was.setting.screen;
    && t.screen.height > 0 && t.screen.width > 0
    && Becomes(t, Page(Erasing.Filled(was.page.rows, Erasing.Rect(0, 0, t.screen.height - 1, t.screen.width - 1), Cell('E' as nat, PLAIN, "", false, false)),
                       was.page.drained, 0, 0), false,
               Beside(was, b.(flags := b.flags.(margins := false), left := 0, right := t.screen.width - 1, top := 0, bottom := t.screen.height - 1)))
  }

  /** DECALN. */
  method AlignScreen(t: Terminal) returns (ghost was: Before)
    requires t.Valid()
    modifies t, t.screen, t.screen.Footprint(), t.ParserSet()
    ensures t.Valid() && fresh(t.screen.Footprint() - old(t.screen.Footprint())) && Ready(t)
    ensures From(was, old(t.Was()), old(t.parser.utf8Len), old(t.parser.state)) && Aligned(t, was)
  {
    hide *;
    was := CollectedEscape(t, '#' as int, '8' as int);
    AlignedDone(t, was);
  }

  /** One of the four sets is the one named, and the others stay. */
  ghost predicate SetNamed(t: Terminal, g: nat, set_: Charset, was: Before)
    requires t.Valid() && g < 4
    reads t, t.screen, t.screen.Footprint(), t.ParserSet()
  {
    && |was.setting.charsets.sets| == 4
    && Becomes(t, was.page, was.deferred, was.setting.(charsets := was.setting.charsets.(sets := was.setting.charsets.sets[g := set_])))
  }

  lemma NamedDone(t: Terminal, g: nat, f: char, was: Before)
    requires t.Valid() && g < 4 && t.CarriedEscape(Some(0x28 + g), f, was)
    ensures SetNamed(t, g, if f == '0' then Graphic else if f == 'A' then Uk else Us, was)
  {
    SetsHere(t, g, f, was);
    hide Terminal.Valid, Terminal.Done, Terminal.CursorDone, Terminal.IsNew, Terminal.Settings, Screen.Now;
  }

  lemma SetsHere(t: Terminal, g: nat, f: char, was: Before)
    requires t.Valid() && g < 4 && t.CarriedEscape(Some(0x28 + g), f, was)
    ensures |was.setting.charsets.sets| == 4
  {}

  /** SCS: ESC ( to ESC + with 0 for line drawing, A for the pound sign, anything else for ASCII. */
  method NameSet(t: Terminal, g: nat, f: char) returns (ghost was: Before)
    requires t.Valid() && g < 4 && 0x30 <= f as int < 0x7F
    modifies t, t.screen, t.screen.Footprint(), t.ParserSet()
    ensures t.Valid() && fresh(t.screen.Footprint() - old(t.screen.Footprint())) && Ready(t)
    ensures From(was, old(t.Was()), old(t.parser.utf8Len), old(t.parser.state))
    ensures SetNamed(t, g, if f == '0' then Graphic else if f == 'A' then Uk else Us, was)
  {
    hide *;
    was := CollectedEscape(t, 0x28 + g, f as int);
    NamedDone(t, g, f, was);
  }

  lemma IgnoredDone(t: Terminal, f: char, was: Before)
    requires t.Valid() && t.CarriedEscape(None, f, was) && f !in "78DEHMNOVWc69"
    ensures t.Stays(was)
  {
    hide Terminal.Valid, Terminal.Done, Terminal.CursorDone, Terminal.Set, Terminal.IsNew, Terminal.Stays;
  }

  /** An escape sequence whose last byte stands for nothing changes nothing. */
  method Ignore(t: Terminal, f: char) returns (ghost was: Before)
    requires t.Valid() && f as int < 0x7F && Parser.EndsEscape(f as int) && f !in "78DEHMNOVWc69"
    modifies t, t.screen, t.screen.Footprint(), t.ParserSet()
    ensures t.Valid() && fresh(t.screen.Footprint() - old(t.screen.Footprint())) && Ready(t)
    ensures From(was, old(t.Was()), old(t.parser.utf8Len), old(t.parser.state)) && t.Stays(was)
  {
    hide *;
    was := EscapeSequence(t, f as int);
    IgnoredDone(t, f, was);
  }

  // ---- control characters ----

  lemma ControlIn(t: Terminal, b: Byte, op: ScreenRuns.Op, was: Before)
    requires t.Valid() && t.CarriedControl(b, was) && Terminal.ControlOp(b) == Some(op)
    ensures t.Done(op, was)
  {
    hide Terminal.Valid, Terminal.Done, Terminal.Set;
  }

  ghost predicate SteppedBack(t: Terminal, was: Before)
    requires t.Valid()
    reads t, t.screen, t.screen.Footprint(), t.ParserSet()
  {
    && t.screen.width > 0 && t.Settings() == was.setting && t.screen.View() == was.page.rows && t.screen.drained == was.page.drained
    && Motion.PlaceOf(t.screen) == Motion.Back(Motion.Place(was.page.y, was.page.x, was.deferred), Motion.Bounds(t.screen),
                                               t.screen.reverseWrap && t.screen.autoWrap)
  }

  lemma StepBackDone(t: Terminal, was: Before)
    requires t.Valid() && t.CarriedControl(0x08, was)
    ensures SteppedBack(t, was)
  {
    hide Terminal.Valid, Terminal.Done, Terminal.CarriedControl, Terminal.Settings, Terminal.ModesNow, Screen.View, Motion.Back,
      ScreenRuns.ErasedPage, ScreenRuns.ShiftedPage, ScreenRuns.FedPage, ScreenRuns.ColumnPage, ScreenRuns.RectanglePage, ScreenRuns.Typed;
    ControlIn(t, 0x08, ScreenRuns.Backspace, was);
    Plainly(t, ScreenRuns.Backspace, was);
  }

  /** BS: one column back, stopping at the left margin; under reverse wrap on to the end of the row above. */
  method StepBack(t: Terminal)
    requires t.Valid() && Ready(t)
    modifies t, t.screen, t.screen.Footprint(), t.ParserSet()
    ensures t.Valid() && fresh(t.screen.Footprint() - old(t.screen.Footprint())) && Ready(t) && SteppedBack(t, old(t.Was()))
  {
    hide Terminal.Valid, Terminal.ScreenOk, Terminal.Keeps, Terminal.Shown, Terminal.Was, Terminal.CarriedControl, SteppedBack, Ready;
    ghost var was := t.Was();
    ControlByte(t, 0x08);
    StepBackDone(t, was);
  }

  ghost predicate Returned(t: Terminal, was: Before)
    requires t.Valid()
    reads t, t.screen, t.screen.Footprint(), t.ParserSet()
  {
    OnlyMoved(t, was) && t.screen.curY == was.page.y && t.screen.curX == ReturnColumn(t.screen, was.page.x)
  }

  lemma ReturnDone(t: Terminal, was: Before)
    requires t.Valid() && t.CarriedControl(0x0D, was)
    ensures Returned(t, was)
  {
    hide Terminal.Valid, Terminal.Done, Terminal.CarriedControl, Terminal.Settings, Terminal.ModesNow, Screen.View,
      ScreenRuns.ErasedPage, ScreenRuns.ShiftedPage, ScreenRuns.FedPage, ScreenRuns.ColumnPage, ScreenRuns.RectanglePage, ScreenRuns.Typed;
    ControlIn(t, 0x0D, ScreenRuns.CarriageReturn, was);
    Plainly(t, ScreenRuns.CarriageReturn, was);
  }

  /** CR: to the left margin, or to the edge from left of it. */
  method Return(t: Terminal)
    requires t.Valid() && Ready(t)
    modifies t, t.screen, t.screen.Footprint(), t.ParserSet()
    ensures t.Valid() && fresh(t.screen.Footprint() - old(t.screen.Footprint())) && Ready(t) && Returned(t, old(t.Was()))
  {
    hide Terminal.Valid, Terminal.ScreenOk, Terminal.Keeps, Terminal.Shown, Terminal.Was, Terminal.CarriedControl, Returned, Ready;
    ghost var was := t.Was();
    ControlByte(t, 0x0D);
    ReturnDone(t, was);
  }

  ghost predicate Fed(t: Terminal, was: Before)
    requires t.Valid()
    reads t, t.screen, t.screen.Footprint(), t.ParserSet()
  {
    && t.screen.PageOk(was.page) && !t.screen.pendingWrap && t.screen.width > 0
    && OnlyPage(t, was, Lower(t.screen, if t.screen.newLineMode then was.page.(x := 0) else was.page))
  }

  lemma FeedDone(t: Terminal, b: Byte, was: Before)
    requires t.Valid() && t.CarriedControl(b, was) && (b == 0x0A || b == 0x0B || b == 0x0C)
    ensures Fed(t, was)
  {
    hide Terminal.Valid, Terminal.Done, Terminal.CarriedControl, Terminal.Settings, Terminal.ModesNow, Screen.View, ShiftUp,
      ScreenRuns.Destination, ScreenRuns.ErasedPage, ScreenRuns.ShiftedPage, ScreenRuns.ColumnPage, ScreenRuns.RectanglePage, ScreenRuns.Typed;
    ControlIn(t, b, ScreenRuns.LineFeed, was);
    Plainly(t, ScreenRuns.LineFeed, was);
  }

  /** LF, VT and FF: one line down, from column 0 in newline mode. */
  method Feed(t: Terminal, b: Byte)
    requires t.Valid() && Ready(t) && (b == 0x0A || b == 0x0B || b == 0x0C)
    modifies t, t.screen, t.screen.Footprint(), t.ParserSet()
    ensures t.Valid() && fresh(t.screen.Footprint() - old(t.screen.Footprint())) && Ready(t) && Fed(t, old(t.Was()))
  {
    hide Terminal.Valid, Terminal.ScreenOk, Terminal.Keeps, Terminal.Shown, Terminal.Was, Terminal.CarriedControl, Fed, Ready;
    ghost var was := t.Was();
    ControlByte(t, b);
    FeedDone(t, b, was);
  }

  ghost predicate TabbedOn(t: Terminal, was: Before)
    requires t.Valid()
    reads t, t.screen, t.screen.Footprint(), t.ParserSet()
  {
    && t.screen.PageOk(was.page) && t.screen.width > 0 && t.Settings() == was.setting
    && (!was.deferred ==> OnlyMoved(t, was) && t.screen.curY == was.page.y && Motion.OneTabFrom(t.screen, was.page.x))
    && (was.deferred && !t.screen.moreFix ==> t.screen.Now() == was.page && t.screen.pendingWrap)
    && (was.deferred && t.screen.moreFix ==>
          && Motion.OneTabFrom(t.screen, if t.screen.WithinHMargins(was.page.x) then t.screen.LeftBound() else 0)
          && t.screen.curY == Min(was.page.y + 1, t.screen.scrollBottom) && !t.screen.pendingWrap
          && t.screen.ScrolledOnce(was.page.rows, was.page.drained, was.page.y + 1 > t.screen.scrollBottom))
  }

  lemma TabOnDone(t: Terminal, was: Before)
    requires t.Valid() && t.CarriedControl(0x09, was)
    ensures TabbedOn(t, was)
  {
    hide Terminal.Valid, Terminal.Done, Terminal.CarriedControl, Terminal.Settings, Terminal.ModesNow, Screen.View, Motion.OneTabFrom, Screen.ScrolledOnce,
      ScreenRuns.Destination, ScreenRuns.ErasedPage, ScreenRuns.ShiftedPage, ScreenRuns.FedPage, ScreenRuns.ColumnPage, ScreenRuns.RectanglePage;
    ControlIn(t, 0x09, ScreenRuns.Tab, was);
    Plainly(t, ScreenRuns.Tab, was);
  }

  /** HT: to the next stop or the limit before it. A deferred wrap makes it do nothing, or with the more fix is carried out first. */
  method TabOn(t: Terminal)
    requires t.Valid() && Ready(t)
    modifies t, t.screen, t.screen.Footprint(), t.ParserSet()
    ensures t.Valid() && fresh(t.screen.Footprint() - old(t.screen.Footprint())) && Ready(t) && TabbedOn(t, old(t.Was()))
  {
    hide Terminal.Valid, Terminal.ScreenOk, Terminal.Keeps, Terminal.Shown, Terminal.Was, Terminal.CarriedControl, TabbedOn, Ready;
    ghost var was := t.Was();
    ControlByte(t, 0x09);
    TabOnDone(t, was);
  }

  /** The line-drawing set from the grave accent to the tilde, as it looks. */
  const LINE_DRAWING := "◆▒␉␌␍␊°±␤␋┘┐┌└┼⎺⎻─⎼⎽├┤┴┬│≤≥π≠£·"

  /** What a byte is printed as: itself, but for the number sign of the British set and the line-drawing set. */
  lemma ReadIn(b: Byte)
    ensures Translated(Us, b) == b && Translated(Uk, b) == if b == '#' as int then '£' as int else b
    ensures Translated(Graphic, b) == if 0x60 <= b <= 0x7E then LINE_DRAWING[b - 0x60] as int else if b == '_' as int then 0x20 else b
  {}

  /** SO and SI: the second set is in use, or the first. */
  method UseSet(t: Terminal, second: bool)
    requires t.Valid() && Ready(t)
    modifies t, t.screen, t.screen.Footprint(), t.ParserSet()
    ensures t.Valid() && fresh(t.screen.Footprint() - old(t.screen.Footprint())) && Ready(t)
    ensures var was := old(t.Was());
      Becomes(t, was.page, was.deferred, was.setting.(charsets := was.setting.charsets.(gl := if second then 1 else 0)))
  {
    hide Terminal.Valid, Terminal.ScreenOk, Terminal.Keeps, Terminal.Shown, Terminal.Was, Ready, Terminal.Done, Screen.Now, Terminal.Settings;
    ControlByte(t, if second then 0x0E else 0x0F);
  }

  // ---- characters of several bytes ----

  /** The first bytes of a character have been read. */
  predicate Within(t: Terminal, read: seq<Byte>, length: nat) reads t.parser {
    && t.parser.state == ParserTable.GROUND && t.parser.utf8Len == length && t.parser.utf8Got == |read| && t.parser.utf8Buf == read
    && 0 < |read| < length
  }

  method LeadByte(t: Terminal, b: Byte)
    requires t.Valid() && Ready(t) && Characters.IsLead(b)
    modifies t, t.screen, t.screen.Footprint(), t.ParserSet()
    ensures t.Valid() && fresh(t.screen.Footprint() - old(t.screen.Footprint())) && t.Was() == old(t.Was())
    ensures Within(t, [b], Parser.SequenceLength(b))
  {
    hide Terminal.Valid, Terminal.ScreenOk, Terminal.Keeps, Terminal.Shown, Terminal.Was, Terminal.Carried, ParserTable.TableOk, Parser.Parser.Reports;
    t.parser.WhatIsReported(b);
    t.Feed(b);
  }

  method NextByte(t: Terminal, read: seq<Byte>, length: nat, b: Byte)
    requires t.Valid() && Within(t, read, length) && Characters.IsContinuation(b) && |read| + 1 < length
    modifies t, t.screen, t.screen.Footprint(), t.ParserSet()
    ensures t.Valid() && fresh(t.screen.Footprint() - old(t.screen.Footprint())) && t.Was() == old(t.Was()) && Within(t, read + [b], length)
  {
    hide Terminal.Valid, Terminal.ScreenOk, Terminal.Keeps, Terminal.Shown, Terminal.Was, Terminal.Carried, ParserTable.TableOk;
    assert t.parser.Reports(b) == [];
    t.Feed(b);
  }

  method LastByte(t: Terminal, read: seq<Byte>, length: nat, b: Byte)
    requires t.Valid() && Within(t, read, length) && Characters.IsContinuation(b) && |read| + 1 == length
    modifies t, t.screen, t.screen.Footprint(), t.ParserSet()
    ensures t.Valid() && fresh(t.screen.Footprint() - old(t.screen.Footprint())) && Ready(t)
    ensures t.Printed(Parser.DecodeUtf8(read + [b]), old(t.Was()))
  {
    hide Terminal.Valid, Terminal.ScreenOk, Terminal.Keeps, Terminal.Shown, Terminal.Was, Terminal.Done, ParserTable.TableOk, Parser.DecodeUtf8;
    assert t.parser.Reports(b) == [Parser.Rune(Parser.DecodeUtf8(read + [b]))];
    t.Feed(b);
  }

  /** A lead byte and its continuation bytes print the one character they stand for, whatever its length. */
  method TypeSequence(t: Terminal, bytes: seq<Byte>)
    requires t.Valid() && Ready(t) && Characters.WellFormed(bytes)
    modifies t, t.screen, t.screen.Footprint(), t.ParserSet()
    ensures t.Valid() && fresh(t.screen.Footprint() - old(t.screen.Footprint())) && Ready(t)
    ensures t.Printed(Parser.DecodeUtf8(bytes), old(t.Was()))
  {
    hide Terminal.ScreenOk, Terminal.SetsOk, Parser.Parser.Valid, Terminal.Keeps, Terminal.Shown, Terminal.Was, Terminal.Printed, Parser.DecodeUtf8,
      Within, Ready;
    assert bytes[..1] == [bytes[0]];
    LeadByte(t, bytes[0]);
    var n := |bytes| - 1;
    for i := 1 to n
      invariant t.Valid() && fresh(t.screen.Footprint() - old(t.screen.Footprint())) && t.Was() == old(t.Was())
      invariant Within(t, bytes[..i], |bytes|)
    {
      NextByte(t, bytes[..i], |bytes|, bytes[i]);
      assert bytes[..i] + [bytes[i]] == bytes[..i + 1];
    }
    assert bytes[..n] + [bytes[n]] == bytes;
    LastByte(t, bytes[..n], |bytes|, bytes[n]);
  }

  /** A character is printed by its bytes, but for surrogates and U+FFFF, for which the replacement is. */
  method TypeCharacter(t: Terminal, c: nat)
    requires t.Valid() && Ready(t) && 0x80 <= c <= 0x10FFFF
    modifies t, t.screen, t.screen.Footprint(), t.ParserSet()
    ensures t.Valid() && fresh(t.screen.Footprint() - old(t.screen.Footprint())) && Ready(t)
    ensures t.Printed(if Characters.Kept(c) then c else Parser.REPLACEMENT, old(t.Was()))
  {
    hide *;
    Characters.EncodeReadsBack(c);
    TypeSequence(t, Characters.Encode(c));
  }

  // ---- hyperlinks ----

  lemma {:induction false} FindSkips(before: seq<Byte>, after: seq<Byte>, b: Byte)
    requires b !in before
    ensures Find(before + [b] + after, b) == |before|
  {
    if before != [] {
      assert (before + [b] + after)[1..] == before[1..] + [b] + after;
      FindSkips(before[1..], after, b);
    }
  }

  lemma {:induction false} FindNone(s: seq<Byte>, b: Byte)
    requires b !in s
    ensures Find(s, b) == |s|
  {
    if s != [] { FindNone(s[1..], b); }
  }

  /** A command sets the pen's link exactly when its number is 8 and a second semicolon follows. */
  lemma LinksIff(number: seq<Byte>, data: seq<Byte>)
    requires 0x3B !in number && number != []
    ensures LinkAfter(number + [0x3B] + data).Some? <==> Digits(number) == Some(8) && 0x3B in data
  {
    hide Digits, Text;
    FindSkips(number, data, 0x3B);
    var payload := number + [0x3B] + data;
    assert payload[..|number|] == number && payload[|number| + 1..] == data;
    if 0x3B !in data { FindNone(data, 0x3B); }
  }

  /** The link is what comes after it. */
  lemma LinkIs(number: seq<Byte>, params: seq<Byte>, url: seq<Byte>)
    requires 0x3B !in number && number != [] && Digits(number) == Some(8) && 0x3B !in params
    ensures LinkAfter(number + [0x3B] + (params + [0x3B] + url)) == Some(Text(url))
  {
    hide Digits, Text;
    var data := params + [0x3B] + url;
    FindSkips(number, data, 0x3B);
    FindSkips(params, url, 0x3B);
    var payload := number + [0x3B] + data;
    assert payload[..|number|] == number && payload[|number| + 1..] == data && data[|params| + 1..] == url;
  }

  /** An operating-system command is being read. */
  predicate Reading(t: Terminal, payload: seq<Byte>) reads t.parser {
    t.parser.state == ParserTable.OSC_STRING && t.parser.utf8Len == 0 && t.parser.oscBuf == payload && !t.parser.oscOverflow
  }

  method BeginCommand(t: Terminal)
    requires t.Valid() && t.parser.state == ParserTable.ESCAPE && t.parser.utf8Len == 0
    modifies t, t.screen, t.screen.Footprint(), t.ParserSet()
    ensures t.Valid() && fresh(t.screen.Footprint() - old(t.screen.Footprint())) && t.Was() == old(t.Was()) && Reading(t, [])
  {
    hide Terminal.Valid, Terminal.ScreenOk, Terminal.Keeps, Terminal.Shown, Terminal.Was, ParserTable.TableOk, Parser.Parser.Reports;
    t.parser.WhatIsReported(0x5D);
    Silent(t, 0x5D);
  }

  method ReadOne(t: Terminal, payload: seq<Byte>, b: Byte)
    requires t.Valid() && Reading(t, payload) && |payload| < Parser.MAX_OSC_LEN && 0x20 <= b < 0x80
    modifies t, t.screen, t.screen.Footprint(), t.ParserSet()
    ensures t.Valid() && fresh(t.screen.Footprint() - old(t.screen.Footprint())) && t.Was() == old(t.Was()) && Reading(t, payload + [b])
  {
    hide Terminal.Valid, Terminal.ScreenOk, Terminal.Keeps, Terminal.Shown, Terminal.Was, ParserTable.TableOk, Parser.Parser.Reports;
    t.parser.WhatIsReported(b);
    Silent(t, b);
  }

  method ReadAll(t: Terminal, payload: seq<Byte>)
    requires t.Valid() && Reading(t, []) && |payload| <= Parser.MAX_OSC_LEN && forall b :: b in payload ==> 0x20 <= b < 0x80
    modifies t, t.screen, t.screen.Footprint(), t.ParserSet()
    ensures t.Valid() && fresh(t.screen.Footprint() - old(t.screen.Footprint())) && t.Was() == old(t.Was()) && Reading(t, payload)
  {
    hide Terminal.ScreenOk, Terminal.SetsOk, Parser.Parser.Valid, Terminal.Keeps, Terminal.Shown, Terminal.Was, Reading;
    assert payload[..0] == [];
    for i := 0 to |payload|
      invariant t.Valid() && fresh(t.screen.Footprint() - old(t.screen.Footprint())) && t.Was() == old(t.Was()) && Reading(t, payload[..i])
    {
      assert payload[i] in payload;
      ReadOne(t, payload[..i], payload[i]);
      assert payload[..i] + [payload[i]] == payload[..i + 1];
    }
    assert payload[..|payload|] == payload;
  }

  method EndCommand(t: Terminal, payload: seq<Byte>)
    requires t.Valid() && Reading(t, payload)
    modifies t, t.screen, t.screen.Footprint(), t.ParserSet()
    ensures t.Valid() && fresh(t.screen.Footprint() - old(t.screen.Footprint())) && Ready(t)
    ensures t.Carried(Parser.Osc(payload), old(t.Was()))
  {
    hide Terminal.ScreenOk, Terminal.Keeps, Terminal.Shown, Terminal.Was, Terminal.Carried, ParserTable.TableOk, Parser.Parser.Reports;
    t.parser.WhatIsReported(Parser.BEL);
    t.Feed(Parser.BEL);
  }

  lemma CommandDone(t: Terminal, payload: seq<Byte>, was: Before)
    requires t.Valid() && t.Carried(Parser.Osc(payload), was)
    ensures Becomes(t, was.page, was.deferred, Linked(was.setting, LinkAfter(payload)))
  {
    hide Terminal.Valid, Terminal.Shown, Terminal.ModesNow, Terminal.Settings, Screen.Now, LinkAfter, Linked;
  }

  /** Any operating-system command by its bytes: ESC ], the payload, BEL. It changes nothing shown but the pen's link. */
  method Command(t: Terminal, payload: seq<Byte>) returns (ghost was: Before)
    requires t.Valid() && |payload| <= Parser.MAX_OSC_LEN && forall b :: b in payload ==> 0x20 <= b < 0x80
    modifies t, t.screen, t.screen.Footprint(), t.ParserSet()
    ensures t.Valid() && fresh(t.screen.Footprint() - old(t.screen.Footprint())) && Ready(t)
    ensures From(was, old(t.Was()), old(t.parser.utf8Len), old(t.parser.state))
    ensures Becomes(t, was.page, was.deferred, Linked(was.setting, LinkAfter(payload)))
  {
    hide Terminal.Valid, Terminal.ScreenOk, Terminal.Keeps, Terminal.Shown, Terminal.Was, Terminal.Carried, Reading, Becomes, From, Ready;
    Escape(t);
    was := t.Was();
    BeginCommand(t);
    ReadAll(t, payload);
    EndCommand(t, payload);
    CommandDone(t, payload, was);
  }

  // ---- single modes ----

  /** One private mode, with what its operation does. */
  method TurnMode(t: Terminal, mode: nat, on: bool) returns (ghost was: Before)
    requires t.Valid() && mode <= Params.MAX_CSI_ARG_VALUE
    modifies t, t.screen, t.screen.Footprint(), t.ParserSet()
    ensures t.Valid() && fresh(t.screen.Footprint() - old(t.screen.Footprint())) && Ready(t)
    ensures From(was, old(t.Was()), old(t.parser.utf8Len), old(t.parser.state)) && t.CarriedMode(mode, on, was)
  {
    hide Terminal.Valid, Terminal.ScreenOk, Terminal.Keeps, Terminal.Shown, Terminal.Was, Terminal.CarriedMode, Terminal.CarriedOther,
      Terminal.Done, ModesAfter, Ready, Terminal.ModesNow;
    was := ControlSequence(t, true, [mode], (if on then 'h' else 'l') as int);
    NothingCleared(was, on);
  }

  lemma NothingCleared(was: Before, on: bool)
    ensures was.(deferred := was.deferred && !ClearsWrap(if on then 'h' else 'l')) == was
  {}

  lemma IsSmall(mode: nat)
    requires mode < 100
    ensures mode <= Params.MAX_CSI_ARG_VALUE && Printable([mode]) && Sent([mode]) == [mode]
  {}

  lemma ModeIs(t: Terminal, mode: nat, on: bool, was: Before)
    requires t.Valid() && t.CarriedMode(mode, on, was) && ModeOp(mode, on, was).Some?
    ensures t.screen.Valid() && t.screen.height > 0 && t.screen.width > 0
    ensures ScreenRuns.Rearranged(t.screen, ModeOp(mode, on, was).value, was.page, was.deferred, was.setting.screen)
    ensures forall p, d, to :: ScreenRuns.OnlySet(t.screen, p, d, to) ==> Becomes(t, p, d, Beside(was, to))
  {
    t.SettingHere();
    t.screen.HasSize();
    hide Terminal.Valid, ScreenRuns.Rearranged, Screen.PageOk, ScreenRuns.SettingOf, Terminal.ModesNow, Screen.Now, Switched, Terminal.CursorDone;
  }

  /** Origin mode on or off, and the cursor at home. */
  ghost predicate OriginTurned(t: Terminal, on: bool, was: Before)
    requires t.Valid()
    reads t, t.screen, t.screen.Footprint(), t.ParserSet()
  {
    Becomes(t, was.page.(y := if on then t.screen.scrollTop else 0, x := if on then t.screen.LeftBound() else 0), was.deferred,
            Beside(was, was.setting.screen.(flags := was.setting.screen.flags.(origin := on))))
  }

  lemma OriginDone(t: Terminal, on: bool, was: Before)
    requires t.Valid() && t.CarriedMode(6, on, was)
    ensures OriginTurned(t, on, was)
  {
    hide Terminal.Valid, Terminal.CarriedMode, Becomes, Screen.Now;
    ModeIs(t, 6, on, was);
  }

  /** DECOM. */
  method SetOriginMode(t: Terminal, on: bool) returns (ghost was: Before)
    requires t.Valid()
    modifies t, t.screen, t.screen.Footprint(), t.ParserSet()
    ensures t.Valid() && fresh(t.screen.Footprint() - old(t.screen.Footprint())) && Ready(t)
    ensures From(was, old(t.Was()), old(t.parser.utf8Len), old(t.parser.state)) && OriginTurned(t, on, was)
  {
    hide *;
    IsSmall(6);
    was := TurnMode(t, 6, on);
    OriginDone(t, on, was);
  }

  function FlagTo(flags: ScreenRuns.Flags, mode: nat, on: bool): ScreenRuns.Flags {
    if mode == 7 then flags.(autoWrap := on) else if mode == 41 then flags.(moreFix := on) else flags.(reverseWrap := on)
  }

  /** DECAWM, the more fix or reverse wrap is on or off, and nothing else changed. */
  ghost predicate FlagTurned(t: Terminal, mode: nat, on: bool, was: Before)
    requires t.Valid()
    reads t, t.screen, t.screen.Footprint(), t.ParserSet()
  {
    Becomes(t, was.page, was.deferred, Beside(was, was.setting.screen.(flags := FlagTo(was.setting.screen.flags, mode, on))))
  }

  lemma FlagOp(mode: nat, on: bool, was: Before)
    requires mode == 7 || mode == 41 || mode == 45
    ensures var b, flags := was.setting.screen, FlagTo(was.setting.screen.flags, mode, on);
      ModeOp(mode, on, was) == Some(ScreenRuns.SetModes(flags.autoWrap, b.insert, flags.reverseWrap, b.newLine, flags.moreFix))
    ensures var flags := was.setting.screen.flags;
      FlagTo(flags, mode, on) == flags.(autoWrap := FlagTo(flags, mode, on).autoWrap, reverseWrap := FlagTo(flags, mode, on).reverseWrap,
                                        moreFix := FlagTo(flags, mode, on).moreFix)
  {}

  lemma FlagDone(t: Terminal, mode: nat, on: bool, was: Before)
    requires t.Valid() && t.CarriedMode(mode, on, was) && (mode == 7 || mode == 41 || mode == 45)
    ensures FlagTurned(t, mode, on, was)
  {
    hide Terminal.Valid, Terminal.CarriedMode, Becomes, Screen.Now, ScreenRuns.OnlySet, ModeOp, FlagTo;
    FlagOp(mode, on, was);
    ModeIs(t, mode, on, was);
  }

  method SetFlagMode(t: Terminal, mode: nat, on: bool) returns (ghost was: Before)
    requires t.Valid() && (mode == 7 || mode == 41 || mode == 45)
    modifies t, t.screen, t.screen.Footprint(), t.ParserSet()
    ensures t.Valid() && fresh(t.screen.Footprint() - old(t.screen.Footprint())) && Ready(t)
    ensures From(was, old(t.Was()), old(t.parser.utf8Len), old(t.parser.state)) && FlagTurned(t, mode, on, was)
  {
    hide *;
    IsSmall(mode);
    was := TurnMode(t, mode, on);
    FlagDone(t, mode, on, was);
  }

  /** The margin mode on, below level 64 ignored, or off with the margins forgotten. */
  ghost predicate MarginsTurned(t: Terminal, on: bool, was: Before)
    requires t.Valid()
    reads t, t.screen, t.screen.Footprint(), t.ParserSet()
  {
    var b := was.setting.screen;
    && t.screen.width > 0
    && (on && was.modes.level >= 64 ==> Becomes(t, was.page, was.deferred, Beside(was, b.(flags := b.flags.(margins := true)))))
    && (!on ==> Becomes(t, was.page, was.deferred, Beside(was, b.(flags := b.flags.(margins := false), left := 0, right := t.screen.width - 1))))
  }

  lemma MarginsOn(t: Terminal, was: Before)
    requires t.Valid() && t.CarriedMode(69, true, was) && was.modes.level >= 64
    ensures Becomes(t, was.page, was.deferred, Beside(was, was.setting.screen.(flags := was.setting.screen.flags.(margins := true))))
  {
    hide Terminal.Valid, Terminal.CarriedMode, Becomes, Screen.Now, ScreenRuns.OnlySet;
    ModeIs(t, 69, true, was);
  }

  lemma MarginsOff(t: Terminal, was: Before)
    requires t.Valid() && t.CarriedMode(69, false, was)
    ensures t.screen.width > 0
    ensures var b := was.setting.screen;
      Becomes(t, was.page, was.deferred, Beside(was, b.(flags := b.flags.(margins := false), left := 0, right := t.screen.width - 1)))
  {
    hide Terminal.Valid, Terminal.CarriedMode, Becomes, Screen.Now, ScreenRuns.OnlySet;
    ModeIs(t, 69, false, was);
  }

  lemma MarginsDone(t: Terminal, on: bool, was: Before)
    requires t.Valid() && t.CarriedMode(69, on, was)
    ensures MarginsTurned(t, on, was)
  {
    t.SettingHere();
    t.screen.HasSize();
    hide Terminal.Valid, Terminal.CarriedMode, Becomes, Screen.Now;
    if !on { MarginsOff(t, was); } else if was.modes.level >= 64 { MarginsOn(t, was); }
  }

  /** DECLRMM. */
  method SetMarginMode(t: Terminal, on: bool) returns (ghost was: Before)
    requires t.Valid()
    modifies t, t.screen, t.screen.Footprint(), t.ParserSet()
    ensures t.Valid() && fresh(t.screen.Footprint() - old(t.screen.Footprint())) && Ready(t)
    ensures From(was, old(t.Was()), old(t.parser.utf8Len), old(t.parser.state)) && MarginsTurned(t, on, was)
  {
    hide *;
    IsSmall(69);
    was := TurnMode(t, 69, on);
    MarginsDone(t, on, was);
  }

  /** The margins and region are the screen, the cursor is home and, unless mode 95 at level 65 says not to, every row is blank. */
  ghost predicate ColumnsTurned(t: Terminal, was: Before)
    requires t.Valid()
    reads t, t.screen, t.screen.Footprint(), t.ParserSet()
  {
    var b, clear := was.setting.screen, !(was.modes.noClear && was.modes.level >= 65);
    && t.screen.height > 0 && t.screen.width > 0
    && Becomes(t, Page(if clear then Erasing.Erased(was.page.rows, 0, 0, t.screen.height - 1, t.screen.width - 1, Erasing.EraseAll, t.screen.style.bg)
                       else was.page.rows, if clear then [] else was.page.drained, 0, 0), false,
               Beside(was, b.(flags := b.flags.(margins := false), left := 0, right := t.screen.width - 1, top := 0, bottom := t.screen.height - 1)))
  }

  lemma ColumnsDone(t: Terminal, on: bool, was: Before)
    requires t.Valid() && t.CarriedMode(3, on, was)
    ensures ColumnsTurned(t, was)
  {
    hide Terminal.Valid, Terminal.CarriedMode, Becomes, Screen.Now, ScreenRuns.OnlySet, Erasing.Erased;
    ModeIs(t, 3, on, was);
  }

  /** DECCOLM, set or reset. */
  method SetColumnMode(t: Terminal, on: bool) returns (ghost was: Before)
    requires t.Valid()
    modifies t, t.screen, t.screen.Footprint(), t.ParserSet()
    ensures t.Valid() && fresh(t.screen.Footprint() - old(t.screen.Footprint())) && Ready(t)
    ensures From(was, old(t.Was()), old(t.parser.utf8Len), old(t.parser.state)) && ColumnsTurned(t, was)
  {
    hide *;
    IsSmall(3);
    was := TurnMode(t, 3, on);
    ColumnsDone(t, on, was);
  }

  /** Insert mode or newline mode on or off, and nothing else. */
  ghost predicate AnsiTurned(t: Terminal, mode: nat, on: bool, was: Before)
    requires t.Valid()
    reads t, t.screen, t.screen.Footprint(), t.ParserSet()
  {
    var b := was.setting.screen;
    Becomes(t, was.page, was.deferred, Beside(was, if mode == 4 then b.(insert := on) else b.(newLine := on)))
  }

  lemma AnsiIn(t: Terminal, mode: nat, on: bool, was: Before)
    requires t.Valid() && (mode == 4 || mode == 20)
    requires t.CarriedFinal(Marker(false), if on then 'h' else 'l', [mode], was)
    ensures t.Done(AnsiOp(mode, on, was.setting.screen), was)
  {
    hide Terminal.Valid, Terminal.Done, Terminal.CarriedMode, Terminal.CarriedOther, MainOp, ModesAfter, AnsiOp, Terminal.ModesNow;
  }

  lemma AnsiDone(t: Terminal, mode: nat, on: bool, was: Before)
    requires t.Valid() && (mode == 4 || mode == 20) && t.Done(AnsiOp(mode, on, was.setting.screen), was)
    ensures AnsiTurned(t, mode, on, was)
  {
    hide Terminal.Valid, Terminal.Done, Becomes, Screen.Now, ScreenRuns.OnlySet;
    Rearranging(t, AnsiOp(mode, on, was.setting.screen), was);
  }

  /** IRM and LNM. */
  method SetAnsiMode(t: Terminal, mode: nat, on: bool) returns (ghost was: Before)
    requires t.Valid() && (mode == 4 || mode == 20)
    modifies t, t.screen, t.screen.Footprint(), t.ParserSet()
    ensures t.Valid() && fresh(t.screen.Footprint() - old(t.screen.Footprint())) && Ready(t)
    ensures From(was, old(t.Was()), old(t.parser.utf8Len), old(t.parser.state)) && AnsiTurned(t, mode, on, was)
  {
    hide *;
    IsSmall(mode);
    was := ControlSequence(t, false, [mode], (if on then 'h' else 'l') as int);
    NothingCleared(was, on);
    AnsiIn(t, mode, on, was);
    AnsiDone(t, mode, on, was);
  }
}
