/** What the bytes of the other commands do: control characters, escape sequences, and the control sequences that set
    stops, regions, margins, cursors, the pen and modes. */
module Controls {
  import opened Sequences
  import opened Sgr
  import opened Lines
  import opened Grid
  import opened Terminal
  import opened ByteRuns
  import opened Commands
  import Columns
  import Erasing
  import Motion
  import Params
  import Parser
  import ParserTable
  import ScreenRuns
  import SgrRoundTrip

  /** The page, the deferred wrap and the setting are these. */
  ghost predicate Becomes(t: Terminal, page: Page, deferred: bool, setting: Setting)
    requires t.Valid()
    reads t, t.screen, t.screen.Footprint(), t.ParserSet()
  {
    t.screen.Now() == page && t.screen.pendingWrap == deferred && t.Settings() == setting
  }

  /** The same character sets beside another setting of the screen. */
  ghost function Beside(was: Before, to: ScreenRuns.ScreenSetting): Setting { was.setting.(screen := to) }

  lemma Rearranging(t: Terminal, op: ScreenRuns.Op, was: Before)
    requires t.Valid() && t.Done(op, was) && ScreenRuns.Rearranges(op)
    ensures t.screen.Valid() && t.screen.PageOk(was.page) && t.screen.height > 0 && t.screen.width > 0
    ensures ScreenRuns.Rearranged(t.screen, op, was.page, was.deferred, was.setting.screen)
    ensures forall p, d, to :: ScreenRuns.OnlySet(t.screen, p, d, to) ==> Becomes(t, p, d, Beside(was, to))
  {
    t.SettingHere();
    t.screen.HasSize();
    hide Terminal.Valid, ScreenRuns.Rearranged, Screen.PageOk, ScreenRuns.SettingOf, Terminal.ModesNow, Screen.Now;
  }

  // ---- stops, regions and margins ----

  /** The stop at the cursor's column is set or cleared; no other column changes, and nothing else does. */
  ghost predicate StopChanged(t: Terminal, on: bool, was: Before)
    requires t.Valid()
    reads t, t.screen, t.screen.Footprint(), t.ParserSet()
  {
    && Becomes(t, was.page, was.deferred, Beside(was, was.setting.screen.(stops := t.screen.tabStops)))
    && forall c :: 0 < c < t.screen.width ==>
         (Motion.IsStop(t.screen, c) <==> if c == was.page.x then on else Motion.StopIn(was.setting.screen.stops, c))
  }

  lemma StopDone(t: Terminal, on: bool, was: Before)
    requires t.Valid() && t.Done(ScreenRuns.TabStop(on), was)
    ensures StopChanged(t, on, was)
  {
    hide Terminal.Valid, Terminal.Done, Becomes, ScreenRuns.OnlySet, Screen.Now;
    Rearranging(t, ScreenRuns.TabStop(on), was);
  }

  lemma StopsDone(t: Terminal, was: Before)
    requires t.Valid() && t.Done(ScreenRuns.ClearTabs, was)
    ensures Becomes(t, was.page, was.deferred, Beside(was, was.setting.screen.(stops := t.screen.tabStops)))
    ensures forall c: nat :: !Motion.IsStop(t.screen, c)
  {
    hide Terminal.Valid, Terminal.Done, Becomes, ScreenRuns.OnlySet, Screen.Now;
    Rearranging(t, ScreenRuns.ClearTabs, was);
  }

  lemma ClearStopsIs(private: bool, ns: seq<nat>)
    requires Printable(ns)
    ensures Number(ns, 0) == 0 ==> MainOp('g', Marker(private), Sent(ns)) == Some(ScreenRuns.TabStop(false))
    ensures Number(ns, 0) == 3 ==> MainOp('g', Marker(private), Sent(ns)) == Some(ScreenRuns.ClearTabs)
    ensures !ClearsWrap('g')
  {}

  /** TBC 0: the stop at the cursor goes. */
  method ClearStop(t: Terminal, private: bool, ns: seq<nat>) returns (ghost was: Before)
    requires t.Valid() && Printable(ns) && Number(ns, 0) == 0
    modifies t, t.screen, t.screen.Footprint(), t.ParserSet()
    ensures t.Valid() && fresh(t.screen.Footprint() - old(t.screen.Footprint())) && Ready(t)
    ensures From(was, old(t.Was()), old(t.parser.utf8Len), old(t.parser.state)) && StopChanged(t, false, was)
  {
    hide *;
    ClearStopsIs(private, ns);
    was := Operate(t, private, ns, 'g' as int, ScreenRuns.TabStop(false));
    StopDone(t, false, was);
  }

  /** TBC 3: every stop goes. */
  method ClearStops(t: Terminal, private: bool, ns: seq<nat>) returns (ghost was: Before)
    requires t.Valid() && Printable(ns) && Number(ns, 0) == 3
    modifies t, t.screen, t.screen.Footprint(), t.ParserSet()
    ensures t.Valid() && fresh(t.screen.Footprint() - old(t.screen.Footprint())) && Ready(t)
    ensures From(was, old(t.Was()), old(t.parser.utf8Len), old(t.parser.state))
    ensures Becomes(t, was.page, was.deferred, Beside(was, was.setting.screen.(stops := t.screen.tabStops)))
    ensures forall c: nat :: !Motion.IsStop(t.screen, c)
  {
    hide *;
    ClearStopsIs(private, ns);
    was := Operate(t, private, ns, 'g' as int, ScreenRuns.ClearTabs);
    StopsDone(t, was);
  }

  /** Rows from `first` to `last`, counted from one and cut at the screen, are the region and the cursor is home; fewer than
      two rows change nothing. */
  ghost predicate RegionSet(t: Terminal, first: nat, last: nat, was: Before)
    requires t.Valid()
    reads t, t.screen, t.screen.Footprint(), t.ParserSet()
  {
    var bottom := Min(last, t.screen.height);
    if first >= bottom || first == 0 then Becomes(t, was.page, was.deferred, was.setting)
    else Becomes(t, was.page.(y := if t.screen.originMode then first - 1 else 0, x := if t.screen.originMode then t.screen.LeftBound() else 0),
                 false, Beside(was, was.setting.screen.(top := first - 1, bottom := bottom - 1)))
  }

  ghost predicate MarginsSet(t: Terminal, first: nat, last: nat, was: Before)
    requires t.Valid()
    reads t, t.screen, t.screen.Footprint(), t.ParserSet()
  {
    var right := Min(last, t.screen.width);
    if first >= right || first == 0 then Becomes(t, was.page, was.deferred, was.setting)
    else Becomes(t, was.page.(y := if t.screen.originMode then t.screen.scrollTop else 0, x := if t.screen.originMode then first - 1 else 0),
                 false, Beside(was, was.setting.screen.(left := first - 1, right := right - 1)))
  }

  lemma RegionDone(t: Terminal, first: nat, last: nat, was: Before)
    requires t.Valid() && first > 0 && t.Done(ScreenRuns.Region(first, last), was)
    ensures RegionSet(t, first, last, was)
  {
    hide Terminal.Valid, Terminal.Done, Becomes, ScreenRuns.OnlySet, Screen.Now;
    Rearranging(t, ScreenRuns.Region(first, last), was);
  }

  lemma MarginsDone(t: Terminal, first: nat, last: nat, was: Before)
    requires t.Valid() && first > 0 && t.Done(ScreenRuns.Margins(first, last), was)
    ensures MarginsSet(t, first, last, was)
  {
    hide Terminal.Valid, Terminal.Done, Becomes, ScreenRuns.OnlySet, Screen.Now;
    Rearranging(t, ScreenRuns.Margins(first, last), was);
  }

  /** The second number, where none or 0 stands for `whole`. */
  function LastOf(ns: seq<nat>, whole: nat): nat { if |ns| < 2 || ns[1] == 0 then whole else ns[1] }

  /** The part of a control sequence that is neither an operation nor a mode. */
  lemma OtherIn(t: Terminal, private: bool, f: char, a: seq<nat>, was: Before)
    requires t.Valid() && t.CarriedFinal(Marker(private), f, a, was.(deferred := was.deferred && !ClearsWrap(f)))
    ensures t.CarriedOther(Marker(private), f, a, if ClearsWrap(f) then was.(deferred := false) else was)
  {
    hide Terminal.Valid, Terminal.Done, Terminal.CarriedMode, Terminal.CarriedOther, MainOp, ModesAfter, AnsiOp, Terminal.ModesNow, ClearsWrap;
  }

  lemma RegionIn(t: Terminal, ns: seq<nat>, was: Before)
    requires t.Valid() && Printable(ns) && t.CarriedOther(Marker(false), 'r', Sent(ns), if ClearsWrap('r') then was.(deferred := false) else was)
    ensures RegionSet(t, Count(ns), LastOf(ns, was.face.kept.height), was)
  {
    hide Terminal.Valid, Terminal.Done, Terminal.CursorDone, Terminal.Set, RegionSet;
    RegionDone(t, Count(ns), LastOf(ns, was.face.kept.height), was);
  }

  /** DECSTBM. */
  method SetRegion(t: Terminal, ns: seq<nat>) returns (ghost was: Before)
    requires t.Valid() && Printable(ns)
    modifies t, t.screen, t.screen.Footprint(), t.ParserSet()
    ensures t.Valid() && fresh(t.screen.Footprint() - old(t.screen.Footprint())) && Ready(t)
    ensures From(was, old(t.Was()), old(t.parser.utf8Len), old(t.parser.state))
    ensures RegionSet(t, Count(ns), LastOf(ns, was.face.kept.height), was)
  {
    hide *;
    was := ControlSequence(t, false, ns, 'r' as int);
    OtherIn(t, false, 'r', Sent(ns), was);
    RegionIn(t, ns, was);
  }

  /** Margins that are set are the bounds of what moves and wraps. */
  ghost predicate Bounded(t: Terminal, first: nat, last: nat)
    requires t.Valid()
    reads t, t.screen, t.screen.Footprint(), t.ParserSet()
  {
    t.screen.width > 0 && (0 < first < Min(last, t.screen.width) ==>
                             t.screen.LeftBound() == first - 1 && t.screen.RightBound() == Min(last, t.screen.width) - 1)
  }

  lemma MarginsBound(t: Terminal, first: nat, last: nat, was: Before)
    requires t.Valid() && first > 0 && t.Done(ScreenRuns.Margins(first, last), was) && was.modes.flags.margins && MarginsSet(t, first, last, was)
    ensures Bounded(t, first, last)
  {
    t.SettingHere();
    t.screen.HasSize();
    hide Terminal.Valid, ScreenRuns.Effect, Screen.Now;
    assert t.ModesNow().flags.margins;
  }

  lemma MarginsIn(t: Terminal, ns: seq<nat>, was: Before)
    requires t.Valid() && Printable(ns) && was.modes.flags.margins
    requires t.CarriedOther(Marker(false), 's', Sent(ns), if ClearsWrap('s') then was.(deferred := false) else was)
    ensures MarginsSet(t, Count(ns), LastOf(ns, was.face.kept.width), was) && Bounded(t, Count(ns), LastOf(ns, was.face.kept.width))
  {
    hide Terminal.Valid, Terminal.Done, Terminal.CursorDone, Terminal.Set, MarginsSet, Bounded;
    MarginsDone(t, Count(ns), LastOf(ns, was.face.kept.width), was);
    MarginsBound(t, Count(ns), LastOf(ns, was.face.kept.width), was);
  }

  /** DECSLRM, in the margin mode. */
  method SetMargins(t: Terminal, ns: seq<nat>) returns (ghost was: Before)
    requires t.Valid() && Printable(ns) && t.ModesNow().flags.margins
    modifies t, t.screen, t.screen.Footprint(), t.ParserSet()
    ensures t.Valid() && fresh(t.screen.Footprint() - old(t.screen.Footprint())) && Ready(t)
    ensures From(was, old(t.Was()), old(t.parser.utf8Len), old(t.parser.state))
    ensures MarginsSet(t, Count(ns), LastOf(ns, was.face.kept.width), was) && Bounded(t, Count(ns), LastOf(ns, was.face.kept.width))
  {
    t.WasHere();
    hide Terminal.Valid, Terminal.ScreenOk, Terminal.Keeps, Terminal.Shown, Terminal.Was, Terminal.ModesNow, Terminal.CarriedFinal,
      Terminal.CarriedOther, Printable, ClearsWrap, MarginsSet, Bounded, Ready, Sent;
    was := ControlSequence(t, false, ns, 's' as int);
    OtherIn(t, false, 's', Sent(ns), was);
    MarginsIn(t, ns, was);
  }

  // ---- repeats ----

  lemma RepeatIn(t: Terminal, private: bool, ns: seq<nat>, was: Before)
    requires t.Valid() && Printable(ns)
    requires t.CarriedFinal(Marker(private), 'b', Sent(ns), was.(deferred := was.deferred && !ClearsWrap('b')))
    ensures t.Repeated(Count(ns), was)
  {
    hide Terminal.Valid, Terminal.Done, Terminal.CarriedMode, Terminal.CarriedOther, MainOp, ModesAfter, AnsiOp, Terminal.ModesNow, Terminal.Repeated;
  }

  /** REP. */
  method RepeatLast(t: Terminal, private: bool, ns: seq<nat>) returns (ghost was: Before)
    requires t.Valid() && Printable(ns)
    modifies t, t.screen, t.screen.Footprint(), t.ParserSet()
    ensures t.Valid() && fresh(t.screen.Footprint() - old(t.screen.Footprint())) && Ready(t)
    ensures From(was, old(t.Was()), old(t.parser.utf8Len), old(t.parser.state)) && t.Repeated(Count(ns), was)
  {
    hide *;
    was := ControlSequence(t, private, ns, 'b' as int);
    RepeatIn(t, private, ns, was);
  }

  /** Where the narrow character last printed fits `n` times up to the right margin: the cells from the cursor on show
      it in its own style, nothing else changes, and the cursor is past them, or at the margin with the next wrap deferred. */
  lemma RepeatedFits(t: Terminal, n: nat, was: Before)
    requires t.Valid() && t.Repeated(n, was) && was.last.ch != 0 && t.runeWidth(was.last.ch) == 1 && !was.deferred
    requires t.screen.width > 0 && !t.screen.insertMode && t.screen.LeftBound() <= was.page.x <= t.screen.RightBound()
    requires was.page.x + n <= t.screen.RightBound() + 1
    ensures var p, glyph := was.page, Cell(was.last.ch, was.last.style, t.screen.link, t.screen.guarded, t.screen.isoGuarded);
      && t.screen.PageOk(p) && t.Settings() == was.setting && t.screen.drained == p.drained && t.screen.curY == p.y
      && (forall y | 0 <= y < t.screen.height :: t.screen.View()[y].wrapped == p.rows[y].wrapped)
      && (forall y, x | 0 <= y < t.screen.height && 0 <= x < t.screen.width ::
            t.screen.View()[y].cells[x] == if y == p.y && p.x <= x < p.x + n then glyph else p.rows[y].cells[x])
      && if p.x + n <= t.screen.RightBound() then t.screen.curX == p.x + n && !t.screen.pendingWrap
         else t.screen.curX == t.screen.RightBound() && t.screen.pendingWrap == t.screen.autoWrap
  {
    hide Terminal.Valid, Screen.AfterAll, Terminal.Settings, Terminal.ModesNow, Screen.View;
    t.SettingHere();
    ScreenRuns.RepeatFits(t.screen, was.page, was.last.ch, was.last.style, n);
  }

  // ---- saved cursors ----

  /** What is kept of the cursor: its place and deferred wrap, the pen's style and guard, the origin mode, the character sets. */
  ghost function Slot(was: Before): SavedCursor {
    SavedCursor(true, was.page.x, was.page.y, was.setting.screen.glyph.style, was.setting.screen.flags.origin, was.deferred,
                was.setting.screen.glyph.guarded)
  }

  /** The cursor and what goes with it are in the slot of the screen shown, and nothing else changed. */
  ghost predicate CursorKept(t: Terminal, was: Before)
    requires t.Valid()
    reads t, t.screen, t.screen.Footprint(), t.ParserSet()
  {
    Becomes(t, was.page, was.deferred,
            was.setting.(screen := was.setting.screen.(slot := Slot(was)), savedSets := was.setting.charsets))
  }

  /** What the slot of the screen shown holds is back, on the screen; with nothing in it the cursor is home and the rest stays. */
  ghost predicate CursorBack(t: Terminal, was: Before)
    requires t.Valid()
    reads t, t.screen, t.screen.Footprint(), t.ParserSet()
  {
    var b, kept := was.setting.screen, was.setting.screen.slot;
    && t.screen.height > 0 && t.screen.width > 0
    && if !kept.valid then Becomes(t, was.page.(x := 0, y := 0), false, was.setting)
       else Becomes(t, was.page.(x := Min(kept.x, t.screen.width - 1), y := Min(kept.y, t.screen.height - 1)), kept.pendingWrap,
                    was.setting.(charsets := was.setting.savedSets,
                                 screen := b.(glyph := b.glyph.(style := kept.style, guarded := kept.guarded),
                                              flags := b.flags.(origin := kept.origin))))
  }

  lemma CursorIsKept(t: Terminal, was: Before)
    requires t.Valid() && t.CursorDone(true, was)
    ensures CursorKept(t, was)
  {
    hide Terminal.Valid, Screen.PageOk, ScreenRuns.SettingOf, Terminal.ModesNow, Screen.Now;
    t.SettingHere();
  }

  lemma CursorIsBack(t: Terminal, was: Before)
    requires t.Valid() && t.CursorDone(false, was)
    ensures CursorBack(t, was)
  {
    hide Terminal.Valid, Screen.PageOk, ScreenRuns.SettingOf, Terminal.ModesNow, Screen.Now;
    t.SettingHere();
    t.screen.HasSize();
  }

  lemma CursorIn(t: Terminal, save: bool, was: Before)
    requires t.Valid() && (save ==> !was.modes.flags.margins)
    requires var f := if save then 's' else 'u';
      t.CarriedOther(Marker(false), f, [0], if ClearsWrap(f) then was.(deferred := false) else was)
    ensures t.CursorDone(save, if save then was else was.(deferred := false))
  {
    hide Terminal.Valid, Terminal.Done, Terminal.CursorDone, Terminal.Set;
  }

  /** SCOSC and SCORC, where CSI s does not set margins. */
  method KeepOrBringCursor(t: Terminal, save: bool) returns (ghost was: Before)
    requires t.Valid() && (save ==> !t.ModesNow().flags.margins)
    modifies t, t.screen, t.screen.Footprint(), t.ParserSet()
    ensures t.Valid() && fresh(t.screen.Footprint() - old(t.screen.Footprint())) && Ready(t)
    ensures From(was, old(t.Was()), old(t.parser.utf8Len), old(t.parser.state))
    ensures if save then CursorKept(t, was) else CursorBack(t, was.(deferred := false))
  {
    t.WasHere();
    hide Terminal.Valid, Terminal.ScreenOk, Terminal.Keeps, Terminal.Shown, Terminal.Was, Terminal.ModesNow, Terminal.CarriedFinal,
      Terminal.CarriedOther, ClearsWrap, CursorKept, CursorBack, Ready, Terminal.CursorDone;
    was := ControlSequence(t, false, [], (if save then 's' else 'u') as int);
    OtherIn(t, false, if save then 's' else 'u', [0], was);
    CursorIn(t, save, was);
    if save { CursorIsKept(t, was); } else { CursorIsBack(t, was.(deferred := false)); }
  }

  // ---- the pen ----

  ghost predicate Styled(t: Terminal, style: Style, was: Before)
    requires t.Valid()
    reads t, t.screen, t.screen.Footprint(), t.ParserSet()
  {
    Becomes(t, was.page, was.deferred, Beside(was, was.setting.screen.(glyph := was.setting.screen.glyph.(style := style))))
  }

  lemma PenIs(t: Terminal, was: Before)
    requires t.Valid() && t.Carried(Parser.Csi(0, None, 'm' as int), was)
    ensures Styled(t, t.parser.pen.style, was)
  {
    hide Terminal.Valid, Terminal.Settings, Screen.Now;
    t.CarriedPen(was);
  }

  /** SGR with any parameters: the pen's style is what the groups make of it, and nothing else changes. */
  method SetStyle(t: Terminal, text: string) returns (ghost was: Before)
    requires t.Valid() && forall i :: 0 <= i < |text| ==> 0x30 <= text[i] as int <= 0x3B
    modifies t, t.screen, t.screen.Footprint(), t.ParserSet()
    ensures t.Valid() && fresh(t.screen.Footprint() - old(t.screen.Footprint())) && Ready(t)
    ensures From(was, old(t.Was()), old(t.parser.utf8Len), old(t.parser.state))
    ensures Styled(t, Apply(Clipped(Params.Keep(Params.GroupsOf(text), Params.MAX_PARAMS)), was.setting.screen.glyph.style), was)
  {
    hide Terminal.Valid, Terminal.ScreenOk, Terminal.Keeps, Terminal.Shown, Terminal.Was, ParserTable.TableOk, Parser.Parser.Valid,
      Apply, Clipped, Params.Keep, Params.GroupsOf, InParameters, Terminal.Carried, Terminal.ModesNow, Styled, Terminal.Settings, From;
    Introduce(t, false);
    Parameters(t, text);
    was := t.Was();
    EndStyle(t, text);
  }

  method EndStyle(t: Terminal, text: string)
    requires t.Valid() && InParameters(t) && t.parser.utf8Len == 0 && t.parser.numInterm == 0 && t.parser.privateMarker == 0 && t.parser.text == text
    modifies t, t.screen, t.screen.Footprint(), t.ParserSet()
    ensures t.Valid() && fresh(t.screen.Footprint() - old(t.screen.Footprint())) && Ready(t)
    ensures var was := old(t.Was());
      Styled(t, Apply(Clipped(Params.Keep(Params.GroupsOf(text), Params.MAX_PARAMS)), was.setting.screen.glyph.style), was)
  {
    hide Terminal.Valid, Terminal.ScreenOk, Terminal.Keeps, Terminal.Shown, Terminal.Was, ParserTable.TableOk, Parser.Parser.Valid,
      Apply, Clipped, Params.Keep, Params.GroupsOf, InParameters, Terminal.Carried, Terminal.ModesNow, Styled, Terminal.Settings;
    ghost var was := t.Was();
    t.StyleHere();
    Finish(t, 'm' as int);
    PenIs(t, was);
  }

  /** The same with single numbers. */
  method SetNumbers(t: Terminal, ns: seq<nat>) returns (ghost was: Before)
    requires t.Valid() && Printable(ns) && ns != []
    modifies t, t.screen, t.screen.Footprint(), t.ParserSet()
    ensures t.Valid() && fresh(t.screen.Footprint() - old(t.screen.Footprint())) && Ready(t)
    ensures From(was, old(t.Was()), old(t.parser.utf8Len), old(t.parser.state))
    ensures Styled(t, Apply(SgrRoundTrip.Singles(ns), was.setting.screen.glyph.style), was)
  {
    hide *;
    PrintedText(ns);
    SinglesAreRead(ns);
    was := SetStyle(t, NumberText(ns));
  }

  lemma SinglesAreRead(ns: seq<nat>)
    requires Printable(ns) && ns != []
    ensures Clipped(Params.Keep(Params.GroupsOf(NumberText(ns)), Params.MAX_PARAMS)) == SgrRoundTrip.Singles(ns)
  {
    SgrRoundTrip.PrintedGroups(ns);
    SgrRoundTrip.FlattenSingles(ns);
    hide SgrRoundTrip.Join, SgrRoundTrip.Strings, Params.GroupsOf;
    Params.KeepAll(SgrRoundTrip.Singles(ns), Params.MAX_PARAMS);
    forall i | 0 <= i < |ns| ensures Clipped(SgrRoundTrip.Singles(ns))[i] == [ns[i]] { assert [ns[i]][..1] == [ns[i]]; }
  }

  // ---- intermediate bytes ----

  lemma CollectedIn(t: Terminal, private: bool, i: Byte, f: char, a: seq<nat>, op: ScreenRuns.Op, was: Before)
    requires t.Valid() && Parser.ConsumesSequence(i) && t.Dispatched(Marker(private), Some(i), f, a, was)
    requires IntermediateOp(i as char, f, a, was.setting.screen.glyph) == Some(op)
    ensures t.Done(op, was)
  {
    hide Terminal.Valid, Terminal.Done, ScreenRuns.Effect, IntermediateOp, Terminal.ModesNow;
  }

  /** With an intermediate byte the sequence stands for the operation, whatever the pen. */
  ghost predicate Means(i: char, f: char, a: seq<nat>, op: ScreenRuns.Op) { forall glyph :: IntermediateOp(i, f, a, glyph) == Some(op) }

  /** A control sequence with an intermediate byte for an operation does that operation. */
  method OperateCollected(t: Terminal, private: bool, ns: seq<nat>, i: char, f: char, ghost op: ScreenRuns.Op) returns (ghost was: Before)
    requires t.Valid() && Printable(ns) && 0x20 <= i as int < 0x30 && 0x40 <= f as int < 0x7F && Parser.ConsumesSequence(i as int)
    requires Means(i, f, Sent(ns), op)
    modifies t, t.screen, t.screen.Footprint(), t.ParserSet()
    ensures t.Valid() && fresh(t.screen.Footprint() - old(t.screen.Footprint())) && Ready(t)
    ensures From(was, old(t.Was()), old(t.parser.utf8Len), old(t.parser.state))
    ensures t.Done(op, was.(deferred := was.deferred && !ClearsWrap(f)))
  {
    hide Terminal.Valid, Terminal.ScreenOk, Terminal.Keeps, Terminal.Shown, Terminal.Was, Terminal.Dispatched, Terminal.Done,
      ClearsWrap, IntermediateOp, Sent, Printable;
    was := CollectedSequence(t, private, ns, i as int, f as int);
    CollectedIn(t, private, i as int, f, Sent(ns), op, was.(deferred := was.deferred && !ClearsWrap(f)));
  }

  ghost predicate ScreenShifted(t: Terminal, left: bool, n: nat, was: Before)
    requires t.Valid()
    reads t, t.screen, t.screen.Footprint(), t.ParserSet()
  {
    && t.screen.PageOk(was.page) && t.screen.width > 0 && t.screen.pendingWrap == was.deferred
    && OnlyPage(t, was, was.page.(rows := Columns.ColumnsShifted(was.page.rows, t.screen.width, t.screen.scrollTop, t.screen.scrollBottom,
                                                                 !left, 0, t.screen.width - 1, n, t.screen.style.bg)))
  }

  lemma ShiftScreenIs(ns: seq<nat>, left: bool)
    requires Printable(ns)
    ensures Means(' ', (if left then '@' else 'A'), Sent(ns), ScreenRuns.ShiftScreen(left, Count(ns)))
    ensures Parser.ConsumesSequence(' ' as int)
  {}

  lemma ShiftScreenDone(t: Terminal, left: bool, n: nat, was: Before)
    requires t.Valid() && t.Done(ScreenRuns.ShiftScreen(left, n), was)
    ensures ScreenShifted(t, left, n, was)
  {
    hide Terminal.Valid, Terminal.Done, Terminal.Settings, Terminal.ModesNow, Screen.View, Columns.ColumnsShifted,
      ScreenRuns.Destination, ScreenRuns.ErasedPage, ScreenRuns.ShiftedPage, ScreenRuns.FedPage, ScreenRuns.RectanglePage, ScreenRuns.Typed;
    Plainly(t, ScreenRuns.ShiftScreen(left, n), was);
  }

  /** SL and SR: whole rows of the region shift, whatever the margins. */
  method ShiftScreen(t: Terminal, private: bool, ns: seq<nat>, left: bool) returns (ghost was: Before)
    requires t.Valid() && Printable(ns)
    modifies t, t.screen, t.screen.Footprint(), t.ParserSet()
    ensures t.Valid() && fresh(t.screen.Footprint() - old(t.screen.Footprint())) && Ready(t)
    ensures From(was, old(t.Was()), old(t.parser.utf8Len), old(t.parser.state))
    ensures ScreenShifted(t, left, Count(ns), was.(deferred := was.deferred && !ClearsWrap((if left then '@' else 'A'))))
  {
    hide *;
    ShiftScreenIs(ns, left);
    was := OperateCollected(t, private, ns, ' ', (if left then '@' else 'A'), ScreenRuns.ShiftScreen(left, Count(ns)));
    ShiftScreenDone(t, left, Count(ns), was.(deferred := was.deferred && !ClearsWrap((if left then '@' else 'A'))));
  }

  ghost predicate ColumnsMoved(t: Terminal, insert: bool, n: nat, was: Before)
    requires t.Valid()
    reads t, t.screen, t.screen.Footprint(), t.ParserSet()
  {
    && t.screen.PageOk(was.page) && t.screen.width > 0 && t.screen.pendingWrap == was.deferred
    && var p, right := was.page, t.screen.RightBound();
       OnlyPage(t, was,
         if !(t.screen.scrollTop <= p.y <= t.screen.scrollBottom) || !t.screen.WithinHMargins(p.x) || n == 0 then p
         else p.(rows := Columns.ColumnsShifted(p.rows, t.screen.width, t.screen.scrollTop, t.screen.scrollBottom,
                                                insert, p.x, right, Min(n, right - p.x + 1), t.screen.style.bg)))
  }

  lemma ShiftColumnsIs(ns: seq<nat>, insert: bool)
    requires Printable(ns)
    ensures Means('\'', (if insert then '}' else '~'), Sent(ns), ScreenRuns.ShiftColumns(insert, Count(ns)))
    ensures Parser.ConsumesSequence('\'' as int)
  {}

  lemma ShiftColumnsDone(t: Terminal, insert: bool, n: nat, was: Before)
    requires t.Valid() && t.Done(ScreenRuns.ShiftColumns(insert, n), was)
    ensures ColumnsMoved(t, insert, n, was)
  {
    hide Terminal.Valid, Terminal.Done, Terminal.Settings, Terminal.ModesNow, Screen.View, Columns.ColumnsShifted,
      ScreenRuns.Destination, ScreenRuns.ErasedPage, ScreenRuns.ShiftedPage, ScreenRuns.FedPage, ScreenRuns.RectanglePage, ScreenRuns.Typed;
    Plainly(t, ScreenRuns.ShiftColumns(insert, n), was);
  }

  /** DECIC and DECDC: from inside the region and the margins every row of the region shifts between the cursor's column and the
      right margin. */
  method ShiftColumns(t: Terminal, private: bool, ns: seq<nat>, insert: bool) returns (ghost was: Before)
    requires t.Valid() && Printable(ns)
    modifies t, t.screen, t.screen.Footprint(), t.ParserSet()
    ensures t.Valid() && fresh(t.screen.Footprint() - old(t.screen.Footprint())) && Ready(t)
    ensures From(was, old(t.Was()), old(t.parser.utf8Len), old(t.parser.state))
    ensures ColumnsMoved(t, insert, Count(ns), was.(deferred := was.deferred && !ClearsWrap((if insert then '}' else '~'))))
  {
    hide *;
    ShiftColumnsIs(ns, insert);
    was := OperateCollected(t, private, ns, '\'', (if insert then '}' else '~'), ScreenRuns.ShiftColumns(insert, Count(ns)));
    ShiftColumnsDone(t, insert, Count(ns), was.(deferred := was.deferred && !ClearsWrap((if insert then '}' else '~'))));
  }

  ghost predicate RectangleFilled(t: Terminal, ns: seq<nat>, was: Before)
    requires t.Valid()
    reads t, t.screen, t.screen.Footprint(), t.ParserSet()
  {
    && t.screen.RegionOk() && t.screen.MarginsOk() && t.screen.pendingWrap == was.deferred
    && var r := Erasing.RectBounds(t.screen, Number(ns, 1), Number(ns, 2), Number(ns, 3), Number(ns, 4));
       OnlyPage(t, was, was.page.(rows :=
         Erasing.Filled(was.page.rows, r, Cell(Max(Number(ns, 0), 0x20), t.screen.style, "", t.screen.guarded, false))))
  }

  lemma FillRectangleIs(ns: seq<nat>)
    requires Printable(ns)
    ensures Means('$', 'x', Sent(ns), ScreenRuns.FillRect(Number(ns, 0), Number(ns, 1), Number(ns, 2), Number(ns, 3), Number(ns, 4)))
    ensures Parser.ConsumesSequence('$' as int)
  {}

  lemma FillRectangleDone(t: Terminal, ns: seq<nat>, was: Before)
    requires t.Valid() && t.Done(ScreenRuns.FillRect(Number(ns, 0), Number(ns, 1), Number(ns, 2), Number(ns, 3), Number(ns, 4)), was)
    ensures RectangleFilled(t, ns, was)
  {
    hide Terminal.Valid, Terminal.Done, Terminal.Settings, Terminal.ModesNow, Screen.View, Erasing.Filled, Erasing.RectBounds,
      ScreenRuns.Destination, ScreenRuns.ErasedPage, ScreenRuns.ShiftedPage, ScreenRuns.FedPage, ScreenRuns.ColumnPage, ScreenRuns.Typed;
    Plainly(t, ScreenRuns.FillRect(Number(ns, 0), Number(ns, 1), Number(ns, 2), Number(ns, 3), Number(ns, 4)), was);
  }

  /** DECFRA: the rectangle is filled with the character in the pen's look, a control character as a blank, and carries no link. */
  method FillRectangle(t: Terminal, private: bool, ns: seq<nat>) returns (ghost was: Before)
    requires t.Valid() && Printable(ns)
    modifies t, t.screen, t.screen.Footprint(), t.ParserSet()
    ensures t.Valid() && fresh(t.screen.Footprint() - old(t.screen.Footprint())) && Ready(t)
    ensures From(was, old(t.Was()), old(t.parser.utf8Len), old(t.parser.state))
    ensures RectangleFilled(t, ns, was.(deferred := was.deferred && !ClearsWrap('x')))
  {
    hide *;
    FillRectangleIs(ns);
    was := OperateCollected(t, private, ns, '$', 'x', ScreenRuns.FillRect(Number(ns, 0), Number(ns, 1), Number(ns, 2), Number(ns, 3), Number(ns, 4)));
    FillRectangleDone(t, ns, was.(deferred := was.deferred && !ClearsWrap('x')));
  }

  ghost predicate RectangleErased(t: Terminal, ns: seq<nat>, selective: bool, was: Before)
    requires t.Valid()
    reads t, t.screen, t.screen.Footprint(), t.ParserSet()
  {
    && t.screen.RegionOk() && t.screen.MarginsOk() && t.screen.pendingWrap == was.deferred
    && var r := Erasing.RectBounds(t.screen, Number(ns, 0), Number(ns, 1), Number(ns, 2), Number(ns, 3));
       OnlyPage(t, was, was.page.(rows := Erasing.Erased(was.page.rows, r.y1, r.x1, r.y2, r.x2,
                                                         if selective then Erasing.SpareDECSCA else Erasing.EraseAll, t.screen.style.bg)))
  }

  lemma EraseRectangleIs(ns: seq<nat>, selective: bool)
    requires Printable(ns)
    ensures Means('$', (if selective then '{' else 'z'), Sent(ns), ScreenRuns.EraseRect(Number(ns, 0), Number(ns, 1), Number(ns, 2), Number(ns, 3), selective))
    ensures Parser.ConsumesSequence('$' as int)
  {}

  lemma EraseRectangleDone(t: Terminal, ns: seq<nat>, selective: bool, was: Before)
    requires t.Valid() && t.Done(ScreenRuns.EraseRect(Number(ns, 0), Number(ns, 1), Number(ns, 2), Number(ns, 3), selective), was)
    ensures RectangleErased(t, ns, selective, was)
  {
    hide Terminal.Valid, Terminal.Done, Terminal.Settings, Terminal.ModesNow, Screen.View, Erasing.Erased, Erasing.RectBounds,
      ScreenRuns.Destination, ScreenRuns.ErasedPage, ScreenRuns.ShiftedPage, ScreenRuns.FedPage, ScreenRuns.ColumnPage, ScreenRuns.Typed;
    Plainly(t, ScreenRuns.EraseRect(Number(ns, 0), Number(ns, 1), Number(ns, 2), Number(ns, 3), selective), was);
  }

  /** DECERA and DECSERA: the rectangle is erased, and the selective one spares DECSCA-guarded cells. */
  method EraseRectangle(t: Terminal, private: bool, ns: seq<nat>, selective: bool) returns (ghost was: Before)
    requires t.Valid() && Printable(ns)
    modifies t, t.screen, t.screen.Footprint(), t.ParserSet()
    ensures t.Valid() && fresh(t.screen.Footprint() - old(t.screen.Footprint())) && Ready(t)
    ensures From(was, old(t.Was()), old(t.parser.utf8Len), old(t.parser.state))
    ensures RectangleErased(t, ns, selective, was.(deferred := was.deferred && !ClearsWrap((if selective then '{' else 'z'))))
  {
    hide *;
    EraseRectangleIs(ns, selective);
    was := OperateCollected(t, private, ns, '$', (if selective then '{' else 'z'), ScreenRuns.EraseRect(Number(ns, 0), Number(ns, 1), Number(ns, 2), Number(ns, 3), selective));
    EraseRectangleDone(t, ns, selective, was.(deferred := was.deferred && !ClearsWrap((if selective then '{' else 'z'))));
  }

  ghost predicate RectangleCopied(t: Terminal, ns: seq<nat>, was: Before)
    requires t.Valid()
    reads t, t.screen, t.screen.Footprint(), t.ParserSet()
  {
    && t.screen.RegionOk() && t.screen.MarginsOk() && t.screen.PageOk(was.page) && t.screen.pendingWrap == was.deferred
    && var from := Erasing.RectBounds(t.screen, Number(ns, 0), Number(ns, 1), Number(ns, 2), Number(ns, 3));
       var to := Erasing.RectBounds(t.screen, Number(ns, 5), Number(ns, 6), 0, 0);
       OnlyPage(t, was, if from.y1 <= from.y2 && from.x1 <= from.x2
                        then was.page.(rows := Erasing.Copied(was.page.rows, t.screen.width, from, to.y1, to.x1)) else was.page)
  }

  lemma CopyRectangleIs(ns: seq<nat>)
    requires Printable(ns)
    ensures Means('$', 'v', Sent(ns), ScreenRuns.CopyRect(Number(ns, 0), Number(ns, 1), Number(ns, 2), Number(ns, 3), Number(ns, 5), Number(ns, 6)))
    ensures Parser.ConsumesSequence('$' as int)
  {}

  lemma CopyRectangleDone(t: Terminal, ns: seq<nat>, was: Before)
    requires t.Valid() && t.Done(ScreenRuns.CopyRect(Number(ns, 0), Number(ns, 1), Number(ns, 2), Number(ns, 3), Number(ns, 5), Number(ns, 6)), was)
    ensures RectangleCopied(t, ns, was)
  {
    hide Terminal.Valid, Terminal.Done, Terminal.Settings, Terminal.ModesNow, Screen.View, Erasing.Copied, Erasing.RectBounds,
      ScreenRuns.Destination, ScreenRuns.ErasedPage, ScreenRuns.ShiftedPage, ScreenRuns.FedPage, ScreenRuns.ColumnPage, ScreenRuns.Typed;
    Plainly(t, ScreenRuns.CopyRect(Number(ns, 0), Number(ns, 1), Number(ns, 2), Number(ns, 3), Number(ns, 5), Number(ns, 6)), was);
  }

  /** DECCRA: the rectangle of the first four numbers appears at the corner the sixth and seventh give, all at once. */
  method CopyRectangle(t: Terminal, private: bool, ns: seq<nat>) returns (ghost was: Before)
    requires t.Valid() && Printable(ns)
    modifies t, t.screen, t.screen.Footprint(), t.ParserSet()
    ensures t.Valid() && fresh(t.screen.Footprint() - old(t.screen.Footprint())) && Ready(t)
    ensures From(was, old(t.Was()), old(t.parser.utf8Len), old(t.parser.state))
    ensures RectangleCopied(t, ns, was.(deferred := was.deferred && !ClearsWrap('v')))
  {
    hide *;
    CopyRectangleIs(ns);
    was := OperateCollected(t, private, ns, '$', 'v', ScreenRuns.CopyRect(Number(ns, 0), Number(ns, 1), Number(ns, 2), Number(ns, 3), Number(ns, 5), Number(ns, 6)));
    CopyRectangleDone(t, ns, was.(deferred := was.deferred && !ClearsWrap('v')));
  }

  lemma ProtectIn(t: Terminal, private: bool, ns: seq<nat>, was: Before)
    requires t.Valid() && Printable(ns) && t.Dispatched(Marker(private), Some('"' as int), 'q', Sent(ns), was)
    ensures t.Done(ScreenRuns.SetPen(was.setting.screen.glyph.style, was.setting.screen.glyph.link, Number(ns, 0) == 1,
                                     was.setting.screen.glyph.isoGuarded), was)
  {
    hide Terminal.Valid, Terminal.Done, ScreenRuns.Effect, Terminal.ModesNow;
  }

  ghost predicate Protected(t: Terminal, on: bool, was: Before)
    requires t.Valid()
    reads t, t.screen, t.screen.Footprint(), t.ParserSet()
  {
    Becomes(t, was.page, was.deferred, Beside(was, was.setting.screen.(glyph := was.setting.screen.glyph.(guarded := on, ch := 0))))
  }

  lemma ProtectDone(t: Terminal, on: bool, was: Before)
    requires var g := was.setting.screen.glyph; t.Valid() && t.Done(ScreenRuns.SetPen(g.style, g.link, on, g.isoGuarded), was)
    ensures Protected(t, on, was)
  {
    var g := was.setting.screen.glyph;
    hide Terminal.Valid, Terminal.Done, Becomes, ScreenRuns.OnlySet, Screen.Now;
    Rearranging(t, ScreenRuns.SetPen(g.style, g.link, on, g.isoGuarded), was);
  }

  lemma NoWrapCleared(was: Before, f: char)
    requires f == 'q' || f == 'p'
    ensures was.(deferred := was.deferred && !ClearsWrap(f)) == was
  {}

  /** DECSCA: what is printed from now on is guarded against selective erasing, or not. */
  method Protect(t: Terminal, private: bool, ns: seq<nat>) returns (ghost was: Before)
    requires t.Valid() && Printable(ns)
    modifies t, t.screen, t.screen.Footprint(), t.ParserSet()
    ensures t.Valid() && fresh(t.screen.Footprint() - old(t.screen.Footprint())) && Ready(t)
    ensures From(was, old(t.Was()), old(t.parser.utf8Len), old(t.parser.state)) && Protected(t, Number(ns, 0) == 1, was)
  {
    hide *;
    was := CollectedSequence(t, private, ns, '"' as int, 'q' as int);
    NoWrapCleared(was, 'q');
    ProtectIn(t, private, ns, was);
    ProtectDone(t, Number(ns, 0) == 1, was);
  }

  /** Region, margins, modes, pen, saved cursor and character sets as in a new terminal; rows, cursor and stops as they were. */
  ghost predicate SoftlyReset(t: Terminal, was: Before)
    requires t.Valid()
    reads t, t.screen, t.screen.Footprint(), t.ParserSet()
  {
    && t.screen.Now() == was.page && !t.screen.pendingWrap && t.charsets == DEFAULT_SETS && t.singleShift == None
    && t.screen.height > 0 && t.screen.width > 0
    && t.Settings().screen == ScreenRuns.ScreenSetting(
         Cell(0, PLAIN, "", false, false), false, false, ScreenRuns.Flags(false, true, false, false, false),
         0, t.screen.width - 1, 0, t.screen.height - 1, was.setting.screen.stops, ScreenRuns.NO_CURSOR)
  }

  lemma ResetIn(t: Terminal, private: bool, a: seq<nat>, was: Before)
    requires t.Valid() && t.Dispatched(Marker(private), Some('!' as int), 'p', a, was)
    ensures SoftlyReset(t, was)
  {
    t.SettingHere();
    t.screen.HasSize();
    hide Terminal.Valid, Terminal.Done, Terminal.ModesNow, Screen.Now, ScreenRuns.SettingOf, IntermediateOp, Screen.PageOk;
  }

  /** DECSTR. */
  method ResetSoftly(t: Terminal, private: bool, ns: seq<nat>) returns (ghost was: Before)
    requires t.Valid() && Printable(ns)
    modifies t, t.screen, t.screen.Footprint(), t.ParserSet()
    ensures t.Valid() && fresh(t.screen.Footprint() - old(t.screen.Footprint())) && Ready(t)
    ensures From(was, old(t.Was()), old(t.parser.utf8Len), old(t.parser.state)) && SoftlyReset(t, was)
  {
    hide *;
    was := CollectedSequence(t, private, ns, '!' as int, 'p' as int);
    NoWrapCleared(was, 'p');
    ResetIn(t, private, Sent(ns), was);
  }

  // ---- sequences that stand for nothing here ----

  /** No command of the grid ends in `f`: without an intermediate byte, or with one that consumes the sequence. */
  predicate Unused(private: bool, f: char) {
    f !in "@ABCDEFGHIJKLMPSTXZ^`abdefghlrs" && (private || f !in "mu")
  }

  predicate UnusedWith(i: char, f: char) {
    match i
    case ' ' => f != '@' && f != 'A'
    case '!' => f != 'p'
    case '"' => f != 'p' && f != 'q'
    case '$' => f !in "vxz{"
    case '\'' => f != '}' && f != '~'
    case '*' => true
    case _ => false
  }

  lemma UnusedIs(t: Terminal, private: bool, f: char, a: seq<nat>, was: Before)
    requires t.Valid() && Unused(private, f)
    requires t.CarriedFinal(Marker(private), f, a, was.(deferred := was.deferred && !ClearsWrap(f)))
    ensures t.Stays(was.(deferred := was.deferred && !ClearsWrap(f)))
  {
    hide Terminal.Valid, Terminal.Done, Terminal.CarriedMode, Terminal.CarriedOther, ModesAfter, AnsiOp, Terminal.ModesNow, Terminal.Repeated,
      Terminal.Stays, ClearsWrap;
  }

  lemma UnusedWithIs(t: Terminal, private: bool, i: char, f: char, a: seq<nat>, was: Before)
    requires t.Valid() && UnusedWith(i, f)
    requires t.Dispatched(Marker(private), Some(i as int), f, a, was.(deferred := was.deferred && !ClearsWrap(f)))
    ensures t.Stays(was.(deferred := was.deferred && !ClearsWrap(f)))
  {
    hide Terminal.Valid, Terminal.Done, Terminal.CarriedFinal, Terminal.ModesNow, Terminal.Stays, ClearsWrap;
  }

  /** A sequence whose last byte stands for nothing changes nothing, but for the deferred wrap that CSI ? u cancels. */
  method Ignore(t: Terminal, private: bool, ns: seq<nat>, f: char) returns (ghost was: Before)
    requires t.Valid() && Printable(ns) && 0x40 <= f as int < 0x7F && Unused(private, f)
    modifies t, t.screen, t.screen.Footprint(), t.ParserSet()
    ensures t.Valid() && fresh(t.screen.Footprint() - old(t.screen.Footprint())) && Ready(t)
    ensures From(was, old(t.Was()), old(t.parser.utf8Len), old(t.parser.state)) && t.Stays(was.(deferred := was.deferred && f != 'u'))
  {
    hide *;
    was := ControlSequence(t, private, ns, f as int);
    UnusedIs(t, private, f, Sent(ns), was);
    OnlyUClears(private, f);
  }

  lemma OnlyUClears(private: bool, f: char)
    requires Unused(private, f)
    ensures ClearsWrap(f) == (f == 'u')
  {}

  /** The same with an intermediate byte. */
  method IgnoreCollected(t: Terminal, private: bool, ns: seq<nat>, i: char, f: char) returns (ghost was: Before)
    requires t.Valid() && Printable(ns) && 0x20 <= i as int < 0x30 && 0x40 <= f as int < 0x7F && UnusedWith(i, f)
    modifies t, t.screen, t.screen.Footprint(), t.ParserSet()
    ensures t.Valid() && fresh(t.screen.Footprint() - old(t.screen.Footprint())) && Ready(t)
    ensures From(was, old(t.Was()), old(t.parser.utf8Len), old(t.parser.state))
    ensures t.Stays(was.(deferred := was.deferred && f !in "ABCDEFGHfde`aIZu"))
  {
    hide *;
    was := CollectedSequence(t, private, ns, i as int, f as int);
    UnusedWithIs(t, private, i, f, Sent(ns), was);
    ClearsIs(f);
  }

  lemma ClearsIs(f: char)
    ensures ClearsWrap(f) == (f in "ABCDEFGHfde`aIZu")
  {}
}
