/** Whole byte strings: no string of bytes takes the screen out of its bounds, an alternate-screen session between
    any other bytes gives the main screen back, text appears where it is typed, and a printed style is the pen's. */
module ByteRuns {
  import opened Sequences
  import opened Sgr
  import opened Lines
  import opened Grid
  import opened Terminal
  import Erasing
  import Params
  import Parser
  import ParserTable
  import ScreenRuns
  import SgrRoundTrip

  /** Over every byte string, from every terminal: the grid stays well formed and the cursor, the margins, the region
      and the tab stops in bounds, so that nothing is read or written out of range; and unless the bytes switch the
      screen or reset it, what is kept of the main screen stays. */
  method Write(t: Terminal, bytes: seq<Byte>)
    requires t.Valid()
    modifies t, t.screen, t.screen.Footprint(), t.ParserSet()
    ensures t.Valid() && fresh(t.screen.Footprint() - old(t.screen.Footprint())) && Extends(old(t.Keeps()), t.Keeps())
  {
    hide Terminal.ScreenOk, Terminal.Keeps, Terminal.Shown, Terminal.Carried,
      Parser.Parser.Reports, Parser.Parser.Follows;
    for i := 0 to |bytes|
      invariant t.Valid() && fresh(t.screen.Footprint() - old(t.screen.Footprint())) && Extends(old(t.Keeps()), t.Keeps())
    {
      t.Feed(bytes[i]);
    }
  }

  /** What the introducer of a sequence leaves of the terminal that was `was`: all that is kept and every mode; what is
      shown unless a character was cut short; and everything from text between characters. */
  ghost predicate Quiet(t: Terminal, was: Before, pending: nat, state: nat)
    requires t.Valid()
    reads t, t.screen, t.screen.Footprint(), t.ParserSet()
  {
    From(t.Was(), was, pending, state)
  }

  ghost predicate From(now: Before, was: Before, pending: nat, state: nat) {
    && now.face.kept == was.face.kept && now.modes == was.modes
    && (pending == 0 ==> now.face == was.face)
    && (pending == 0 && state == ParserTable.GROUND ==> now == was)
  }

  /** Between characters of text. */
  predicate Ready(t: Terminal) reads t.parser { t.parser.state == ParserTable.GROUND && t.parser.utf8Len == 0 }

  function Marker(private: bool): Byte { if private then '?' as int else 0 }

  /** ESC, whatever came before: a string it ends may set the pen's link, and a character it cuts short is printed as
      its replacement; nothing else of the screen changes. */
  method Escape(t: Terminal)
    requires t.Valid()
    modifies t, t.screen, t.screen.Footprint(), t.ParserSet()
    ensures t.Valid() && fresh(t.screen.Footprint() - old(t.screen.Footprint()))
    ensures t.parser.state == ParserTable.ESCAPE && t.parser.utf8Len == 0
    ensures Quiet(t, old(t.Was()), old(t.parser.utf8Len), old(t.parser.state))
  {
    hide Terminal.ScreenOk, Terminal.Keeps, Terminal.Shown, Terminal.Was, Terminal.Carried, Parser.Parser.Reports;
    if t.parser.utf8Len == 0 { t.parser.WhatIsReported(Parser.ESC); } else { t.parser.CutShort(Parser.ESC); }
    ghost var reports, was := t.parser.Reports(Parser.ESC), t.Was();
    t.WasShown();
    t.WasHere();
    t.Feed(Parser.ESC);
    t.WasShown();
    t.WasHere();
    if |reports| == 1 { t.CarriedQuietly(reports[0], was); }
  }

  /** A byte that reports nothing changes nothing shown. */
  method Silent(t: Terminal, b: Byte)
    requires t.Valid() && t.parser.Reports(b) == [] && b < 0x80
    modifies t, t.screen, t.screen.Footprint(), t.ParserSet()
    ensures t.Valid() && fresh(t.screen.Footprint() - old(t.screen.Footprint()))
    ensures t.parser.Follows(b) && t.parser.EscapeFollows(b) && t.parser.utf8Len == 0 && t.Was() == old(t.Was())
  {
    hide Terminal.ScreenOk, Terminal.Keeps, Terminal.Shown, Terminal.Was, Terminal.Carried, Parser.Parser.Reports, Parser.Parser.Follows;
    t.Feed(b);
  }

  predicate InParameters(t: Terminal) reads t.parser { t.parser.state == ParserTable.CSI_ENTRY || t.parser.state == ParserTable.CSI_PARAM }

  method Bracket(t: Terminal)
    requires t.Valid()
    modifies t, t.screen, t.screen.Footprint(), t.ParserSet()
    ensures t.Valid() && fresh(t.screen.Footprint() - old(t.screen.Footprint()))
    ensures t.parser.state == ParserTable.CSI_ENTRY && t.parser.utf8Len == 0
    ensures Quiet(t, old(t.Was()), old(t.parser.utf8Len), old(t.parser.state))
  {
    hide Terminal.ScreenOk, Terminal.Keeps, Terminal.Shown, Terminal.Was, Parser.Parser.Reports, ParserTable.TableOk;
    Escape(t);
    t.parser.WhatIsReported(0x5B);
    Silent(t, 0x5B);
  }

  /** The introducer of a control sequence, with a private marker or without. */
  method Introduce(t: Terminal, private: bool)
    requires t.Valid()
    modifies t, t.screen, t.screen.Footprint(), t.ParserSet()
    ensures t.Valid() && fresh(t.screen.Footprint() - old(t.screen.Footprint())) && InParameters(t)
    ensures t.parser.text == "" && t.parser.numInterm == 0 && t.parser.privateMarker == Marker(private)
    ensures t.parser.utf8Len == 0 && Quiet(t, old(t.Was()), old(t.parser.utf8Len), old(t.parser.state))
  {
    hide Terminal.ScreenOk, Terminal.Keeps, Terminal.Shown, Terminal.Was, Parser.Parser.Reports, ParserTable.TableOk;
    Bracket(t);
    if private {
      t.parser.WhatIsReported('?' as int);
      Silent(t, '?' as int);
    }
  }

  method Parameter(t: Terminal, b: Byte)
    requires t.Valid() && InParameters(t) && t.parser.utf8Len == 0 && 0x30 <= b <= 0x3B
    modifies t, t.screen, t.screen.Footprint(), t.ParserSet()
    ensures t.Valid() && fresh(t.screen.Footprint() - old(t.screen.Footprint())) && InParameters(t) && t.parser.utf8Len == 0
    ensures t.parser.text == old(t.parser.text) + [b as char]
    ensures t.parser.numInterm == old(t.parser.numInterm) && t.parser.privateMarker == old(t.parser.privateMarker)
    ensures t.Was() == old(t.Was())
  {
    hide Terminal.ScreenOk, Terminal.Keeps, Terminal.Shown, Terminal.Was, Parser.Parser.Reports, ParserTable.TableOk;
    t.parser.WhatIsReported(b);
    Silent(t, b);
  }

  /** The parameter text of a control sequence. */
  method Parameters(t: Terminal, s: string)
    requires t.Valid() && InParameters(t) && t.parser.utf8Len == 0 && t.parser.text == ""
    requires forall i :: 0 <= i < |s| ==> 0x30 <= s[i] as int <= 0x3B
    modifies t, t.screen, t.screen.Footprint(), t.ParserSet()
    ensures t.Valid() && fresh(t.screen.Footprint() - old(t.screen.Footprint())) && InParameters(t) && t.parser.utf8Len == 0
    ensures t.parser.text == s && t.parser.numInterm == old(t.parser.numInterm) && t.parser.privateMarker == old(t.parser.privateMarker)
    ensures t.Was() == old(t.Was())
  {
    hide Terminal.ScreenOk, Terminal.Keeps, Terminal.Shown, Terminal.Was, InParameters, ParserTable.TableOk, Parser.Parser.Valid;
    for i := 0 to |s|
      invariant t.Valid() && fresh(t.screen.Footprint() - old(t.screen.Footprint())) && InParameters(t) && t.parser.utf8Len == 0
      invariant t.parser.text == s[..i]
      invariant t.parser.numInterm == old(t.parser.numInterm) && t.parser.privateMarker == old(t.parser.privateMarker)
      invariant t.Was() == old(t.Was())
    {
      Parameter(t, s[i] as int);
      assert s[..i + 1] == s[..i] + [s[i]];
    }
    assert s[..|s|] == s;
  }

  /** The final byte of a control sequence with no intermediate: its parameters are the values of the text, and it is
      carried out. */
  method Finish(t: Terminal, f: Byte)
    requires t.Valid() && InParameters(t) && t.parser.utf8Len == 0 && t.parser.numInterm == 0 && 0x40 <= f < 0x7F
    modifies t, t.screen, t.screen.Footprint(), t.ParserSet()
    ensures t.Valid() && fresh(t.screen.Footprint() - old(t.screen.Footprint())) && Extends(old(t.Keeps()), t.Keeps())
    ensures t.parser.state == ParserTable.GROUND && t.parser.utf8Len == 0
    ensures t.parser.params.groups == Params.Keep(Params.GroupsOf(old(t.parser.text)), Params.MAX_PARAMS)
    ensures t.Carried(Parser.Csi(old(t.parser.privateMarker), None, f), old(t.Was()))
    ensures f == 'm' as int && old(t.parser.privateMarker) == 0 ==>
      t.parser.pen.style == Apply(Clipped(Params.Keep(Params.GroupsOf(old(t.parser.text)), Params.MAX_PARAMS)), old(t.screen.style))
  {
    hide Terminal.ScreenOk, Terminal.Keeps, Terminal.Shown, Terminal.Was, Terminal.Carried, Parser.Parser.Reports, ParserTable.TableOk,
      Apply, Clipped, Params.Keep, Params.GroupsOf;
    t.parser.WhatIsReported(f);
    t.Feed(f);
  }

  /** A list of numbers as it is printed. */
  function NumberText(ns: seq<nat>): string { if ns == [] then "" else SgrRoundTrip.Join(SgrRoundTrip.Strings(ns)) }

  /** The values that a printed list of numbers stands for: no number at all is one zero. */
  function Sent(ns: seq<nat>): seq<nat> { if ns == [] then [0] else ns }

  /** The values of a printed list of numbers. */
  lemma PrintedValues(ns: seq<nat>)
    requires Printable(ns)
    ensures MainValues(Params.Keep(Params.GroupsOf(NumberText(ns)), Params.MAX_PARAMS)) == Sent(ns)
  {
    if ns == [] {
      NoValues();
      return;
    }
    SgrRoundTrip.PrintedGroups(ns);
    SgrRoundTrip.FlattenSingles(ns);
    hide SgrRoundTrip.Join, SgrRoundTrip.Strings, Params.GroupsOf;
    Params.KeepAll(SgrRoundTrip.Singles(ns), Params.MAX_PARAMS);
  }

  lemma NoValues()
    ensures MainValues(Params.Keep(Params.GroupsOf(""), Params.MAX_PARAMS)) == [0]
  {
    assert Params.Split("", ';') == [""] && Params.Split("", ':') == [""] && Params.Values([""]) == [0];
    assert Params.GroupsOf("") == [[0]];
  }

  ghost function TextValues(t: Terminal): seq<nat>
    reads t.parser
  {
    MainValues(Params.Keep(Params.GroupsOf(t.parser.text), Params.MAX_PARAMS))
  }

  predicate Printable(ns: seq<nat>) { |ns| <= Params.MAX_PARAMS && forall n :: n in ns ==> n <= Params.MAX_CSI_ARG_VALUE }

  lemma PrintedText(ns: seq<nat>)
    requires Printable(ns)
    ensures var s := NumberText(ns); forall i :: 0 <= i < |s| ==> 0x30 <= s[i] as int <= 0x3B
  {
    if ns != [] { Parser.PrintedText(ns); }
  }

  /** ESC [, a private marker or none, and numbers. */
  method Numbers(t: Terminal, private: bool, ns: seq<nat>)
    requires t.Valid() && Printable(ns)
    modifies t, t.screen, t.screen.Footprint(), t.ParserSet()
    ensures t.Valid() && fresh(t.screen.Footprint() - old(t.screen.Footprint())) && InParameters(t) && t.parser.utf8Len == 0
    ensures TextValues(t) == Sent(ns) && t.parser.numInterm == 0 && t.parser.privateMarker == Marker(private)
    ensures Quiet(t, old(t.Was()), old(t.parser.utf8Len), old(t.parser.state))
  {
    hide Terminal.ScreenOk, Terminal.Keeps, Terminal.Shown, Terminal.Was, ParserTable.TableOk, Parser.Parser.Valid, InParameters,
      Params.Keep, Params.GroupsOf, NumberText, MainValues;
    PrintedText(ns);
    PrintedValues(ns);
    Introduce(t, private);
    Parameters(t, NumberText(ns));
  }

  method FinishPlain(t: Terminal, private: bool, f: Byte)
    requires t.Valid() && InParameters(t) && t.parser.utf8Len == 0 && t.parser.numInterm == 0 && 0x40 <= f < 0x7F
    requires t.parser.privateMarker == Marker(private)
    modifies t, t.screen, t.screen.Footprint(), t.ParserSet()
    ensures t.Valid() && fresh(t.screen.Footprint() - old(t.screen.Footprint())) && Extends(old(t.Keeps()), t.Keeps()) && Ready(t)
    ensures var was := old(t.Was());
      t.CarriedFinal(Marker(private), f as char, old(TextValues(t)), was.(deferred := was.deferred && !ClearsWrap(f as char)))
  {
    hide Terminal.Valid, Terminal.ScreenOk, Terminal.Keeps, Terminal.Shown, Terminal.Was, Terminal.CarriedFinal, ParserTable.TableOk,
      Params.Keep, Params.GroupsOf, MainValues, InParameters, ClearsWrap;
    Finish(t, f);
  }

  /** Any control sequence without an intermediate byte, with any numbers, written in the middle of anything: it is
      carried out with exactly those numbers, on the terminal as it is once a character cut short is printed. */
  method ControlSequence(t: Terminal, private: bool, ns: seq<nat>, f: Byte) returns (ghost was: Before)
    requires t.Valid() && Printable(ns) && 0x40 <= f < 0x7F
    modifies t, t.screen, t.screen.Footprint(), t.ParserSet()
    ensures t.Valid() && fresh(t.screen.Footprint() - old(t.screen.Footprint())) && Extends(old(t.Keeps()), t.Keeps()) && Ready(t)
    ensures From(was, old(t.Was()), old(t.parser.utf8Len), old(t.parser.state))
    ensures t.CarriedFinal(Marker(private), f as char, Sent(ns), was.(deferred := was.deferred && !ClearsWrap(f as char)))
  {
    hide Terminal.Valid, Terminal.ScreenOk, Terminal.Keeps, Terminal.Shown, Terminal.Was, Terminal.CarriedFinal, ParserTable.TableOk,
      Parser.Parser.Valid, TextValues, InParameters, ClearsWrap;
    t.WasShown();
    Numbers(t, private, ns);
    t.WasShown();
    was := t.Was();
    FinishPlain(t, private, f);
  }

  // ---- operations and modes by their bytes ----

  /** A control character between characters of text is carried out. */
  method ControlByte(t: Terminal, b: Byte)
    requires t.Valid() && Ready(t) && b < 0x20 && b != Parser.ESC
    modifies t, t.screen, t.screen.Footprint(), t.ParserSet()
    ensures t.Valid() && fresh(t.screen.Footprint() - old(t.screen.Footprint())) && t.switches == old(t.switches) && Ready(t)
    ensures t.CarriedControl(b, old(t.Was()))
  {
    hide Terminal.ScreenOk, Terminal.Keeps, Terminal.Shown, Terminal.Was, Terminal.CarriedControl,
      ParserTable.TableOk, Parser.Parser.Reports;
    t.parser.WhatIsReported(b);
    t.Feed(b);
  }

  /** A control sequence for an operation of the screen shown does that operation. */
  method Operate(t: Terminal, private: bool, ns: seq<nat>, f: Byte, ghost op: ScreenRuns.Op) returns (ghost was: Before)
    requires t.Valid() && Printable(ns) && 0x40 <= f < 0x7F && MainOp(f as char, Marker(private), Sent(ns)) == Some(op)
    modifies t, t.screen, t.screen.Footprint(), t.ParserSet()
    ensures t.Valid() && fresh(t.screen.Footprint() - old(t.screen.Footprint())) && Ready(t)
    ensures From(was, old(t.Was()), old(t.parser.utf8Len), old(t.parser.state))
    ensures t.Done(op, was.(deferred := was.deferred && !ClearsWrap(f as char)))
  {
    hide Terminal.Valid, Terminal.ScreenOk, Terminal.Keeps, Terminal.Shown, Terminal.Was, Terminal.Settings, MainOp, Terminal.Done,
      ClearsWrap;
    was := ControlSequence(t, private, ns, f);
  }

  /** One mode set, reset, saved or restored by its bytes, in the middle of anything. */
  method OneMode(t: Terminal, mode: nat, f: Byte)
    requires t.Valid() && mode <= Params.MAX_CSI_ARG_VALUE && mode != 1048
    requires f == 'h' as int || f == 'l' as int || f == 's' as int || f == 'r' as int
    modifies t, t.screen, t.screen.Footprint(), t.ParserSet()
    ensures t.Valid() && fresh(t.screen.Footprint() - old(t.screen.Footprint()))
    ensures t.ModesNow() == match f as char
                            case 's' => old(t.ModesNow()).Stored(mode)
                            case 'r' => old(t.ModesNow()).Restored(mode)
                            case _ => old(t.ModesNow()).Turned(mode, f == 'h' as int)
  {
    hide Terminal.Valid, Terminal.ScreenOk, Terminal.Keeps, Terminal.Shown, Terminal.Was, Terminal.ModesNow, ModesAfter, Modes.Stored,
      Modes.Restored, Modes.Turned, Terminal.CarriedMode, Terminal.CarriedOther, Terminal.Done;
    t.WasHere();
    OneModeAfter(f as char, mode, t.ModesNow());
    ghost var was := ControlSequence(t, true, [mode], f);
  }

  /** A list of modes set, reset, saved or restored by its bytes, in order. */
  method ListedModes(t: Terminal, modes: seq<nat>, f: Byte)
    requires t.Valid() && Printable(modes) && modes != [] && 1048 !in modes
    requires f == 'h' as int || f == 'l' as int || f == 's' as int || f == 'r' as int
    modifies t, t.screen, t.screen.Footprint(), t.ParserSet()
    ensures t.Valid() && fresh(t.screen.Footprint() - old(t.screen.Footprint()))
    ensures t.ModesNow() == match f as char
                            case 's' => StoredAll(old(t.ModesNow()), modes)
                            case 'r' => RestoredAll(old(t.ModesNow()), modes)
                            case _ => TurnedAll(old(t.ModesNow()), modes, f == 'h' as int)
  {
    hide Terminal.Valid, Terminal.ScreenOk, Terminal.Keeps, Terminal.Shown, Terminal.Was, Terminal.ModesNow, StoredAll, RestoredAll,
      TurnedAll, Terminal.CarriedMode, Terminal.CarriedOther, Terminal.Done;
    t.WasHere();
    ghost var was := ControlSequence(t, true, modes, f);
  }

  /** Every byte of it: a mode that acts on the grid, saved, set or reset and restored by control sequences, in the
      middle of anything, comes back if and only if it is not mode 41 that was set, nor the margin mode that was set and
      is reset in between below conformance level 64. */
  method SaveAndRestore(t: Terminal, mode: nat, between: bool)
    requires t.Valid() && ActsOnGrid(mode)
    modifies t, t.screen, t.screen.Footprint(), t.ParserSet()
    ensures t.Valid()
    ensures var was := old(t.ModesNow());
      t.ModesNow().On(mode) == was.On(mode) <==> !(mode == 41 && was.On(41)) && !(mode == 69 && was.On(69) && !between && was.level < 64)
  {
    hide Terminal.Valid, Terminal.ModesNow, Modes.Turned, Modes.On, Modes.Stored, Modes.Restored;
    SavedComesBackIff(t.ModesNow(), mode, between);
    OneMode(t, mode, 's' as int);
    OneMode(t, mode, (if between then 'h' else 'l') as int);
    OneMode(t, mode, 'r' as int);
  }

  // ---- intermediate bytes ----

  /** An intermediate byte has been read after the numbers. */
  predicate Collected(t: Terminal, private: bool, interm: Byte) reads t.parser {
    && t.parser.state == ParserTable.CSI_INTERMEDIATE && t.parser.numInterm == 1 && t.parser.firstInterm == interm && t.parser.utf8Len == 0
    && t.parser.privateMarker == Marker(private)
  }

  method Collect(t: Terminal, private: bool, interm: Byte)
    requires t.Valid() && InParameters(t) && t.parser.utf8Len == 0 && t.parser.numInterm == 0 && t.parser.privateMarker == Marker(private)
    requires 0x20 <= interm < 0x30
    modifies t, t.screen, t.screen.Footprint(), t.ParserSet()
    ensures t.Valid() && fresh(t.screen.Footprint() - old(t.screen.Footprint())) && Collected(t, private, interm)
    ensures TextValues(t) == old(TextValues(t)) && t.Was() == old(t.Was())
  {
    hide Terminal.Valid, Terminal.ScreenOk, Terminal.Keeps, Terminal.Shown, Terminal.Was, Terminal.ModesNow, ParserTable.TableOk,
      Params.Keep, Params.GroupsOf, MainValues, Parser.Parser.Reports;
    t.parser.WhatIsReported(interm);
    Silent(t, interm);
  }

  method FinishCollected(t: Terminal, private: bool, interm: Byte, f: Byte)
    requires t.Valid() && Collected(t, private, interm) && 0x40 <= f < 0x7F
    modifies t, t.screen, t.screen.Footprint(), t.ParserSet()
    ensures t.Valid() && fresh(t.screen.Footprint() - old(t.screen.Footprint())) && Extends(old(t.Keeps()), t.Keeps()) && Ready(t)
    ensures t.CarriedCsi(Marker(private), Some(interm), f as char, old(TextValues(t)), old(t.Was()))
  {
    hide Terminal.Valid, Terminal.ScreenOk, Terminal.Keeps, Terminal.Shown, Terminal.Was, Terminal.CarriedCsi, Terminal.ModesNow,
      ParserTable.TableOk, Params.Keep, Params.GroupsOf, MainValues, Parser.Parser.Reports;
    t.parser.WhatIsReported(f);
    t.Feed(f);
  }

  /** Any control sequence with one intermediate byte, likewise. */
  method CollectedSequence(t: Terminal, private: bool, ns: seq<nat>, interm: Byte, f: Byte) returns (ghost was: Before)
    requires t.Valid() && Printable(ns) && 0x20 <= interm < 0x30 && 0x40 <= f < 0x7F
    modifies t, t.screen, t.screen.Footprint(), t.ParserSet()
    ensures t.Valid() && fresh(t.screen.Footprint() - old(t.screen.Footprint())) && Extends(old(t.Keeps()), t.Keeps()) && Ready(t)
    ensures From(was, old(t.Was()), old(t.parser.utf8Len), old(t.parser.state))
    ensures t.Dispatched(Marker(private), Some(interm), f as char, Sent(ns), was.(deferred := was.deferred && !ClearsWrap(f as char)))
  {
    hide Terminal.Valid, Terminal.ScreenOk, Terminal.Keeps, Terminal.Shown, Terminal.Was, Terminal.Dispatched,
      ParserTable.TableOk, Parser.Parser.Valid, TextValues, InParameters, ClearsWrap, Collected;
    t.WasShown();
    Numbers(t, private, ns);
    t.WasShown();
    was := t.Was();
    Collect(t, private, interm);
    t.WasShown();
    FinishCollected(t, private, interm, f);
  }

  /** DECSCL: ESC [ n " p. */
  method SetLevel(t: Terminal, level: nat)
    requires t.Valid() && 1 <= level <= Params.MAX_CSI_ARG_VALUE
    modifies t, t.screen, t.screen.Footprint(), t.ParserSet()
    ensures t.Valid() && fresh(t.screen.Footprint() - old(t.screen.Footprint()))
    ensures t.ModesNow() == old(t.ModesNow()).(level := level)
  {
    hide Terminal.Valid, Terminal.ScreenOk, Terminal.Keeps, Terminal.Shown, Terminal.Was, Terminal.ModesNow, Terminal.Done, ClearsWrap,
      ScreenRuns.Effect, IntermediateOp;
    t.WasHere();
    ghost var was := CollectedSequence(t, false, [level], '"' as int, 'p' as int);
  }

  // ---- escape sequences ----

  method FinishEscape(t: Terminal, f: Byte)
    requires t.Valid() && t.parser.state == ParserTable.ESCAPE && t.parser.utf8Len == 0 && Parser.EndsEscape(f)
    modifies t, t.screen, t.screen.Footprint(), t.ParserSet()
    ensures t.Valid() && fresh(t.screen.Footprint() - old(t.screen.Footprint())) && Extends(old(t.Keeps()), t.Keeps()) && Ready(t)
    ensures t.CarriedEscape(None, f as char, old(t.Was()))
  {
    hide Terminal.ScreenOk, Terminal.Keeps, Terminal.Shown, Terminal.Was, Terminal.CarriedEscape, ParserTable.TableOk, Parser.Parser.Reports;
    t.parser.WhatIsReported(f);
    t.Feed(f);
  }

  /** Any escape sequence of two bytes, written in the middle of anything, is carried out. */
  method EscapeSequence(t: Terminal, f: Byte) returns (ghost was: Before)
    requires t.Valid() && Parser.EndsEscape(f)
    modifies t, t.screen, t.screen.Footprint(), t.ParserSet()
    ensures t.Valid() && fresh(t.screen.Footprint() - old(t.screen.Footprint())) && Ready(t)
    ensures From(was, old(t.Was()), old(t.parser.utf8Len), old(t.parser.state)) && t.CarriedEscape(None, f as char, was)
  {
    hide Terminal.Valid, Terminal.ScreenOk, Terminal.Keeps, Terminal.Shown, Terminal.Was, Terminal.CarriedEscape;
    Escape(t);
    was := t.Was();
    FinishEscape(t, f);
  }

  method CollectEscape(t: Terminal, interm: Byte)
    requires t.Valid() && t.parser.state == ParserTable.ESCAPE && t.parser.utf8Len == 0 && 0x20 <= interm < 0x30
    modifies t, t.screen, t.screen.Footprint(), t.ParserSet()
    ensures t.Valid() && fresh(t.screen.Footprint() - old(t.screen.Footprint())) && t.Was() == old(t.Was()) && t.parser.utf8Len == 0
    ensures t.parser.state == ParserTable.ESCAPE_INTERMEDIATE && t.parser.numInterm == 1 && t.parser.firstInterm == interm
  {
    hide Terminal.Valid, Terminal.ScreenOk, Terminal.Keeps, Terminal.Shown, Terminal.Was, ParserTable.TableOk, Parser.Parser.Reports;
    t.parser.WhatIsReported(interm);
    Silent(t, interm);
  }

  method FinishCollectedEscape(t: Terminal, interm: Byte, f: Byte)
    requires t.Valid() && t.parser.state == ParserTable.ESCAPE_INTERMEDIATE && t.parser.utf8Len == 0 && 0x30 <= f < 0x7F
    requires t.parser.numInterm == 1 && t.parser.firstInterm == interm
    modifies t, t.screen, t.screen.Footprint(), t.ParserSet()
    ensures t.Valid() && fresh(t.screen.Footprint() - old(t.screen.Footprint())) && Extends(old(t.Keeps()), t.Keeps()) && Ready(t)
    ensures t.CarriedEscape(Some(interm), f as char, old(t.Was()))
  {
    hide Terminal.ScreenOk, Terminal.Keeps, Terminal.Shown, Terminal.Was, Terminal.CarriedEscape, ParserTable.TableOk, Parser.Parser.Reports;
    t.parser.WhatIsReported(f);
    t.Feed(f);
  }

  /** Any escape sequence with one intermediate byte. */
  method CollectedEscape(t: Terminal, interm: Byte, f: Byte) returns (ghost was: Before)
    requires t.Valid() && 0x20 <= interm < 0x30 && 0x30 <= f < 0x7F
    modifies t, t.screen, t.screen.Footprint(), t.ParserSet()
    ensures t.Valid() && fresh(t.screen.Footprint() - old(t.screen.Footprint())) && Ready(t)
    ensures From(was, old(t.Was()), old(t.parser.utf8Len), old(t.parser.state)) && t.CarriedEscape(Some(interm), f as char, was)
  {
    hide Terminal.Valid, Terminal.ScreenOk, Terminal.Keeps, Terminal.Shown, Terminal.Was, Terminal.CarriedEscape;
    Escape(t);
    was := t.Was();
    CollectEscape(t, interm);
    FinishCollectedEscape(t, interm, f);
  }

  /** The bytes whose saved margin mode does not come back, from any terminal at the level that has the mode: set, the
      level lowered, saved, reset, restored. */
  method LoseMarginMode(t: Terminal) returns (ghost saved: Modes)
    requires t.Valid() && t.ModesNow().level >= 64
    modifies t, t.screen, t.screen.Footprint(), t.ParserSet()
    ensures t.Valid() && saved.On(69) && saved.level == 62 && !t.ModesNow().On(69)
  {
    hide Terminal.Valid, Terminal.ModesNow;
    OneMode(t, 69, 'h' as int);
    SetLevel(t, 62);
    saved := t.ModesNow();
    SaveAndRestore(t, 69, false);
  }

  // ---- a printed style ----

  /** Every layer together: from any terminal, in the middle of anything, the bytes printed for a style leave exactly
      that style as the screen's pen if and only if the style is canonical. */
  method SetPrintedStyle(t: Terminal, st: Style)
    requires t.Valid()
    modifies t, t.screen, t.screen.Footprint(), t.ParserSet()
    ensures t.Valid() && (t.screen.style == st <==> SgrRoundTrip.Canonical(st))
  {
    hide Terminal.Valid, Terminal.ScreenOk, Terminal.Keeps, Terminal.Shown, Terminal.Was, ParserTable.TableOk, Parser.Parser.Valid, Quiet,
      Apply, Clipped, Params.Keep, Params.GroupsOf, SgrRoundTrip.Numbers, SgrRoundTrip.Canonical, SgrRoundTrip.Join, SgrRoundTrip.Strings,
      InParameters, Terminal.Carried, Terminal.ModesNow;
    var text := SgrRoundTrip.SgrParamsString(st);
    Parser.PrintedText(SgrRoundTrip.Numbers(st));
    Introduce(t, false);
    Parameters(t, text);
    Parser.PrintedTextSets(st, t.screen.style);
    ghost var was := t.Was();
    Finish(t, 'm' as int);
    t.CarriedPen(was);
  }

  // ---- an alternate-screen session ----

  /** ESC [ ? mode h or l, in the middle of anything: the switch happens from the screen as it is once a character
      cut short is printed. */
  method SwitchScreen(t: Terminal, mode: nat, on: bool) returns (ghost from: Face)
    requires t.Valid() && IsAltMode(mode)
    modifies t, t.screen, t.screen.Footprint(), t.ParserSet()
    ensures t.Valid() && fresh(t.screen.Footprint() - old(t.screen.Footprint())) && Ready(t)
    ensures from.kept == old(t.Keeps()) && (old(t.parser.utf8Len) == 0 ==> from == old(t.Shown()))
    ensures Switched(from, t.Shown(), mode, on)
  {
    hide Terminal.Valid, Terminal.ScreenOk, Terminal.Keeps, Terminal.Shown, Terminal.Was, Switched;
    t.WasShown();
    ghost var was := ControlSequence(t, true, [mode], (if on then 'h' else 'l') as int);
    from := was.face;
  }

  /** A whole full-screen program as its bytes: an alternate-screen mode set, then any bytes at all, cut anywhere, then
      the mode reset. Unless one of the bytes between completed a screen switch or a reset of its own, the main screen
      is back cell for cell with its wrap flags and its scroll region, and with 1049 the cursor and the pen. */
  method FullScreenSession(t: Terminal, mode: nat, bytes: seq<Byte>)
    requires t.Valid() && IsAltMode(mode) && t.parser.utf8Len == 0 && !t.screen.inAlt
    modifies t, t.screen, t.screen.Footprint(), t.ParserSet()
    ensures t.Valid() && t.switches >= old(t.switches) + 2
    ensures t.switches == old(t.switches) + 2 ==>
      && !t.screen.inAlt && t.screen.View() == old(t.screen.View())
      && t.screen.scrollTop == old(t.screen.scrollTop) && t.screen.scrollBottom == old(t.screen.scrollBottom)
      && (mode == 1049 ==> t.screen.curX == old(t.screen.curX) && t.screen.curY == old(t.screen.curY) && t.screen.style == old(t.screen.style))
  {
    hide ParserTable.TableOk, Parser.Parser.Valid, Screen.View, Screen.SavedView;
    assert t.screen.scrollBottom < t.screen.height;
    hide Terminal.ScreenOk;
    ghost var before, entered, left;
    before := SwitchScreen(t, mode, true);
    entered := t.Keeps();
    Write(t, bytes);
    left := SwitchScreen(t, mode, false);
  }

  /** Text, with its controls: without ESC among the bytes no screen is switched and no sequence begins. */
  method WriteText(t: Terminal, bytes: seq<Byte>)
    requires t.Valid() && t.parser.state == ParserTable.GROUND && Parser.ESC !in bytes
    modifies t, t.screen, t.screen.Footprint(), t.ParserSet()
    ensures t.Valid() && fresh(t.screen.Footprint() - old(t.screen.Footprint())) && t.parser.state == ParserTable.GROUND
    ensures t.switches == old(t.switches) && t.Keeps() == old(t.Keeps())
  {
    hide Terminal.ScreenOk, Terminal.Keeps, Terminal.Shown, Terminal.Was, Terminal.Carried, Parser.Parser.Reports, ParserTable.TableOk;
    t.WasShown();
    for i := 0 to |bytes|
      invariant t.Valid() && fresh(t.screen.Footprint() - old(t.screen.Footprint())) && Extends(old(t.Keeps()), t.Keeps())
      invariant t.parser.state == ParserTable.GROUND && t.switches == old(t.switches)
    {
      t.parser.TextIsReported(bytes[i]);
      t.Feed(bytes[i]);
    }
    t.WasShown();
  }

  /** The same session around text: when no ESC is among the bytes, the main screen always comes back. */
  method FullScreenText(t: Terminal, mode: nat, bytes: seq<Byte>)
    requires t.Valid() && IsAltMode(mode) && t.parser.utf8Len == 0 && !t.screen.inAlt && Parser.ESC !in bytes
    modifies t, t.screen, t.screen.Footprint(), t.ParserSet()
    ensures t.Valid() && !t.screen.inAlt && t.screen.View() == old(t.screen.View())
    ensures t.screen.scrollTop == old(t.screen.scrollTop) && t.screen.scrollBottom == old(t.screen.scrollBottom)
    ensures mode == 1049 ==> t.screen.curX == old(t.screen.curX) && t.screen.curY == old(t.screen.curY) && t.screen.style == old(t.screen.style)
  {
    hide ParserTable.TableOk, Parser.Parser.Valid, Screen.View, Screen.SavedView;
    assert t.screen.scrollBottom < t.screen.height;
    hide Terminal.ScreenOk;
    ghost var before := SwitchScreen(t, mode, true);
    WriteText(t, bytes);
    ghost var left := SwitchScreen(t, mode, false);
  }

  // ---- text ----

  /** The terminal reads printable bytes as themselves and prints them from column `x` on inside the margins. */
  ghost predicate Typing(t: Terminal, x: nat)
    requires t.Valid()
    reads t, t.screen, t.ParserSet()
  {
    && t.parser.state == ParserTable.GROUND && t.parser.utf8Len == 0
    && t.singleShift == None && t.charsets.sets[t.charsets.gl] == Us
    && t.screen.curX == x && t.screen.WithinHMargins(x) && !t.screen.pendingWrap && !t.screen.insertMode
  }

  predicate Plain(t: Terminal, b: Byte) { 0x20 <= b < 0x7F && t.runeWidth(b) == 1 }

  /** One printable byte. */
  method TypeOne(t: Terminal, b: Byte)
    requires t.Valid() && Typing(t, t.screen.curX) && Plain(t, b)
    modifies t, t.screen, t.screen.Footprint(), t.ParserSet()
    ensures t.Valid() && fresh(t.screen.Footprint() - old(t.screen.Footprint())) && t.Settings() == old(t.Settings())
    ensures var x, y, before := old(t.screen.curX), old(t.screen.curY), old(t.screen.View());
      && t.screen.height == old(t.screen.height) && t.screen.width == old(t.screen.width)
      && t.screen.View() == before[y := before[y].(cells := before[y].cells[x := t.Settings().screen.glyph.(ch := b)])]
      && t.screen.drained == old(t.screen.drained) && t.screen.curY == y
      && if x < t.screen.RightBound() then Typing(t, x + 1)
         else t.screen.curX == x && t.screen.pendingWrap == t.screen.autoWrap
  {
    hide Terminal.Keeps, Terminal.Was, Parser.Parser.Reports, Terminal.Carried, ParserTable.TableOk, ScreenRuns.Prints, Screen.View;
    t.parser.WhatIsReported(b);
    ghost var was := t.Was();
    t.WasHere();
    t.Feed(b);
    t.CarriedPlain(b, was);
    ScreenRuns.PlainPrint(t.screen, was.page, b);
  }

  /** The row with the text over its cells from column `x` on, in the look of `glyph`. */
  function Over(cells: seq<Cell>, x: nat, text: seq<Byte>, glyph: Cell): (r: seq<Cell>)
    requires x + |text| <= |cells|
    ensures |r| == |cells|
  {
    cells[..x] + seq(|text|, i requires 0 <= i < |text| => glyph.(ch := text[i])) + cells[x + |text|..]
  }

  lemma OverGrows(cells: seq<Cell>, x: nat, done: seq<Byte>, b: Byte, glyph: Cell)
    requires x + |done| < |cells|
    ensures Over(cells, x, done, glyph)[x + |done| := glyph.(ch := b)] == Over(cells, x, done + [b], glyph)
  {}

  lemma OverNothing(rows: seq<Line>, x: nat, y: nat, glyph: Cell)
    requires y < |rows| && x <= |rows[y].cells|
    ensures WithText(rows, x, y, [], glyph) == rows
  {
    assert Over(rows[y].cells, x, [], glyph) == rows[y].cells;
  }

  function WithText(rows: seq<Line>, x: nat, y: nat, text: seq<Byte>, glyph: Cell): (r: seq<Line>)
    requires y < |rows| && x + |text| <= |rows[y].cells|
    ensures |r| == |rows|
  {
    rows[y := rows[y].(cells := Over(rows[y].cells, x, text, glyph))]
  }

  /** `done` has been typed from column `x` of row `y` on of the screen that showed `rows`. */
  ghost predicate Typed(t: Terminal, rows: seq<Line>, drained: seq<Line>, x: nat, y: nat, setting: Setting, done: seq<Byte>)
    requires t.Valid() && y < |rows| && x + |done| <= |rows[y].cells|
    reads t, t.screen, t.screen.Footprint(), t.ParserSet()
  {
    && t.Settings() == setting && t.screen.View() == WithText(rows, x, y, done, setting.screen.glyph)
    && t.screen.drained == drained && t.screen.curY == y
    && if x + |done| <= t.screen.RightBound() then Typing(t, x + |done|)
       else t.screen.curX == t.screen.RightBound() && t.screen.pendingWrap == t.screen.autoWrap
  }

  method TypeNext(t: Terminal, b: Byte, ghost rows: seq<Line>, ghost drained: seq<Line>, ghost x: nat, ghost y: nat,
                  ghost setting: Setting, ghost done: seq<Byte>)
    requires t.Valid() && y < |rows| && x + |done| < |rows[y].cells| && x + |done| <= t.screen.RightBound() && Plain(t, b)
    requires Typed(t, rows, drained, x, y, setting, done)
    modifies t, t.screen, t.screen.Footprint(), t.ParserSet()
    ensures t.Valid() && fresh(t.screen.Footprint() - old(t.screen.Footprint())) && t.screen.width == old(t.screen.width) > 0
    ensures t.screen.RightBound() == old(t.screen.RightBound())
    ensures Typed(t, rows, drained, x, y, setting, done + [b])
  {
    hide Over, Screen.View, Terminal.Keeps;
    TypeOne(t, b);
    OverGrows(rows[y].cells, x, done, b, setting.screen.glyph);
  }

  /** Plain text typed where it fits up to the right margin appears there, in the pen's look, and nowhere else; the
      cursor is past it, or at the margin with the next wrap deferred. */
  method TypeText(t: Terminal, text: seq<Byte>)
    requires t.Valid() && Typing(t, t.screen.curX) && forall i :: 0 <= i < |text| ==> Plain(t, text[i])
    requires t.screen.curX + |text| <= t.screen.RightBound() + 1
    modifies t, t.screen, t.screen.Footprint(), t.ParserSet()
    ensures t.Valid()
    ensures Typed(t, old(t.screen.View()), old(t.screen.drained), old(t.screen.curX), old(t.screen.curY), old(t.Settings()), text)
  {
    hide Terminal.Valid, Typed, Typing, Plain, Screen.RightBound, Terminal.Settings;
    ghost var x, y, drained, setting := t.screen.curX, t.screen.curY, t.screen.drained, t.Settings();
    ghost var rows, edge := TypedNothing(t);
    for i := 0 to |text|
      invariant t.Valid() && fresh(t.screen.Footprint() - old(t.screen.Footprint())) && t.screen.width > 0 && t.screen.RightBound() == edge
      invariant Typed(t, rows, drained, x, y, setting, text[..i])
    {
      Prefixes(text, i);
      TypeNext(t, text[i], rows, drained, x, y, setting, text[..i]);
    }
    Prefixes(text, |text|);
  }

  lemma Prefixes(text: seq<Byte>, i: nat)
    requires i <= |text|
    ensures if i < |text| then text[..i + 1] == text[..i] + [text[i]] else text[..i] == text
  {}

  lemma TypedNothing(t: Terminal) returns (rows: seq<Line>, edge: nat)
    requires t.Valid() && Typing(t, t.screen.curX)
    ensures rows == t.screen.View() && t.screen.width > 0 && edge == t.screen.RightBound()
    ensures t.screen.curY < |rows| && |rows[t.screen.curY].cells| > edge
    ensures Typed(t, rows, t.screen.drained, t.screen.curX, t.screen.curY, t.Settings(), [])
  {
    rows, edge := t.screen.View(), t.screen.RightBound();
    OverNothing(rows, t.screen.curX, t.screen.curY, t.Settings().screen.glyph);
  }
}
