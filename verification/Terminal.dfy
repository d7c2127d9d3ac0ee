/** The terminal as bytes drive it: every byte goes through the parser, and what it dispatches to the screen. */
module Terminal {
  import opened Sequences
  import opened Sgr
  import opened Lines
  import opened Grid
  import opened ScreenRuns
  import Params
  import ParserTable
  import Parser

  // ---- character sets ----

  datatype Charset = Us | Graphic | Uk

  /** The four designated sets, and the one in use. */
  datatype Charsets = Charsets(sets: seq<Charset>, gl: nat)

  const DEFAULT_SETS := Charsets([Us, Us, Us, Us], 0)

  /** DEC Special Graphics from 0x60 on. */
  const GRAPHICS: seq<nat> := [
    0x25c6, 0x2592, 0x2409, 0x240c, 0x240d, 0x240a, 0x00b0, 0x00b1, 0x2424, 0x240b, 0x2518, 0x2510, 0x250c, 0x2514, 0x253c,
    0x23ba, 0x23bb, 0x2500, 0x23bc, 0x23bd, 0x251c, 0x2524, 0x2534, 0x252c, 0x2502, 0x2264, 0x2265, 0x03c0, 0x2260, 0x00a3,
    0x00b7]

  function Translated(set_: Charset, b: Byte): nat {
    match set_
    case Us => b
    case Graphic => if 0x60 <= b <= 0x7E then GRAPHICS[b - 0x60] else if b == 0x5F then 0x20 else b
    case Uk => if b == 0x23 then 0xA3 else b
  }

  /** The set an intermediate byte designates, or none. */
  function Designates(interm: Byte): Option<nat> {
    if 0x28 <= interm <= 0x2B then Some(interm - 0x28) else None
  }

  /** The sets with one designated. */
  function Designated(c: Charsets, interm: Byte, f: char): Charsets {
    match Designates(interm)
    case None => c
    case Some(g) => if g < |c.sets| then c.(sets := c.sets[g := if f == '0' then Graphic else if f == 'A' then Uk else Us]) else c
  }

  // ---- control sequences ----

  /** The main values of the parameter groups, of which an absent or zero one takes a default. */
  function MainValues(gs: seq<seq<nat>>): (r: seq<nat>)
    ensures |r| == |gs|
  {
    seq(|gs|, i requires 0 <= i < |gs| => if gs[i] == [] then 0 else gs[i][0])
  }

  function Arg(args: seq<nat>, i: nat, default: nat): nat { if i < |args| && args[i] != 0 then args[i] else default }

  /** The final bytes that cancel a deferred wrap before anything is dispatched, whatever the sequence turns out to be. */
  predicate ClearsWrap(f: char) { f in "ABCDEFGHfde`aIZu" }

  /** What a sequence without an intermediate byte does to the screen shown, apart from modes, margins, the pen, saved
      cursors and repeats. */
  function MainOp(f: char, marker: Byte, a: seq<nat>): Option<Op> {
    var n := Arg(a, 0, 1);
    match f
    case 'A' => Some(Vertical(true, n))
    case 'B' => Some(Vertical(false, n))
    case 'e' => Some(Vertical(false, n))
    case 'C' => Some(Horizontal(false, n))
    case 'D' => Some(Horizontal(true, n))
    case 'E' => Some(Lines(false, n))
    case 'F' => Some(Lines(true, n))
    case 'G' => Some(ToColumn(n - 1))
    case '`' => Some(ToColumn(n - 1))
    case 'H' => Some(MoveTo(n - 1, Arg(a, 1, 1) - 1))
    case 'f' => Some(MoveTo(n - 1, Arg(a, 1, 1) - 1))
    case 'a' => Some(Relative(n))
    case 'd' => Some(ToRow(n - 1))
    case 'J' => Some(EraseDisplay(Arg(a, 0, 0), marker == '?' as int))
    case 'K' => Some(EraseLine(Arg(a, 0, 0), marker == '?' as int))
    case '@' => Some(ShiftChars(true, n))
    case 'P' => Some(ShiftChars(false, n))
    case 'L' => Some(ShiftLines(true, n))
    case 'M' => Some(ShiftLines(false, n))
    case 'S' => Some(Scroll(true, n))
    case 'T' => if marker == '>' as int then None else Some(Scroll(false, n))
    case '^' => Some(Scroll(false, n))
    case 'X' => Some(EraseChars(n))
    case 'I' => Some(Tabs(true, n))
    case 'Z' => Some(Tabs(false, n))
    case 'g' => if Arg(a, 0, 0) == 0 then Some(TabStop(false)) else if Arg(a, 0, 0) == 3 then Some(ClearTabs) else None
    case _ => None
  }

  /** The same with an intermediate byte, for a pen that prints `glyph`. */
  function IntermediateOp(i: char, f: char, a: seq<nat>, glyph: Cell): Option<Op> {
    var n := Arg(a, 0, 1);
    match (i, f)
    case (' ', '@') => Some(ShiftScreen(true, n))
    case (' ', 'A') => Some(ShiftScreen(false, n))
    case ('$', 'x') => Some(FillRect(Arg(a, 0, 0), Arg(a, 1, 0), Arg(a, 2, 0), Arg(a, 3, 0), Arg(a, 4, 0)))
    case ('$', 'z') => Some(EraseRect(Arg(a, 0, 0), Arg(a, 1, 0), Arg(a, 2, 0), Arg(a, 3, 0), false))
    case ('$', '{') => Some(EraseRect(Arg(a, 0, 0), Arg(a, 1, 0), Arg(a, 2, 0), Arg(a, 3, 0), true))
    case ('$', 'v') => Some(CopyRect(Arg(a, 0, 0), Arg(a, 1, 0), Arg(a, 2, 0), Arg(a, 3, 0), Arg(a, 5, 0), Arg(a, 6, 0)))
    case ('"', 'q') => Some(SetPen(glyph.style, glyph.link, Arg(a, 0, 0) == 1, glyph.isoGuarded))
    case ('\'', '}') => Some(ShiftColumns(true, n))
    case ('\'', '~') => Some(ShiftColumns(false, n))
    case _ => None
  }

  // ---- hyperlinks ----

  function Find(s: seq<Byte>, b: Byte): (i: nat)
    ensures i <= |s| && (i < |s| ==> s[i] == b) && b !in s[..i]
  {
    if s == [] || s[0] == b then 0 else 1 + Find(s[1..], b)
  }

  function Digits(s: seq<Byte>): Option<nat> {
    if s == [] then Some(0)
    else
      match Digits(s[..|s| - 1])
      case Some(n) => if 0x30 <= s[|s| - 1] <= 0x39 then Some(10 * n + (s[|s| - 1] - 0x30)) else None
      case None => None
  }

  function Text(s: seq<Byte>): string { seq(|s|, i requires 0 <= i < |s| => s[i] as char) }

  /** The link an operating-system command gives the pen: what follows the second semicolon of command 8. */
  function LinkAfter(payload: seq<Byte>): Option<string> {
    var i := Find(payload, 0x3B);
    if i == |payload| || i == 0 || Digits(payload[..i]) != Some(8) then None
    else
      var data := payload[i + 1..];
      var j := Find(data, 0x3B);
      if j == |data| then None else Some(Text(data[j + 1..]))
  }

  /** The setting with the pen's link replaced. */
  ghost function Linked(b: Setting, link: Option<string>): Setting {
    if link.None? then b else b.(screen := b.screen.(glyph := b.screen.glyph.(link := link.value)))
  }

  /** The setting with the guard of the pen that ISO sequences set. */
  ghost function Guarded(b: Setting, on: bool): Setting { b.(screen := b.screen.(glyph := b.screen.glyph.(isoGuarded := on))) }

  /** The setting with another style of the pen. */
  ghost function Styled(b: Setting, style: Style): Setting { b.(screen := b.screen.(glyph := b.screen.glyph.(style := style))) }

  /** A final byte, with its marker, that a control sequence without a consuming intermediate byte is carried out for. */
  predicate Acts(marker: Byte, f: char, a: seq<nat>) {
    || f == 'h' || f == 'l' || f == 'b' || MainOp(f, marker, a).Some?
    || (marker == 0 && f in "rsmu") || (marker == '?' as int && f in "rs")
  }

  /** What survives as long as only operations of the screen shown are carried out. */
  datatype Kept = Kept(switches: nat, inAlt: bool, saved: Option<Saved>, height: nat, width: nat, main: seq<Line>)

  ghost predicate Extends(a: Kept, b: Kept) { a.switches <= b.switches && (a.switches == b.switches ==> a == b) }

  /** What a person sees of the screen, and what is kept aside. */
  datatype Face = Face(kept: Kept, rows: seq<Line>, x: nat, y: nat, style: Style, top: nat, bottom: nat)

  predicate IsAltMode(mode: nat) { mode == 47 || mode == 1047 || mode == 1049 }

  /** An alternate-screen switch from what `a` shows to what `b` shows. */
  ghost predicate Switched(a: Face, b: Face, mode: nat, on: bool) {
    && b.kept.switches == a.kept.switches + 1 && b.kept.height == a.kept.height && b.kept.width == a.kept.width
    && (on && !a.kept.inAlt ==>
          && b.kept.inAlt && b.kept.main == a.rows && b.kept.saved.Some?
          && var main := b.kept.saved.value;
             main.curX == a.x && main.curY == a.y && main.style == a.style && main.scrollTop == a.top && main.scrollBottom == a.bottom)
    && (!on && a.kept.inAlt ==>
          && !b.kept.inAlt && b.rows == a.kept.main && a.kept.saved.Some?
          && var main := a.kept.saved.value;
             && b.top == main.scrollTop && b.bottom == Min(main.scrollBottom, b.kept.height - 1)
             && (mode == 1049 ==> b.x == main.curX && b.y == main.curY && b.style == main.style))
  }

  /** What decides where a character goes and how it looks, with the character sets in use and those saved beside the
      cursor of the screen shown. */
  datatype Setting = Setting(screen: ScreenSetting, charsets: Charsets, savedSets: Charsets)

  /** The modes that act on the grid, the conformance level that one of them needs, and the saved ones. */
  datatype Modes = Modes(column: bool, noClear: bool, level: nat, saved: map<nat, bool>, inAlt: bool, flags: Flags) {
    predicate On(mode: nat) {
      match mode
      case 3 => column
      case 6 => flags.origin
      case 7 => flags.autoWrap
      case 41 => flags.moreFix
      case 45 => flags.reverseWrap
      case 69 => flags.margins
      case 95 => noClear
      case _ => IsAltMode(mode) && inAlt
    }

    /** The status reported for a mode: set or not, but mode 41 has none. */
    predicate Status(mode: nat) { mode != 41 && On(mode) }

    /** A mode set or reset: the margin mode is set only from conformance level 64 on, and the column mode resets it. */
    function Turned(mode: nat, on: bool): Modes {
      match mode
      case 3 => this.(column := on, flags := flags.(margins := false))
      case 6 => this.(flags := flags.(origin := on))
      case 7 => this.(flags := flags.(autoWrap := on))
      case 41 => this.(flags := flags.(moreFix := on))
      case 45 => this.(flags := flags.(reverseWrap := on))
      case 69 => if on && level < 64 then this else this.(flags := flags.(margins := on))
      case 95 => this.(noClear := on)
      case _ => if IsAltMode(mode) then this.(inAlt := on) else this
    }

    function After(op: Op): Modes { this.(flags := FlagsAfter(op, flags)) }

    function Stored(mode: nat): Modes { this.(saved := saved[mode := Status(mode)]) }

    /** A mode that was never saved is restored to reset. */
    function Restored(mode: nat): Modes { Turned(mode, mode in saved && saved[mode]) }
  }

  /** The operations that carry out a mode. */
  lemma OriginTurns(m: Modes, on: bool)
    ensures m.After(OriginMode(on)) == m.Turned(6, on)
  {}

  lemma MarginTurns(m: Modes, on: bool)
    ensures m.Turned(69, on) == if on && m.level < 64 then m else m.After(MarginMode(on))
  {}

  lemma ColumnTurns(m: Modes, on: bool, clear: bool)
    ensures m.(column := on).After(ColumnMode(clear)) == m.Turned(3, on)
  {}

  predicate IsFlag(mode: nat) { mode == 7 || mode == 41 || mode == 45 }

  /** The modes after a list of them is set or reset, in order. */
  function TurnedAll(m: Modes, modes: seq<nat>, on: bool): Modes {
    if modes == [] then m else TurnedAll(m, modes[..|modes| - 1], on).Turned(modes[|modes| - 1], on)
  }

  /** The modes with the status of each of a list recorded. */
  function StoredAll(m: Modes, modes: seq<nat>): (r: Modes)
    ensures r == m.(saved := r.saved)
  {
    if modes == [] then m else StoredAll(m, modes[..|modes| - 1]).Stored(modes[|modes| - 1])
  }

  /** The modes after each of a list is restored, in order. */
  function RestoredAll(m: Modes, modes: seq<nat>): Modes {
    if modes == [] then m else RestoredAll(m, modes[..|modes| - 1]).Restored(modes[|modes| - 1])
  }

  lemma StatusIgnores(m: Modes, saved: map<nat, bool>)
    ensures forall k :: m.(saved := saved).Status(k) == m.Status(k)
  {}

  lemma {:induction false} StoredAreListed(m: Modes, modes: seq<nat>)
    ensures forall k :: k in modes ==> k in StoredAll(m, modes).saved && StoredAll(m, modes).saved[k] == m.Status(k)
    ensures forall k :: k !in modes ==> (k in StoredAll(m, modes).saved <==> k in m.saved)
                                        && (k in m.saved ==> StoredAll(m, modes).saved[k] == m.saved[k])
  {
    if modes != [] { StoredAreListed(m, modes[..|modes| - 1]); }
  }

  /** The modes that act on the grid. */
  predicate ActsOnGrid(mode: nat) {
    mode == 3 || mode == 6 || mode == 7 || mode == 41 || mode == 45 || mode == 69 || mode == 95 || IsAltMode(mode)
  }

  /** A mode saved, set or reset, and restored comes back, but for mode 41, for which no status is reported, when it was
      set, and for the margin mode when it was set, is reset in between and the level has been lowered. */
  lemma SavedComesBackIff(m: Modes, mode: nat, between: bool)
    requires ActsOnGrid(mode)
    ensures mode != 1048
    ensures var after := m.Stored(mode).Turned(mode, between).Restored(mode);
      after.On(mode) == m.On(mode) <==>
        !(mode == 41 && m.On(41)) && !(mode == 69 && m.On(69) && !between && m.level < 64)
  {
    assert m.Stored(mode).saved[mode] == m.Status(mode);
  }

  /** A private control sequence that sets, resets, saves or restores modes other than the cursor's. */
  predicate OnModes(marker: Byte, f: char, a: seq<nat>) {
    marker == '?' as int && 1048 !in a && (f == 'h' || f == 'l' || f == 's' || f == 'r')
  }

  function ModesAfter(f: char, a: seq<nat>, m: Modes): Modes {
    match f
    case 's' => StoredAll(m, a)
    case 'r' => RestoredAll(m, a)
    case _ => TurnedAll(m, a, f == 'h')
  }

  lemma OneModeAfter(f: char, mode: nat, m: Modes)
    ensures ModesAfter(f, [mode], m) == match f case 's' => m.Stored(mode) case 'r' => m.Restored(mode) case _ => m.Turned(mode, f == 'h')
  {
    hide Modes.Turned, Modes.Stored, Modes.Restored;
    var none: seq<nat> := [];
    assert [mode][..|[mode]| - 1] == none;
    assert TurnedAll(m, none, f == 'h') == StoredAll(m, none) == RestoredAll(m, none) == m;
  }

  /** The last character printed, and the style it was printed in. */
  datatype Last = Last(ch: nat, style: Style)

  /** The terminal before a byte. */
  datatype Before = Before(face: Face, page: Page, deferred: bool, charset: Charset, setting: Setting, modes: Modes, last: Last)

  /** The operation that carries out a private mode. */
  ghost function ModeOp(mode: nat, on: bool, was: Before): Option<Op> {
    var b := was.setting.screen;
    match mode
    case 3 => Some(ColumnMode(!(was.modes.noClear && was.modes.level >= 65)))
    case 6 => Some(OriginMode(on))
    case 7 => Some(SetModes(on, b.insert, b.flags.reverseWrap, b.newLine, b.flags.moreFix))
    case 41 => Some(SetModes(b.flags.autoWrap, b.insert, b.flags.reverseWrap, b.newLine, on))
    case 45 => Some(SetModes(b.flags.autoWrap, b.insert, on, b.newLine, b.flags.moreFix))
    case 69 => if on && was.modes.level < 64 then None else Some(MarginMode(on))
    case _ => None
  }

  /** IRM and LNM. */
  ghost function AnsiOp(mode: nat, on: bool, b: ScreenSetting): Op {
    SetModes(b.flags.autoWrap, if mode == 4 then on else b.insert, b.flags.reverseWrap, if mode == 20 then on else b.newLine, b.flags.moreFix)
  }

  /** Text and its controls, which never switch the screen. */
  predicate IsText(r: Parser.Report) { r.Ascii? || r.Rune? || r.Control? }

  class Terminal {
    const parser: Parser.Parser
    const screen: Screen
    const runeWidth: nat -> nat
    var charsets: Charsets
    var singleShift: Option<nat>
    var mainSets: Charsets
    var altSets: Charsets
    var lastRune: nat
    var lastStyle: Style
    var conformance: nat
    var noClear: bool
    var column132: bool
    var savedModes: map<nat, bool>

    /** How many switches of the screen shown, resets and resizes there have been. */
    ghost var switches: nat

    ghost function ParserSet(): set<object> {
      {parser, parser.params, parser.params.params, parser.params.groupLen, parser.pen}
    }

    predicate SetsOk(c: Charsets) { |c.sets| == 4 && c.gl < 2 }

    ghost predicate ScreenOk()
      reads screen
    {
      screen.Valid() && screen.TabsOk() && screen.SavedRegionOk()
    }

    ghost predicate Valid()
      reads this, screen, ParserSet()
    {
      && ScreenOk() && parser.Valid()
      && ParserSet() !! screen.Footprint()
      && SetsOk(charsets) && SetsOk(mainSets) && SetsOk(altSets) && (singleShift.Some? ==> 2 <= singleShift.value <= 3)
    }

    ghost function Keeps(): Kept
      requires ScreenOk()
      reads this`switches, screen, screen.Footprint()
    {
      Kept(switches, screen.inAlt, screen.saved, screen.height, screen.width, if screen.saved.Some? then screen.SavedView() else [])
    }

    ghost function Shown(): Face
      requires ScreenOk()
      reads this`switches, screen, screen.Footprint()
    {
      Face(Keeps(), screen.View(), screen.curX, screen.curY, screen.style, screen.scrollTop, screen.scrollBottom)
    }

    ghost function Settings(): Setting
      reads this`charsets, this`mainSets, this`altSets
      reads screen`style, screen`link, screen`guarded, screen`isoGuarded, screen`newLineMode, screen`insertMode
      reads screen`leftMargin, screen`rightMargin, screen`scrollTop, screen`scrollBottom
      reads screen`originMode, screen`autoWrap, screen`reverseWrap, screen`moreFix, screen`lrMarginMode
      reads screen`tabStops, screen`inAlt, screen`mainCursor, screen`altCursor
    {
      Setting(SettingOf(screen), charsets, if screen.inAlt then altSets else mainSets)
    }

    function ModesNow(): Modes
      reads this`column132, this`noClear, this`conformance, this`savedModes, screen`inAlt
      reads screen`originMode, screen`autoWrap, screen`reverseWrap, screen`moreFix, screen`lrMarginMode
    {
      Modes(column132, noClear, conformance, savedModes, screen.inAlt, FlagsOf(screen))
    }

    ghost function Was(): (b: Before)
      requires Valid()
      reads this, screen, screen.Footprint(), ParserSet()
      ensures b.face.kept.switches == switches
    {
      Before(Shown(), screen.Now(), screen.pendingWrap, CurrentSet(), Settings(), ModesNow(), Last(lastRune, lastStyle))
    }

    lemma ParserIsApart()
      requires Valid()
      ensures ParserSet() !! screen.Footprint()
    {}

    lemma WasHere()
      requires Valid()
      ensures Was().page == screen.Now() && Was().deferred == screen.pendingWrap && Was().charset == CurrentSet()
      ensures Was().setting == Settings() && Was().modes == ModesNow() && Was().last == Last(lastRune, lastStyle)
    {}

    lemma StyleHere()
      requires Valid()
      ensures Was().setting.screen.glyph.style == screen.style
    {}

    lemma SettingHere()
      requires Valid()
      ensures screen.Valid() && Settings().screen == SettingOf(screen) && Settings().charsets == charsets
      ensures Settings().screen.glyph == screen.Glyph(0) && Settings().savedSets == if screen.inAlt then altSets else mainSets
      ensures Settings().screen.slot == if screen.inAlt then screen.altCursor else screen.mainCursor
      ensures Settings().screen.flags == FlagsOf(screen) == ModesNow().flags
    {}

    /** The operation has been carried out on the page and the setting of `was`. */
    ghost predicate Done(op: Op, was: Before)
      requires Valid()
      reads this, screen, screen.Footprint(), ParserSet()
    {
      && Effect(screen, op, was.page, was.deferred, was.setting.screen)
      && charsets == was.setting.charsets && Settings().savedSets == was.setting.savedSets
      && (op.Cursor? || ModesNow() == was.modes.After(op))
    }

    /** The character has been printed, and unless it has no width it is the one a repeat prints again. */
    ghost predicate Printed(c: nat, was: Before)
      requires Valid()
      reads this, screen, screen.Footprint(), ParserSet()
    {
      && Done(Op.Print(c, runeWidth(c)), was)
      && Last(lastRune, lastStyle) == if runeWidth(c) > 0 then Last(c, was.setting.screen.glyph.style) else was.last
    }

    /** The cursor saved or restored with the character sets, in the slot of the screen shown. */
    ghost predicate CursorDone(save: bool, was: Before)
      requires Valid()
      reads this, screen, screen.Footprint(), ParserSet()
    {
      && Effect(screen, Cursor(save), was.page, was.deferred, was.setting.screen)
      && charsets == (if !save && was.setting.screen.slot.valid then was.setting.savedSets else was.setting.charsets)
      && Settings().savedSets == if save then was.setting.charsets else was.setting.savedSets
    }

    /** Nothing but the setting changed. */
    ghost predicate Set(to: Setting, was: Before)
      requires Valid()
      reads this, screen, screen.Footprint(), ParserSet()
    {
      screen.Now() == was.page && screen.pendingWrap == was.deferred && Settings() == to
    }

    /** Nothing changed. */
    ghost predicate Stays(was: Before)
      requires Valid()
      reads this, screen, screen.Footprint(), ParserSet()
    {
      Set(was.setting, was) && ModesNow() == was.modes
    }

    lemma NothingDone()
      requires Valid()
      ensures Stays(Was())
    {
      hide Valid, Screen.Now, Shown;
    }

    /** The blank main screen of a terminal just made, at home, with everything kept aside gone. */
    ghost predicate IsNew()
      requires Valid()
      reads this, screen, screen.Footprint(), ParserSet()
    {
      && !screen.inAlt && screen.saved == None && screen.curX == 0 && screen.curY == 0 && screen.drained == [] && !screen.pendingWrap
      && screen.View() == Lines.Repeat(Line(BlankRow(screen.width, DEFAULT), false), screen.height)
      && charsets == DEFAULT_SETS && singleShift == None && !noClear && !column132
    }

    constructor (rows: nat, cols: nat, width: nat -> nat)
      requires rows > 0 && cols > 0
      ensures Valid() && fresh(screen) && fresh(screen.Footprint()) && fresh(ParserSet()) && switches == 0 && !screen.inAlt
    {
      var p := new Parser.Parser();
      var s := new Screen(rows, cols);
      parser, screen, runeWidth := p, s, width;
      charsets, singleShift, mainSets, altSets := DEFAULT_SETS, None, DEFAULT_SETS, DEFAULT_SETS;
      lastRune, lastStyle, conformance, noClear, column132, savedModes, switches := 0, PLAIN, 65, false, false, map[], 0;
    }

    // ---- operations and switches ----

    method DoOnScreen(op: Op)
      requires Valid()
      modifies screen, screen.Footprint()
      ensures Valid() && fresh(screen.Footprint() - old(screen.Footprint())) && Extends(old(Keeps()), Keeps()) && screen.inAlt == old(screen.inAlt)
      ensures Effect(screen, op, old(screen.Now()), old(screen.pendingWrap), old(SettingOf(screen)))
    {
      hide Screen.Valid, Screen.TabsOk, Screen.SavedView, SetsOk, Effect, Screen.Now, SettingOf;
      Perform(screen, op);
    }

    lemma IsDone(op: Op, was: Before)
      requires Valid() && Effect(screen, op, was.page, was.deferred, was.setting.screen)
      requires charsets == was.setting.charsets && was.setting.savedSets == if screen.inAlt then altSets else mainSets
      requires was.modes == Modes(column132, noClear, conformance, savedModes, screen.inAlt, was.setting.screen.flags)
      ensures Done(op, was)
    {
      SettingHere();
      hide Valid, Effect, Screen.Now, FlagsAfter, FlagsOf, SettingOf, Was, CurrentSet, ParserSet;
      FlagsFollow(screen, op, was.page, was.deferred, was.setting.screen);
    }

    method Do(op: Op)
      requires Valid()
      modifies screen, screen.Footprint()
      ensures Valid() && fresh(screen.Footprint() - old(screen.Footprint())) && Extends(old(Keeps()), Keeps())
      ensures Done(op, old(Was()))
    {
      hide Valid, ScreenOk, Keeps, Shown, Extends, Effect, Screen.Now, FlagsOf, SettingOf, Was, CurrentSet, ParserSet, Done;
      ghost var was := Was();
      WasHere();
      SettingHere();
      DoOnScreen(op);
      IsDone(op, was);
    }

    method ResetScreen()
      requires Valid()
      modifies screen, screen.Footprint(), this`switches
      ensures Valid() && fresh(screen.Footprint() - old(screen.Footprint())) && switches == old(switches) + 1
      ensures Extends(old(Keeps()), Keeps())
      ensures !screen.inAlt && screen.saved == None && screen.curX == 0 && screen.curY == 0 && screen.drained == [] && !screen.pendingWrap
      ensures screen.View() == Lines.Repeat(Line(BlankRow(screen.width, DEFAULT), false), screen.height)
    {
      hide Screen.Valid, Screen.TabsOk, Screen.SavedView, Screen.View, Lines.Repeat, BlankRow;
      ScreenRuns.HardReset(screen);
      switches := switches + 1;
    }

    method SwitchTo(on: bool, mode: nat)
      requires Valid()
      modifies screen, screen.Footprint(), this`switches
      ensures Valid() && fresh(screen.Footprint() - old(screen.Footprint())) && Extends(old(Keeps()), Keeps())
      ensures Switched(old(Shown()), Shown(), mode, on) && ModesNow() == old(ModesNow()).(inAlt := on)
    {
      hide Screen.Valid, Screen.TabsOk, Screen.SavedView, Screen.SavedRegionOk, Screen.View, FlagsOf;
      ScreenRuns.SwitchScreen(screen, on, mode);
      switches := switches + 1;
    }

    /** A deferred wrap is cancelled, or not; nothing else changes. */
    method CancelIf(cancels: bool)
      requires Valid()
      modifies screen`pendingWrap
      ensures Valid() && Keeps() == old(Keeps()) && screen.Footprint() == old(screen.Footprint())
      ensures Was() == old(Was()).(deferred := old(Was()).deferred && !cancels)
    {
      if cancels { screen.pendingWrap := false; }
    }

    // ---- printing ----

    /** A character of its width, which a repeat can print again in the same style. */
    method Print(r: nat)
      requires Valid()
      modifies this`lastRune, this`lastStyle, screen, screen.Footprint()
      ensures Valid() && fresh(screen.Footprint() - old(screen.Footprint())) && Extends(old(Keeps()), Keeps())
      ensures Printed(r, old(Was()))
    {
      hide Valid, ScreenOk, Keeps, Shown, Extends, Effect, Was, CurrentSet, Settings, ModesNow, Modes.After;
      WasHere();
      StyleHere();
      Remember(r);
      Do(Op.Print(r, runeWidth(r)));
    }

    method Remember(r: nat)
      requires Valid()
      modifies this`lastRune, this`lastStyle
      ensures Valid() && Keeps() == old(Keeps()) && Was() == old(Was()).(last := Was().last)
      ensures Last(lastRune, lastStyle) == if runeWidth(r) > 0 then Last(r, screen.style) else old(Last(lastRune, lastStyle))
    {
      if runeWidth(r) > 0 {
        lastRune, lastStyle := r, screen.style;
      }
    }

    /** The set the next character is read in: a single shift holds for one character. */
    function CurrentSet(): Charset
      requires SetsOk(charsets) && (singleShift.Some? ==> 2 <= singleShift.value <= 3)
      reads this
    {
      charsets.sets[if singleShift.Some? then singleShift.value else charsets.gl]
    }

    /** A printable byte, read in its set. */
    method PrintAscii(b: Byte)
      requires Valid()
      modifies this`lastRune, this`lastStyle, this`singleShift, screen, screen.Footprint()
      ensures Valid() && fresh(screen.Footprint() - old(screen.Footprint())) && Extends(old(Keeps()), Keeps())
      ensures Printed(Translated(old(CurrentSet()), b), old(Was()))
      ensures singleShift == None
    {
      hide Valid, ScreenOk, Keeps, Shown, Extends, Effect, Was, Translated, Settings, ModesNow, Screen.Now, Modes.After;
      WasHere();
      SetIsNamed();
      var r := Translated(CurrentSet(), b);
      EndShift();
      Print(r);
    }

    lemma SetIsNamed()
      requires Valid()
      ensures SetsOk(charsets) && (singleShift.Some? ==> 2 <= singleShift.value <= 3)
    {}

    method EndShift()
      requires Valid()
      modifies this`singleShift
      ensures Valid() && Keeps() == old(Keeps()) && singleShift == None && Was() == old(Was()).(charset := Was().charset)
    {
      singleShift := None;
    }

    /** The last character has been printed `n` times more, in the style it was printed in, and nothing else changed;
        before any character there is nothing to print. */
    ghost predicate Repeated(n: nat, was: Before)
      requires Valid()
      reads this, screen, screen.Footprint(), ParserSet()
    {
      && Settings() == was.setting && ModesNow() == was.modes && screen.PageOk(was.page) && screen.width > 0
      && if was.last.ch == 0 || runeWidth(was.last.ch) == 0 then screen.Now() == was.page && screen.pendingWrap == was.deferred
         else (screen.Now(), screen.pendingWrap)
              == screen.AfterAll(was.page, was.deferred, was.last.ch, Min(runeWidth(was.last.ch), 2), was.last.style, n)
    }

    lemma IsRepeated(n: nat, was: Before)
      requires Valid() && (was.last.ch == 0 || runeWidth(was.last.ch) == 0)
      requires screen.Now() == was.page && screen.pendingWrap == was.deferred && Settings() == was.setting && ModesNow() == was.modes
      ensures Repeated(n, was)
    {}

    method PrintAgain(n: nat)
      requires Valid() && runeWidth(lastRune) > 0
      modifies screen`cells, screen`wrapped, screen`drained, screen`curX, screen`curY, screen`pendingWrap, screen.Footprint()
      ensures Valid() && fresh(screen.Footprint() - old(screen.Footprint())) && Extends(old(Keeps()), Keeps())
      ensures Settings() == old(Settings()) && ModesNow() == old(ModesNow())
      ensures screen.width > 0 && screen.PageOk(old(screen.Now()))
      ensures (screen.Now(), screen.pendingWrap)
           == screen.AfterAll(old(screen.Now()), old(screen.pendingWrap), lastRune, Min(runeWidth(lastRune), 2), screen.style, n)
    {
      hide Screen.Valid, Screen.TabsOk, Screen.SavedView, SetsOk, Screen.Now, Screen.PageOk, Screen.AfterAll, SettingOf;
      ScreenRuns.PerformAgain(screen, lastRune, runeWidth(lastRune), n);
    }

    /** `n` of the last character from where `was` was, in its own style. */
    ghost predicate PrintedAgain(n: nat, was: Before)
      requires Valid()
      reads this, screen, screen.Footprint(), ParserSet()
    {
      && runeWidth(was.last.ch) > 0 && ModesNow() == was.modes && screen.PageOk(was.page) && screen.width > 0
      && (screen.Now(), screen.pendingWrap)
         == screen.AfterAll(was.page, was.deferred, was.last.ch, Min(runeWidth(was.last.ch), 2), was.last.style, n)
    }

    method PrintInItsStyle(n: nat)
      requires Valid() && runeWidth(lastRune) > 0
      modifies screen, screen.Footprint()
      ensures Valid() && fresh(screen.Footprint() - old(screen.Footprint())) && Extends(old(Keeps()), Keeps())
      ensures Settings() == Styled(old(Was()).setting, lastStyle) && PrintedAgain(n, old(Was()))
    {
      hide Valid, ScreenOk, Keeps, Shown, Was, Screen.Now, Screen.PageOk, Screen.AfterAll, SettingOf, FlagsOf, Settings, ModesNow, CurrentSet,
        ParserSet, Screen.Valid, SetsOk;
      WasHere();
      SetStyle(lastStyle);
      PrintAgain(n);
    }

    method RepeatLast(n: nat)
      requires Valid() && lastRune != 0 && runeWidth(lastRune) > 0
      modifies screen, screen.Footprint()
      ensures Valid() && fresh(screen.Footprint() - old(screen.Footprint())) && Extends(old(Keeps()), Keeps())
      ensures Repeated(n, old(Was()))
    {
      hide Valid, ScreenOk, Keeps, Shown, Was, Screen.Now, Screen.PageOk, Screen.AfterAll, SettingOf, FlagsOf, Settings, ModesNow, CurrentSet,
        ParserSet, Screen.Valid, SetsOk, PrintedAgain;
      WasHere();
      StyleHere();
      var saved := screen.style;
      ghost var was := Was();
      PrintInItsStyle(n);
      SetStyleBack(saved, n, was);
    }

    method SetStyleBack(style: Style, ghost n: nat, ghost was: Before)
      requires Valid() && PrintedAgain(n, was) && was.last.ch != 0
      requires Settings() == Styled(was.setting, was.last.style) && was.setting.screen.glyph.style == style
      modifies screen`style
      ensures Valid() && Keeps() == old(Keeps()) && screen.Footprint() == old(screen.Footprint()) && Repeated(n, was)
    {
      hide Valid, ScreenOk, Keeps, Shown, Was, Screen.Now, Screen.PageOk, Screen.AfterAll, SettingOf, FlagsOf, Settings, ModesNow, CurrentSet,
        ParserSet, Screen.Valid, SetsOk;
      WasHere();
      SetStyle(style);
    }

    /** REP: the last character again, in the style it was printed with. */
    method Repeat(n: nat)
      requires Valid()
      modifies screen, screen.Footprint()
      ensures Valid() && fresh(screen.Footprint() - old(screen.Footprint())) && Extends(old(Keeps()), Keeps())
      ensures Repeated(n, old(Was()))
    {
      hide Valid, ScreenOk, Keeps, Shown, Was, Repeated, Settings, ModesNow, CurrentSet, ParserSet, Screen.Valid, Screen.Now;
      WasHere();
      if lastRune == 0 || runeWidth(lastRune) == 0 {
        IsRepeated(n, Was());
      } else {
        RepeatLast(n);
      }
    }

    method SetStyle(style: Style)
      requires Valid()
      modifies screen`style
      ensures Valid() && Keeps() == old(Keeps()) && screen.Footprint() == old(screen.Footprint()) && screen.style == style
      ensures Set(Styled(old(Was()).setting, style), old(Was()))
      ensures ModesNow() == old(ModesNow())
    {
      hide Screen.Valid, Screen.View, ScreenOk, FlagsOf;
      WasHere();
      SettingHere();
      StoreStyle(style);
      SettingHere();
      screen.ViewStays();
    }

    method StoreStyle(style: Style)
      requires Valid()
      modifies screen`style
      ensures Valid() && Keeps() == old(Keeps()) && screen.Footprint() == old(screen.Footprint()) && screen.style == style
    {
      screen.style := style;
    }

    // ---- controls and escape sequences ----

    method Guard(on: bool)
      requires Valid()
      modifies screen`isoGuarded
      ensures Valid() && Keeps() == old(Keeps()) && screen.Footprint() == old(screen.Footprint()) && screen.isoGuarded == on
    {
      screen.isoGuarded := on;
    }

    /** What a control character does to the screen shown. */
    static function ControlOp(b: Byte): Option<Op> {
      match b
      case 0x08 => Some(Backspace)
      case 0x09 => Some(Tab)
      case 0x0D => Some(CarriageReturn)
      case _ => if 0x0A <= b <= 0x0C then Some(LineFeed) else None
    }

    ghost predicate CarriedControl(b: Byte, was: Before)
      requires Valid()
      reads this, screen, screen.Footprint(), ParserSet()
    {
      && switches == was.face.kept.switches
      && (ControlOp(b).Some? ==> Done(ControlOp(b).value, was))
      && (b == 0x0E || b == 0x0F ==> Set(was.setting.(charsets := was.setting.charsets.(gl := if b == 0x0E then 1 else 0)), was))
      && (b == 0x96 || b == 0x97 ==> Set(Guarded(was.setting, b == 0x96), was))
      && (ControlOp(b).None? && b != 0x0E && b != 0x0F && b != 0x96 && b != 0x97 ==> Stays(was))
    }

    method DoControl(b: Byte)
      requires Valid()
      modifies this`charsets, screen, screen.Footprint()
      ensures Valid() && fresh(screen.Footprint() - old(screen.Footprint())) && Extends(old(Keeps()), Keeps())
      ensures CarriedControl(b, old(Was()))
    {
      hide Valid, ScreenOk, Keeps, Shown, Was, Done, Modes.After, ModesNow, Set, Stays;
      WasShown();
      if ControlOp(b).Some? { Do(ControlOp(b).value); }
      else if b == 0x0E { Shift(1); }
      else if b == 0x0F { Shift(0); }
      else if b == 0x96 || b == 0x97 { GuardSet(b == 0x96); }
      else { NothingDone(); }
    }

    method Shift(gl: nat)
      requires Valid() && gl < 2
      modifies this`charsets
      ensures Valid() && Keeps() == old(Keeps()) && Set(old(Was()).setting.(charsets := old(Was()).setting.charsets.(gl := gl)), old(Was()))
    {
      charsets := charsets.(gl := gl);
    }

    /** DECSC and DECRC keep the character sets with the cursor, in the slot of the screen shown. */
    method SaveOrRestore(save: bool)
      requires Valid()
      modifies this`charsets, this`mainSets, this`altSets, screen, screen.Footprint()
      ensures Valid() && fresh(screen.Footprint() - old(screen.Footprint())) && Extends(old(Keeps()), Keeps())
      ensures CursorDone(save, old(Was()))
    {
      hide Valid, ScreenOk, Keeps, Shown, SetsOk, Modes.After, Effect, Was, SettingOf, Screen.Now;
      WasHere();
      SettingHere();
      var inAlt := screen.inAlt;
      var valid := if inAlt then screen.altCursor.valid else screen.mainCursor.valid;
      if save { KeepSets(inAlt); } else if valid { BringSets(inAlt); }
      SettingHere();
      Do(Cursor(save));
      SettingHere();
    }

    method KeepSets(inAlt: bool)
      requires Valid() && inAlt == screen.inAlt
      modifies this`mainSets, this`altSets
      ensures Valid() && Keeps() == old(Keeps())
      ensures Was() == old(Was()).(setting := old(Was()).setting.(savedSets := charsets))
    {
      if inAlt { altSets := charsets; } else { mainSets := charsets; }
    }

    method BringSets(inAlt: bool)
      requires Valid() && inAlt == screen.inAlt
      modifies this`charsets
      ensures Valid() && Keeps() == old(Keeps())
      ensures var b := old(Was()).setting; Was() == old(Was()).(setting := b.(charsets := b.savedSets), charset := CurrentSet())
    {
      charsets := if inAlt then altSets else mainSets;
    }

    method ResetSets()
      requires Valid()
      modifies this`charsets, this`singleShift, this`mainSets, this`altSets, this`noClear, this`column132
      ensures Valid() && Keeps() == old(Keeps()) && charsets == DEFAULT_SETS && singleShift == None && !noClear && !column132
      ensures Was().page == old(Was()).page && Was().deferred == old(Was()).deferred && Was().setting.screen == old(Was()).setting.screen
    {
      ForgetSets();
    }

    method ForgetSets()
      requires Valid()
      modifies this`charsets, this`singleShift, this`mainSets, this`altSets, this`noClear, this`column132
      ensures Valid() && charsets == DEFAULT_SETS && singleShift == None && !noClear && !column132
    {
      charsets, singleShift, mainSets, altSets, noClear, column132 := DEFAULT_SETS, None, DEFAULT_SETS, DEFAULT_SETS, false, false;
    }

    method Designate(interm: Byte, f: char)
      requires Valid()
      modifies this`charsets
      ensures Valid() && Keeps() == old(Keeps())
      ensures if Designates(interm).Some? then Set(old(Was()).setting.(charsets := Designated(old(Was()).setting.charsets, interm, f)), old(Was()))
              else Stays(old(Was()))
    {
      if Designates(interm).Some? {
        charsets := Designated(charsets, interm, f);
      }
    }

    /** What an escape sequence does to the screen shown, apart from resets, saved cursors and guarding. */
    static function EscapeOp(f: char): Option<Op> {
      match f
      case 'H' => Some(TabStop(true))
      case 'D' => Some(Down)
      case 'E' => Some(NextLine)
      case 'M' => Some(ReverseIndex)
      case '6' => Some(Index(true))
      case '9' => Some(Index(false))
      case _ => None
    }

    /** What an escape sequence does, but for the hard reset of what is not shown. */
    ghost predicate CarriedEscape(interm: Option<Byte>, f: char, was: Before)
      requires Valid()
      reads this, screen, screen.Footprint(), ParserSet()
    {
      if interm.Some? then
        && (interm.value == 0x23 && f == '8' ==> Done(Align, was))
        && ((if interm.value == 0x23 then f != '8' else Designates(interm.value).None?) ==> Stays(was))
        && (Designates(interm.value).Some? ==> Set(was.setting.(charsets := Designated(was.setting.charsets, interm.value, f)), was))
      else
        && (EscapeOp(f).Some? ==> Done(EscapeOp(f).value, was.(deferred := was.deferred && f != 'D')))
        && (f == '7' || f == '8' ==> CursorDone(f == '7', was))
        && (f == 'V' || f == 'W' ==> Set(Guarded(was.setting, f == 'V'), was))
        && (f == 'N' || f == 'O' ==> Set(was.setting, was) && singleShift == Some(if f == 'N' then 2 else 3))
        && (f == 'c' ==> IsNew() && switches > was.face.kept.switches)
        && (EscapeOp(f).None? && f !in "78VWNOc" ==> Stays(was))
    }

    method DoEscape(interm: Option<Byte>, final: Byte)
      requires Valid()
      modifies this, screen, screen.Footprint()
      ensures Valid() && fresh(screen.Footprint() - old(screen.Footprint())) && Extends(old(Keeps()), Keeps())
      ensures CarriedEscape(interm, final as char, old(Was()))
    {
      hide Valid, ScreenOk, Keeps, Shown, Was, Done, Modes.After, ModesNow, Set, Stays, CursorDone, IsNew, Designated;
      var f := final as char;
      if interm.Some? {
        if interm.value != 0x23 { Designate(interm.value, f); } else if f == '8' { Do(Align); } else { NothingDone(); }
      } else if EscapeOp(f).Some? {
        CancelIf(f == 'D');
        Do(EscapeOp(f).value);
      } else { DoOtherEscape(f); }
    }

    /** Saved cursors, guarding, single shifts and the hard reset. */
    method DoOtherEscape(f: char)
      requires Valid() && EscapeOp(f) == None
      modifies this, screen, screen.Footprint()
      ensures Valid() && fresh(screen.Footprint() - old(screen.Footprint())) && Extends(old(Keeps()), Keeps())
      ensures CarriedEscape(None, f, old(Was()))
    {
      hide Valid, ScreenOk, Keeps, Shown, Was, Done, Modes.After, ModesNow, Set, Stays, CursorDone, IsNew;
      if f == '7' || f == '8' { SaveOrRestore(f == '7'); }
      else if f == 'V' || f == 'W' { GuardSet(f == 'V'); }
      else if f == 'N' || f == 'O' { ShiftOne(if f == 'N' then 2 else 3); }
      else if f == 'c' { ResetAll(); }
      else { NothingDone(); }
    }

    method GuardSet(on: bool)
      requires Valid()
      modifies screen`isoGuarded
      ensures Valid() && Keeps() == old(Keeps()) && screen.Footprint() == old(screen.Footprint())
      ensures Set(Guarded(old(Was()).setting, on), old(Was()))
    {
      hide Screen.Valid, Screen.View, ScreenOk, FlagsOf;
      ghost var was := Was();
      WasHere();
      SettingHere();
      Guard(on);
      SettingHere();
      screen.ViewStays();
    }

    method ShiftOne(g: nat)
      requires Valid() && 2 <= g <= 3
      modifies this`singleShift
      ensures Valid() && Keeps() == old(Keeps()) && Set(old(Was()).setting, old(Was())) && singleShift == Some(g)
    {
      singleShift := Some(g);
    }

    method ResetAll()
      requires Valid()
      modifies this, screen, screen.Footprint()
      ensures Valid() && fresh(screen.Footprint() - old(screen.Footprint())) && Extends(old(Keeps()), Keeps())
      ensures IsNew() && switches > old(Was()).face.kept.switches
    {
      hide Valid, ScreenOk, Keeps, Shown, Was, Screen.View, Lines.Repeat, BlankRow;
      WasShown();
      ResetScreen();
      ResetSets();
    }

    // ---- modes ----

    /** One private mode set or reset: the modes, the switch of the screen, the saved cursor, and what an operation does. */
    ghost predicate CarriedMode(mode: nat, on: bool, was: Before)
      requires Valid()
      reads this, screen, screen.Footprint(), ParserSet()
    {
      && (mode == 1048 || ModesNow() == was.modes.Turned(mode, on))
      && (mode == 1048 ==> CursorDone(on, was))
      && (IsAltMode(mode) ==> Switched(was.face, Shown(), mode, on))
      && (ModeOp(mode, on, was).Some? ==>
            && Effect(screen, ModeOp(mode, on, was).value, was.page, was.deferred, was.setting.screen)
            && charsets == was.setting.charsets && Settings().savedSets == was.setting.savedSets)
    }

    /** The flags as they are but for one. */
    function OneFlag(mode: nat, on: bool): Op
      reads screen`autoWrap, screen`insertMode, screen`reverseWrap, screen`newLineMode, screen`moreFix
    {
      SetModes(if mode == 7 then on else screen.autoWrap, screen.insertMode, if mode == 45 then on else screen.reverseWrap,
               screen.newLineMode, if mode == 41 then on else screen.moreFix)
    }

    lemma OneFlagTurns(mode: nat, on: bool)
      requires Valid() && IsFlag(mode)
      ensures ModesNow().After(OneFlag(mode, on)) == ModesNow().Turned(mode, on) && ModeOp(mode, on, Was()) == Some(OneFlag(mode, on))
    {}

    method SetFlag(mode: nat, on: bool)
      requires Valid() && IsFlag(mode)
      modifies screen, screen.Footprint()
      ensures Valid() && fresh(screen.Footprint() - old(screen.Footprint())) && Extends(old(Keeps()), Keeps())
      ensures CarriedMode(mode, on, old(Was()))
    {
      hide Valid, ScreenOk, Keeps, Shown, ModesNow, Modes.After, Modes.Turned, Was, Effect, Switched, CursorDone, ModeOp;
      OneFlagTurns(mode, on);
      WasHere();
      Do(OneFlag(mode, on));
    }

    method SetMode(mode: nat, on: bool)
      requires Valid()
      modifies this, screen, screen.Footprint()
      ensures Valid() && fresh(screen.Footprint() - old(screen.Footprint())) && Extends(old(Keeps()), Keeps())
      ensures CarriedMode(mode, on, old(Was()))
    {
      hide Valid, ScreenOk, Keeps, Shown, Switched, ModesNow, Was, CarriedMode;
      if IsAltMode(mode) { SetAltMode(mode, on); }
      else if IsFlag(mode) { SetFlag(mode, on); }
      else { SetOther(mode, on); }
    }

    method SetAltMode(mode: nat, on: bool)
      requires Valid() && IsAltMode(mode)
      modifies this, screen, screen.Footprint()
      ensures Valid() && fresh(screen.Footprint() - old(screen.Footprint())) && Extends(old(Keeps()), Keeps())
      ensures CarriedMode(mode, on, old(Was()))
    {
      hide Valid, ScreenOk, Keeps, Shown, Switched, ModesNow, Was, Effect, CursorDone;
      WasHere();
      WasShown();
      SwitchTo(on, mode);
    }

    /** The other modes that act on the grid. */
    method SetOther(mode: nat, on: bool)
      requires Valid() && !IsAltMode(mode) && !IsFlag(mode)
      modifies this, screen, screen.Footprint()
      ensures Valid() && fresh(screen.Footprint() - old(screen.Footprint())) && Extends(old(Keeps()), Keeps())
      ensures CarriedMode(mode, on, old(Was()))
    {
      hide Valid, ScreenOk, Keeps, Shown, Was, Done, CursorDone, Effect, FlagsOf, ModesNow, Modes.Turned, Modes.After, Switched, CarriedMode;
      match mode
      case 3 => SetColumnMode(on);
      case 6 => SetOriginMode(on);
      case 69 => SetMarginMode(on);
      case 95 => SetNoClear(on);
      case 1048 => SaveForMode(on);
      case _ => NoMode(mode, on);
    }

    /** A mode is turned by its operation. */
    lemma ModeDone(mode: nat, on: bool, was: Before)
      requires Valid() && !IsAltMode(mode) && mode != 1048 && ModeOp(mode, on, was).Some? && Done(ModeOp(mode, on, was).value, was)
      requires ModesNow() == was.modes.Turned(mode, on)
      ensures CarriedMode(mode, on, was)
    {
      hide Valid, Was, Effect, ModesNow, Modes.Turned, Modes.After, ModeOp, Settings;
    }

    method SetOriginMode(on: bool)
      requires Valid()
      modifies screen, screen.Footprint()
      ensures Valid() && fresh(screen.Footprint() - old(screen.Footprint())) && Extends(old(Keeps()), Keeps())
      ensures CarriedMode(6, on, old(Was()))
    {
      hide Valid, ScreenOk, Keeps, Shown, Was, CarriedMode, Effect, ModesNow, Modes.Turned, Modes.After, Settings;
      ghost var was := Was();
      OriginTurns(was.modes, on);
      Do(OriginMode(on));
      ModeDone(6, on, was);
    }

    method SetMarginMode(on: bool)
      requires Valid()
      modifies screen, screen.Footprint()
      ensures Valid() && fresh(screen.Footprint() - old(screen.Footprint())) && Extends(old(Keeps()), Keeps())
      ensures CarriedMode(69, on, old(Was()))
    {
      LevelHere();
      hide Valid, ScreenOk, Keeps, Shown, Was, CarriedMode, ModesNow, Modes.Turned;
      if !on || conformance >= 64 {
        TurnMargins(on);
      } else {
        NotTurned(69, on);
      }
    }

    method TurnMargins(on: bool)
      requires Valid() && !(on && Was().modes.level < 64)
      modifies screen, screen.Footprint()
      ensures Valid() && fresh(screen.Footprint() - old(screen.Footprint())) && Extends(old(Keeps()), Keeps())
      ensures CarriedMode(69, on, old(Was()))
    {
      hide Valid, ScreenOk, Keeps, Shown, Was, CarriedMode, Effect, ModesNow, Modes.Turned, Modes.After, Settings;
      ghost var was := Was();
      MarginTurns(was.modes, on);
      Do(MarginMode(on));
      ModeDone(69, on, was);
    }

    lemma LevelHere()
      requires Valid()
      ensures Was().modes.level == conformance && Was().modes.noClear == noClear
    {}

    lemma NotTurned(mode: nat, on: bool)
      requires Valid() && !IsAltMode(mode) && mode != 1048 && ModeOp(mode, on, Was()) == None && Was().modes.Turned(mode, on) == Was().modes
      ensures CarriedMode(mode, on, Was())
    {
      WasHere();
      hide Valid, Was, Effect, ModesNow, Modes.Turned, ModeOp;
    }

    method SaveForMode(save: bool)
      requires Valid()
      modifies this, screen, screen.Footprint()
      ensures Valid() && fresh(screen.Footprint() - old(screen.Footprint())) && Extends(old(Keeps()), Keeps())
      ensures CarriedMode(1048, save, old(Was()))
    {
      hide Valid, ScreenOk, Keeps, Shown, Was, CursorDone, Effect, ModesNow, Modes.Turned, Switched;
      SaveOrRestore(save);
    }

    /** A mode that does not act on the grid. */
    lemma NoMode(mode: nat, on: bool)
      requires Valid() && !ActsOnGrid(mode) && mode != 1048
      ensures CarriedMode(mode, on, Was())
    {
      NotTurned(mode, on);
    }

    method SetNoClear(on: bool)
      requires Valid()
      modifies this`noClear
      ensures Valid() && Keeps() == old(Keeps()) && ModesNow() == old(ModesNow()).(noClear := on) && CarriedMode(95, on, old(Was()))
    {
      WasHere();
      hide Valid, ScreenOk, Keeps, Shown, Was, CursorDone, Effect, Switched;
      noClear := on;
    }

    method SetColumnBit(on: bool)
      requires Valid()
      modifies this`column132
      ensures Valid() && Keeps() == old(Keeps()) && Was() == old(Was()).(modes := old(Was()).modes.(column := on))
    {
      column132 := on;
    }

    lemma ColumnDone(on: bool, clear: bool, was: Before)
      requires Valid() && clear == !(was.modes.noClear && was.modes.level >= 65)
      requires Done(Op.ColumnMode(clear), was.(modes := was.modes.(column := on)))
      ensures CarriedMode(3, on, was)
    {
      hide Valid, ModesNow, Was, Effect, Switched, CursorDone, Modes.Turned, Modes.After;
      ColumnTurns(was.modes, on, clear);
    }

    method SetColumnMode(on: bool)
      requires Valid()
      modifies this`column132, screen, screen.Footprint()
      ensures Valid() && fresh(screen.Footprint() - old(screen.Footprint())) && Extends(old(Keeps()), Keeps())
      ensures CarriedMode(3, on, old(Was()))
    {
      LevelHere();
      hide Valid, ScreenOk, Keeps, Shown, Was, CarriedMode;
      TurnColumns(on, !(noClear && conformance >= 65));
    }

    method TurnColumns(on: bool, clear: bool)
      requires Valid() && clear == !(Was().modes.noClear && Was().modes.level >= 65)
      modifies this`column132, screen, screen.Footprint()
      ensures Valid() && fresh(screen.Footprint() - old(screen.Footprint())) && Extends(old(Keeps()), Keeps())
      ensures CarriedMode(3, on, old(Was()))
    {
      hide Valid, ScreenOk, Keeps, Shown, Was, ModesNow, CarriedMode, Done, Settings, Extends;
      ghost var was := Was();
      BitThenMode(on, clear);
      ColumnDone(on, clear, was);
    }

    method BitThenMode(on: bool, clear: bool)
      requires Valid()
      modifies this`column132, screen, screen.Footprint()
      ensures Valid() && fresh(screen.Footprint() - old(screen.Footprint())) && Extends(old(Keeps()), Keeps())
      ensures Done(Op.ColumnMode(clear), old(Was()).(modes := old(Was()).modes.(column := on)))
    {
      hide Valid, ScreenOk, Keeps, Shown, Was, ModesNow, Done, Settings, Extends;
      SetColumnBit(on);
      Do(ColumnMode(clear));
    }

    method SetAnsiMode(mode: nat, on: bool)
      requires Valid()
      modifies this, screen, screen.Footprint()
      ensures Valid() && fresh(screen.Footprint() - old(screen.Footprint())) && Extends(old(Keeps()), Keeps())
      ensures mode == 4 || mode == 20 ==> Done(AnsiOp(mode, on, old(Was()).setting.screen), old(Was()))
    {
      assert Was().setting.screen == SettingOf(screen);
      assert SettingOf(screen).newLine == screen.newLineMode && SettingOf(screen).insert == screen.insertMode
             && SettingOf(screen).flags == Flags(screen.originMode, screen.autoWrap, screen.reverseWrap, screen.moreFix, screen.lrMarginMode);
      hide Valid, ScreenOk, Keeps, Shown, Was, SettingOf, Done;
      if mode == 4 { Do(SetModes(screen.autoWrap, on, screen.reverseWrap, screen.newLineMode, screen.moreFix)); }
      else if mode == 20 { Do(SetModes(screen.autoWrap, screen.insertMode, screen.reverseWrap, on, screen.moreFix)); }
    }

    method ApplyMode(marker: Byte, on: bool, mode: nat)
      requires Valid()
      modifies this, screen, screen.Footprint()
      ensures Valid() && fresh(screen.Footprint() - old(screen.Footprint())) && Extends(old(Keeps()), Keeps())
      ensures marker == '?' as int ==> CarriedMode(mode, on, old(Was())) && (mode == 1048 || ModesNow() == old(ModesNow()).Turned(mode, on))
      ensures marker == 0 && (mode == 4 || mode == 20) ==> Done(AnsiOp(mode, on, old(Was()).setting.screen), old(Was()))
    {
      hide Valid, ScreenOk, Keeps, Shown, Switched, ModesNow, Modes.Turned, Effect, CursorDone, ModeOp, Done, Was;
      WasHere();
      if marker == '?' as int { SetMode(mode, on); }
      else if marker == 0 { SetAnsiMode(mode, on); }
    }

    lemma OneMore(a: seq<nat>, i: nat)
      requires i < |a|
      ensures a[..i + 1] == a[..i] + [a[i]] && (i == 0 ==> a[..i] == []) && a[..|a|] == a && a[i] in a
    {}

    /** SM, RM and their private forms, mode by mode. */
    method ApplyModes(marker: Byte, on: bool, a: seq<nat>)
      requires Valid()
      modifies this, screen, screen.Footprint()
      ensures Valid() && fresh(screen.Footprint() - old(screen.Footprint())) && Extends(old(Keeps()), Keeps())
      ensures marker == '?' as int && |a| == 1 ==> CarriedMode(a[0], on, old(Was()))
      ensures marker == '?' as int && 1048 !in a ==> ModesNow() == TurnedAll(old(ModesNow()), a, on)
      ensures marker == 0 && |a| == 1 && (a[0] == 4 || a[0] == 20) ==> Done(AnsiOp(a[0], on, old(Was()).setting.screen), old(Was()))
    {
      hide ScreenOk, SetsOk, Parser.Parser.Valid, Keeps, Shown, ModesNow, Modes.Turned, CarriedMode, Done, Was, AnsiOp;
      if |a| == 1 {
        OneMore(a, 0);
        ApplyMode(marker, on, a[0]);
        return;
      }
      for i := 0 to |a|
        invariant Valid() && fresh(screen.Footprint() - old(screen.Footprint())) && Extends(old(Keeps()), Keeps())
        invariant marker == '?' as int && 1048 !in a ==> ModesNow() == TurnedAll(old(ModesNow()), a[..i], on)
      {
        OneMore(a, i);
        ApplyMode(marker, on, a[i]);
      }
      if a != [] { OneMore(a, 0); }
    }

    /** XTSAVE: the status of every mode listed, and of no other. */
    method SaveModes(a: seq<nat>)
      requires Valid()
      modifies this`savedModes
      ensures Valid() && ModesNow() == old(ModesNow()).(saved := savedModes)
      ensures forall m :: m in a ==> m in savedModes && savedModes[m] == ModesNow().Status(m)
      ensures forall m :: m !in a ==> (m in savedModes <==> m in old(savedModes)) && (m in savedModes ==> savedModes[m] == old(savedModes)[m])
      ensures ModesNow() == StoredAll(old(ModesNow()), a)
    {
      hide ScreenOk, Modes.Status;
      for i := 0 to |a|
        invariant Valid() && ModesNow() == old(ModesNow()).(saved := savedModes) && ModesNow() == StoredAll(old(ModesNow()), a[..i])
      {
        OneMore(a, i);
        savedModes := savedModes[a[i] := ModesNow().Status(a[i])];
      }
      if a != [] { OneMore(a, 0); }
      StoredAreListed(old(ModesNow()), a);
      StatusIgnores(old(ModesNow()), savedModes);
    }

    method RestoreOne(mode: nat)
      requires Valid()
      modifies this, screen, screen.Footprint()
      ensures Valid() && fresh(screen.Footprint() - old(screen.Footprint())) && Extends(old(Keeps()), Keeps())
      ensures mode == 1048 || ModesNow() == old(ModesNow()).Restored(mode)
    {
      hide Valid, ScreenOk, Keeps, Shown, Modes.Turned, CarriedMode, Was;
      ApplyMode('?' as int, mode in savedModes && savedModes[mode], mode);
    }

    /** XTRESTORE, mode by mode. */
    method RestoreModes(a: seq<nat>)
      requires Valid()
      modifies this, screen, screen.Footprint()
      ensures Valid() && fresh(screen.Footprint() - old(screen.Footprint())) && Extends(old(Keeps()), Keeps())
      ensures 1048 !in a ==> ModesNow() == RestoredAll(old(ModesNow()), a)
    {
      hide ScreenOk, SetsOk, Parser.Parser.Valid, Keeps, Shown, Modes.Turned, Modes.Restored, ModesNow, CarriedMode, Was;
      for i := 0 to |a|
        invariant Valid() && fresh(screen.Footprint() - old(screen.Footprint())) && Extends(old(Keeps()), Keeps())
        invariant 1048 !in a ==> ModesNow() == RestoredAll(old(ModesNow()), a[..i])
      {
        OneMore(a, i);
        RestoreOne(a[i]);
      }
      if a != [] { OneMore(a, 0); }
    }

    /** A mode that acts on the grid, saved, set or reset and then restored, comes back if and only if it is not mode 41
        that was set, nor the margin mode that was set and is reset in between below conformance level 64. */
    method SaveAndRestore(mode: nat, between: bool)
      requires Valid() && ActsOnGrid(mode)
      modifies this, screen, screen.Footprint()
      ensures Valid() && fresh(screen.Footprint() - old(screen.Footprint())) && Extends(old(Keeps()), Keeps())
      ensures var was := old(ModesNow());
        ModesNow().On(mode) == was.On(mode) <==> !(mode == 41 && was.On(41)) && !(mode == 69 && was.On(69) && !between && was.level < 64)
    {
      hide Valid, ScreenOk, Keeps, Shown, Switched, ModesNow, Modes.Turned, Modes.On, Modes.Stored, Modes.Restored, IsAltMode, ActsOnGrid;
      SavedComesBackIff(ModesNow(), mode, between);
      SaveOne(mode);
      TurnAndRestore(mode, between);
    }

    method TurnAndRestore(mode: nat, between: bool)
      requires Valid() && mode != 1048
      modifies this, screen, screen.Footprint()
      ensures Valid() && fresh(screen.Footprint() - old(screen.Footprint())) && Extends(old(Keeps()), Keeps())
      ensures ModesNow() == old(ModesNow()).Turned(mode, between).Restored(mode)
    {
      hide Valid, ScreenOk, Keeps, Shown, Switched, ModesNow, Modes.Turned, Modes.Restored, IsAltMode;
      SetMode(mode, between);
      RestoreModes([mode]);
    }

    method SaveOne(mode: nat)
      requires Valid()
      modifies this`savedModes
      ensures Valid() && ModesNow() == old(ModesNow()).Stored(mode)
    {
      hide Valid, ScreenOk, Modes.Stored, ModesNow;
      SaveModes([mode]);
    }

    // ---- control sequences ----

    method Arguments() returns (a: seq<nat>)
      requires Valid()
      ensures a == MainValues(parser.params.groups)
    {
      a := [];
      for i := 0 to parser.params.numGroups
        invariant a == MainValues(parser.params.groups)[..i]
      {
        var g := parser.params.ParamGroup(i);
        a := a + [if g == [] then 0 else g[0]];
      }
    }

    method DoCsi(marker: Byte, interm: Option<Byte>, final: Byte)
      requires Valid()
      modifies this, screen, screen.Footprint()
      ensures Valid() && fresh(screen.Footprint() - old(screen.Footprint())) && Extends(old(Keeps()), Keeps())
      ensures CarriedCsi(marker, interm, final as char, MainValues(parser.params.groups), old(Was()))
    {
      hide Valid, ScreenOk, Keeps, Shown, Was, ClearsWrap, MainValues, ModesNow, Screen.Now, CurrentSet, Settings, Dispatched;
      ParserIsApart();
      var a := Arguments();
      var f := final as char;
      CancelIf(ClearsWrap(f));
      Dispatch(marker, interm, f, a);
    }

    method Dispatch(marker: Byte, interm: Option<Byte>, f: char, a: seq<nat>)
      requires Valid()
      modifies this, screen, screen.Footprint()
      ensures Valid() && fresh(screen.Footprint() - old(screen.Footprint())) && Extends(old(Keeps()), Keeps())
      ensures Dispatched(marker, interm, f, a, old(Was()))
    {
      hide Valid, ScreenOk, Keeps, Shown, Was, CarriedFinal, CarriedIntermediate, ModesNow;
      if interm.Some? && Parser.ConsumesSequence(interm.value) {
        Intermediate(interm.value as char, f, a);
      } else {
        DispatchFinal(marker, f, a);
      }
    }

    method DispatchFinal(marker: Byte, f: char, a: seq<nat>)
      requires Valid()
      modifies this, screen, screen.Footprint()
      ensures Valid() && fresh(screen.Footprint() - old(screen.Footprint())) && Extends(old(Keeps()), Keeps())
      ensures CarriedFinal(marker, f, a, old(Was()))
    {
      hide Valid, ScreenOk, Keeps, Shown, Was, Done, MainOp, CarriedMode, ModesNow, CarriedOther, AnsiOp, StoredAll, RestoredAll, TurnedAll, Stays, Repeated;
      WasHere();
      MainIsOther(f, marker, a, Was());
      if f == 'h' || f == 'l' { ApplyModes(marker, f == 'h', a); }
      else if f == 'r' && marker == '?' as int { RestoreModes(a); }
      else if f == 's' && marker == '?' as int { SaveModes(a); }
      else if MainOp(f, marker, a).Some? { Do(MainOp(f, marker, a).value); }
      else { DispatchOther(marker, f, a); }
      if f == 'h' || f == 'l' || marker == '?' as int || MainOp(f, marker, a).Some? { NoOther(f, marker, a, old(Was())); }
    }

    lemma MainIsOther(f: char, marker: Byte, a: seq<nat>, was: Before)
      requires Valid()
      ensures MainOp(f, marker, a).Some? ==> f !in "hlrsmub"
    {}

    lemma NoOther(f: char, marker: Byte, a: seq<nat>, was: Before)
      requires Valid() && (marker == '?' as int || f !in "rsmu")
      ensures CarriedOther(marker, f, a, was)
    {
      hide Valid, Done, CursorDone, Set, Was;
    }

    /** Margins, saved cursors, the pen and repeats. */
    method DispatchOther(marker: Byte, f: char, a: seq<nat>)
      requires Valid()
      modifies this, screen, screen.Footprint()
      ensures Valid() && fresh(screen.Footprint() - old(screen.Footprint())) && Extends(old(Keeps()), Keeps())
      ensures CarriedOther(marker, f, a, old(Was())) && (!Acts(marker, f, a) ==> Stays(old(Was())))
      ensures f == 'b' ==> Repeated(Arg(a, 0, 1), old(Was()))
    {
      hide Valid, ScreenOk, Keeps, Shown, Was, Done, CursorDone, Set, ModesNow, Arg, Stays, Repeated, MainOp;
      WasHere();
      MarginsAre();
      if f == 'r' && marker == 0 { Do(Region(Arg(a, 0, 1), Arg(a, 1, screen.height))); }
      else if f == 's' && marker == 0 && screen.lrMarginMode { Do(Margins(Arg(a, 0, 1), Arg(a, 1, screen.width))); }
      else if (f == 's' || f == 'u') && marker == 0 { SaveOrRestore(f == 's'); }
      else if f == 'm' && marker == 0 { TakePen(); }
      else if f == 'b' { Repeat(Arg(a, 0, 1)); }
      else { NothingDone(); }
    }

    lemma MarginsAre()
      requires Valid()
      ensures Was().modes.flags.margins == screen.lrMarginMode
      ensures Was().face.kept.height == screen.height && Was().face.kept.width == screen.width
    {}

    method TakePen()
      requires Valid()
      modifies screen`style
      ensures Valid() && Keeps() == old(Keeps()) && screen.Footprint() == old(screen.Footprint()) && screen.style == parser.pen.style
      ensures Set(Styled(old(Was()).setting, parser.pen.style), old(Was()))
    {
      SetStyle(parser.pen.style);
    }

    method Intermediate(i: char, f: char, a: seq<nat>)
      requires Valid()
      modifies this, screen, screen.Footprint()
      ensures Valid() && fresh(screen.Footprint() - old(screen.Footprint())) && Extends(old(Keeps()), Keeps())
      ensures CarriedIntermediate(i, f, a, old(Was()))
    {
      hide Valid, ScreenOk, Keeps, Shown, Was, Done, Modes.After, IntermediateOp, SettingOf, Arg, ModesNow, Effect, Stays;
      WasHere();
      SettingHere();
      OneKind(i, f, a, screen.Glyph(0));
      if i == '!' && f == 'p' {
        ResetSoftly();
      } else if i == '"' && f == 'p' {
        SetLevel(Arg(a, 0, 65));
      } else if IntermediateOp(i, f, a, screen.Glyph(0)).Some? {
        Do(IntermediateOp(i, f, a, screen.Glyph(0)).value);
      } else {
        NothingDone();
      }
    }

    lemma OneKind(i: char, f: char, a: seq<nat>, glyph: Cell)
      ensures IntermediateOp(i, f, a, glyph).Some? ==> f != 'p'
    {}

    method ResetSoftly()
      requires Valid()
      modifies this, screen, screen.Footprint()
      ensures Valid() && fresh(screen.Footprint() - old(screen.Footprint())) && Extends(old(Keeps()), Keeps())
      ensures Effect(screen, SoftReset, old(Was()).page, old(Was()).deferred, old(Was()).setting.screen)
      ensures charsets == DEFAULT_SETS && singleShift == None
    {
      hide Valid, ScreenOk, Keeps, Shown, Was, SettingOf, ModesNow, Effect, Screen.Now, Settings;
      ResetSets();
      Do(SoftReset);
    }

    method SetLevel(level: nat)
      requires Valid()
      modifies this`conformance
      ensures Valid() && Keeps() == old(Keeps()) && ModesNow() == old(ModesNow()).(level := level)
    {
      conformance := level;
    }

    method DoOsc(payload: seq<Byte>)
      requires Valid()
      modifies screen`link
      ensures Valid() && fresh(screen.Footprint() - old(screen.Footprint())) && Extends(old(Keeps()), Keeps())
      ensures Shown() == old(Shown()) && ModesNow() == old(ModesNow())
      ensures Set(Linked(old(Was()).setting, LinkAfter(payload)), old(Was()))
    {
      hide Screen.Valid, Screen.View, Screen.SavedView, FlagsOf, LinkAfter;
      var link := LinkAfter(payload);
      if link.Some? {
        screen.link := link.value;
      }
    }

    // ---- bytes ----

    /** What a control sequence without an intermediate byte that takes it elsewhere does: an operation happens from
        where the screen was, modes are set, reset, saved or restored. */
    ghost predicate CarriedFinal(marker: Byte, f: char, a: seq<nat>, was: Before)
      requires Valid()
      reads this, screen, screen.Footprint(), ParserSet()
    {
      && (marker == '?' as int && (f == 'h' || f == 'l') && |a| == 1 ==> CarriedMode(a[0], f == 'h', was))
      && (OnModes(marker, f, a) ==> ModesNow() == ModesAfter(f, a, was.modes))
      && (marker == 0 && (f == 'h' || f == 'l') && |a| == 1 && (a[0] == 4 || a[0] == 20) ==> Done(AnsiOp(a[0], f == 'h', was.setting.screen), was))
      && (MainOp(f, marker, a).Some? ==> Done(MainOp(f, marker, a).value, was))
      && (f == 'b' ==> Repeated(Arg(a, 0, 1), was))
      && CarriedOther(marker, f, a, was) && (!Acts(marker, f, a) ==> Stays(was))
    }

    /** The pen, the region, the margins and the saved cursor. */
    ghost predicate CarriedOther(marker: Byte, f: char, a: seq<nat>, was: Before)
      requires Valid()
      reads this, screen, screen.Footprint(), ParserSet()
    {
      marker == 0 ==>
        && (f == 'm' ==> Set(Styled(was.setting, parser.pen.style), was))
        && (f == 'r' ==> Done(Region(Arg(a, 0, 1), Arg(a, 1, was.face.kept.height)), was))
        && (f == 's' && was.modes.flags.margins ==> Done(Margins(Arg(a, 0, 1), Arg(a, 1, was.face.kept.width)), was))
        && ((f == 's' && !was.modes.flags.margins) || f == 'u' ==> CursorDone(f == 's', was))
    }

    /** What a control sequence with an intermediate byte that consumes it does. */
    ghost predicate CarriedIntermediate(i: char, f: char, a: seq<nat>, was: Before)
      requires Valid()
      reads this, screen, screen.Footprint(), ParserSet()
    {
      && (i == '"' && f == 'p' ==> ModesNow() == was.modes.(level := Arg(a, 0, 65)))
      && (i == '!' && f == 'p' ==>
            Effect(screen, SoftReset, was.page, was.deferred, was.setting.screen) && charsets == DEFAULT_SETS && singleShift == None)
      && (IntermediateOp(i, f, a, was.setting.screen.glyph).Some? ==> Done(IntermediateOp(i, f, a, was.setting.screen.glyph).value, was))
      && (IntermediateOp(i, f, a, was.setting.screen.glyph).None? && !((i == '!' || i == '"') && f == 'p') ==> Stays(was))
    }

    ghost predicate Dispatched(marker: Byte, interm: Option<Byte>, f: char, a: seq<nat>, was: Before)
      requires Valid()
      reads this, screen, screen.Footprint(), ParserSet()
    {
      if interm.Some? && Parser.ConsumesSequence(interm.value) then CarriedIntermediate(interm.value as char, f, a, was)
      else CarriedFinal(marker, f, a, was)
    }

    ghost predicate CarriedCsi(marker: Byte, interm: Option<Byte>, f: char, a: seq<nat>, was: Before)
      requires Valid()
      reads this, screen, screen.Footprint(), ParserSet()
    {
      Dispatched(marker, interm, f, a, was.(deferred := was.deferred && !ClearsWrap(f)))
    }

    /** What one report does. */
    ghost predicate Carried(r: Parser.Report, was: Before)
      requires Valid()
      reads this, screen, screen.Footprint(), ParserSet()
    {
      match r
      case Osc(payload) => Shown() == was.face && ModesNow() == was.modes && Set(Linked(was.setting, LinkAfter(payload)), was)
      case Csi(marker, interm, final) => CarriedCsi(marker, interm, final as char, MainValues(parser.params.groups), was)
      case Ascii(b) =>
        switches == was.face.kept.switches && singleShift == None && Printed(Translated(was.charset, b), was)
      case Rune(c) => switches == was.face.kept.switches && Printed(c, was)
      case Control(b) => CarriedControl(b, was)
      case Escape(interm, final) => CarriedEscape(interm, final as char, was)
    }

    lemma WasShown()
      requires Valid()
      ensures Was().face == Shown() && Shown().kept == Keeps() && Keeps().switches == switches
    {}

    /** The end of a string changes nothing shown, and a printed character nothing kept. */
    lemma CarriedQuietly(r: Parser.Report, was: Before)
      requires Valid() && Carried(r, was) && Extends(was.face.kept, Keeps())
      ensures r.Osc? ==> Shown() == was.face
      ensures r.Osc? || r.Rune? || r.Ascii? ==> Keeps() == was.face.kept && ModesNow() == was.modes
    {
      hide Valid, Keeps, Shown, Effect, Set, Settings;
      WasShown();
    }

    lemma CarriedPen(was: Before)
      requires Valid() && Carried(Parser.Csi(0, None, 'm' as int), was)
      ensures Set(Styled(was.setting, parser.pen.style), was)
      ensures screen.style == parser.pen.style
    {
      SettingHere();
      hide Valid, Done, CarriedMode, CursorDone, Settings, SettingOf;
    }

    lemma CarriedPlain(b: Byte, was: Before)
      requires Valid() && Carried(Parser.Ascii(b), was) && was.charset == Us && runeWidth(b) == 1
      ensures singleShift == None && Settings() == was.setting
      ensures screen.PageOk(was.page) && Prints(screen, was.page, was.deferred, b, 1)
    {
      SettingHere();
      hide Valid, Prints, Screen.PageOk, SettingOf;
    }

    method CarryText(r: Parser.Report)
      requires Valid() && IsText(r)
      modifies this, screen, screen.Footprint()
      ensures Valid() && fresh(screen.Footprint() - old(screen.Footprint())) && Extends(old(Keeps()), Keeps())
      ensures switches == old(switches) && Carried(r, old(Was()))
    {
      hide Valid, ScreenOk, Keeps, Shown, Was, Translated, Printed, Done, ModesNow, Settings, Screen.Now, CarriedControl;
      WasShown();
      WasHere();
      match r
      case Ascii(b) => PrintAscii(b);
      case Rune(c) => Print(c);
      case Control(b) => DoControl(b);
    }

    method CarryCommand(r: Parser.Report)
      requires Valid() && !IsText(r)
      modifies this, screen, screen.Footprint()
      ensures Valid() && fresh(screen.Footprint() - old(screen.Footprint())) && Extends(old(Keeps()), Keeps())
      ensures Carried(r, old(Was()))
    {
      hide Valid, ScreenOk, Keeps, Shown, Was, MainValues, LinkAfter, Done, CarriedCsi, ModesNow, CarriedEscape, Set;
      WasShown();
      WasHere();
      match r
      case Escape(interm, final) => DoEscape(interm, final);
      case Csi(marker, interm, final) => DoCsi(marker, interm, final);
      case Osc(payload) => DoOsc(payload);
    }

    method Carry(r: Parser.Report)
      requires Valid()
      modifies this, screen, screen.Footprint()
      ensures Valid() && fresh(screen.Footprint() - old(screen.Footprint())) && Extends(old(Keeps()), Keeps())
      ensures Carried(r, old(Was())) && (IsText(r) ==> switches == old(switches))
    {
      hide Valid, ScreenOk, Keeps, Shown, Was, Carried;
      if IsText(r) { CarryText(r); } else { CarryCommand(r); }
    }

    /** One byte through the parser, which reads the pen the screen prints with. The screen is not touched. */
    method Parse(b: Byte)
      requires Valid()
      modifies ParserSet()
      ensures Valid() && parser.out == old(parser.Reports(b)) && parser.Follows(b) && (b < 0x80 ==> parser.utf8Len == 0)
      ensures parser.EscapeFollows(b) && parser.CharacterFollows(b)
      ensures b == 'm' as int && (old(parser.state) == ParserTable.CSI_ENTRY || old(parser.state) == ParserTable.CSI_PARAM) && old(parser.SetsPen()) ==>
        parser.pen.style == Apply(Clipped(Params.Keep(Params.GroupsOf(old(parser.text)), Params.MAX_PARAMS)), screen.style)
      ensures Shown() == old(Shown()) && Was() == old(Was()) && Keeps() == old(Keeps()) && screen.style == old(screen.style)
    {
      hide ScreenOk, Screen.View, Screen.SavedView, Apply, Clipped, Params.Keep, Params.GroupsOf;
      parser.pen.style := screen.style;
      parser.Feed(b);
    }

    method CarryAll()
      requires Valid()
      modifies this, screen, screen.Footprint()
      ensures Valid() && fresh(screen.Footprint() - old(screen.Footprint())) && Extends(old(Keeps()), Keeps())
      ensures parser.out == [] ==> Was() == old(Was())
      ensures (forall r :: r in parser.out ==> IsText(r)) ==> switches == old(switches)
      ensures |parser.out| == 1 ==> Carried(parser.out[0], old(Was()))
    {
      hide ScreenOk, Keeps, Shown, Carried, Was, Parser.Parser.Valid;
      if |parser.out| == 1 {
        Carry(parser.out[0]);
        return;
      }
      for i := 0 to |parser.out|
        invariant Valid() && fresh(screen.Footprint() - old(screen.Footprint())) && Extends(old(Keeps()), Keeps())
        invariant i == 0 ==> Was() == old(Was())
        invariant (forall r :: r in parser.out ==> IsText(r)) ==> switches == old(switches)
      {
        Carry(parser.out[i]);
      }
    }

    /** One byte: the parser first, then everything it dispatched, in order. */
    method Feed(b: Byte)
      requires Valid()
      modifies this, screen, screen.Footprint(), ParserSet()
      ensures Valid() && fresh(screen.Footprint() - old(screen.Footprint())) && Extends(old(Keeps()), Keeps())
      ensures parser.Follows(b) && parser.EscapeFollows(b) && parser.CharacterFollows(b) && (b < 0x80 ==> parser.utf8Len == 0)
      ensures old(parser.Reports(b)) == [] ==> Was() == old(Was())
      ensures (forall r :: r in old(parser.Reports(b)) ==> IsText(r)) ==> switches == old(switches)
      ensures |old(parser.Reports(b))| == 1 ==> Carried(old(parser.Reports(b))[0], old(Was()))
      ensures b == 'm' as int && (old(parser.state) == ParserTable.CSI_ENTRY || old(parser.state) == ParserTable.CSI_PARAM) && old(parser.SetsPen()) ==>
        parser.pen.style == Apply(Clipped(Params.Keep(Params.GroupsOf(old(parser.text)), Params.MAX_PARAMS)), old(screen.style))
    {
      hide Valid, Apply, Clipped, Params.Keep, Params.GroupsOf;
      hide Valid, ScreenOk, Keeps, Shown, Carried, Was, Parser.Parser.Follows, Parser.Parser.Reports, Parser.Parser.Valid, Parser.Parser.EscapeFollows,
        Parser.Parser.CharacterFollows;
      Parse(b);
      CarryAll();
    }
  }
}
