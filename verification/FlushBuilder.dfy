/** The flush builder: frames that carry only what changed, against a client that keeps every line
    by absolute index and the alternate screen in a grid of its own. */
module FlushBuilder {
  import opened Sequences

  type Row = string

  datatype Modes = Modes(bracketedPaste: bool, appCursor: bool, mouseSgr: bool, mousePixels: bool, focusReporting: bool,
                         appKeypad: bool, reverseVideo: bool, mouseMode: nat, keyboardFlags: nat)

  datatype Look = Look(style: nat, hidden: bool, blink: bool)

  /** What the builder reads of the screen at one flush; `drained` are the lines that scrolled off since
      the last drain. */
  datatype Screen = Screen(rows: seq<Row>, curRow: int, curCol: int, look: Look, alt: bool, drained: seq<Row>,
                           bell: bool, held: bool, modes: Modes, title: string)

  datatype Frame = Frame(rows: seq<Row>, base: nat, changed: seq<nat>, scrollFirst: nat, scrollLines: seq<Row>,
                         curRow: int, curCol: int, look: Look, alt: bool, bell: bool,
                         modes: Option<Modes>, title: Option<string>)

  // ---- the client ----

  /** `alt` is the alternate screen's grid while that screen is shown. */
  datatype Client = Client(lines: map<nat, Row>, base: nat, height: nat, alt: Option<seq<Row>>,
                           cursor: Option<(int, int)>, look: Look, modes: Option<Modes>, title: Option<string>)

  predicate Touched(i: nat, base: nat, changed: seq<nat>) { base <= i && i - base in changed }

  function PutRows(lines: map<nat, Row>, rows: seq<Row>, base: nat, changed: seq<nat>): map<nat, Row> {
    lines + map i: nat | base <= i < base + |rows| && Touched(i, base, changed) :: rows[i - base]
  }

  function PutGrid(grid: seq<Row>, rows: seq<Row>, changed: seq<nat>): (r: seq<Row>)
    requires |grid| == |rows|
    ensures |r| == |rows| && forall y :: 0 <= y < |r| ==> r[y] == if y in changed then rows[y] else grid[y]
  {
    seq(|rows|, y requires 0 <= y < |rows| => if y in changed then rows[y] else grid[y])
  }

  function Blank(n: nat): (r: seq<Row>)
    ensures |r| == n
  {
    seq(n, i => "")
  }

  /** The alternate grid at height `n`: kept rows, then blank ones. */
  function Grid(alt: Option<seq<Row>>, n: nat): (r: seq<Row>)
    ensures |r| == n
    ensures alt.Some? && |alt.value| == n ==> r == alt.value
  {
    var kept := if alt.Some? then alt.value else [];
    if |kept| >= n then kept[..n] else kept + Blank(n - |kept|)
  }

  predicate Carried(i: nat, first: nat, count: nat) { first <= i < first + count }

  /** While the alternate screen is shown, lines at or above the frozen window are refused. */
  function ApplyScroll(c: Client, first: nat, lines: seq<Row>): Client {
    var bound := if c.alt.None? || c.height == 0 then first + |lines| else c.base;
    c.(lines := c.lines + map i: nat | i < first + |lines| && Carried(i, first, |lines|) && i < bound :: lines[i - first])
  }

  /** A screen frame is sent only when some row changed. */
  function ApplyScreen(c: Client, f: Frame): Client
    requires forall y :: y in f.changed ==> y < |f.rows|
  {
    if f.changed == [] then c
    else if f.alt then
      c.(alt := Some(PutGrid(Grid(c.alt, |f.rows|), f.rows, f.changed)), cursor := Some((f.curRow, f.curCol)), look := f.look)
    else
      c.(alt := None, lines := PutRows(c.lines, f.rows, f.base, f.changed), base := f.base, height := |f.rows|,
         cursor := Some((f.curRow, f.curCol)), look := f.look)
  }

  /** One frame, in the order its messages are sent: modes, title, screen, scroll lines. */
  function Apply(c: Client, f: Frame): Client
    requires forall y :: y in f.changed ==> y < |f.rows|
  {
    var c1 := c.(modes := if f.modes.Some? then f.modes else c.modes, title := if f.title.Some? then f.title else c.title);
    ApplyScroll(ApplyScreen(c1, f), f.scrollFirst, f.scrollLines)
  }

  // ---- what a frame is ----

  /** What the builder remembers of the frames it sent; None where it has announced nothing. */
  datatype Cache = Cache(rows: seq<Row>, base: nat, cursor: Option<(int, int)>, alt: Option<bool>,
                         modes: Option<Modes>, title: Option<string>)

  function PrevRow(v: Cache, abs: nat): Option<Row> {
    if |v.rows| == 0 || abs < v.base || abs >= v.base + |v.rows| then None else Some(v.rows[abs - v.base])
  }

  predicate AltPending(v: Cache, s: Screen) { v.alt.Some? && v.alt.value != s.alt }

  function Forget(v: Cache): Cache { Cache([], 0, None, v.alt, None, None) }

  /** What the diff is taken against: nothing after an alternate-screen switch. */
  function Baseline(v: Cache, s: Screen): Cache {
    if v.alt != Some(s.alt) then Forget(v).(alt := Some(s.alt)) else v
  }

  /** Lines drained on the main screen become history; across a switch they belong to the screen just left. */
  function History(v: Cache, s: Screen): seq<Row> {
    if s.alt || AltPending(v, s) then [] else s.drained
  }

  predicate Moved(v: Cache, s: Screen) { v.cursor != Some((s.curRow, s.curCol)) }

  /** Row `y` has to be sent: its content is not what was last sent for its absolute index, or the cursor
      left or entered it, or it carries the bell. */
  predicate MustSend(v: Cache, s: Screen, base: nat, y: int) {
    && 0 <= y < |s.rows|
    && (PrevRow(v, base + y) != Some(s.rows[y])
        || (Moved(v, s) && v.cursor.Some? && (y == v.cursor.value.0 || y == s.curRow))
        || (s.bell && y == s.curRow))
  }

  /** `f` is the frame that brings a client up to `s`, given what was sent before; None when nothing would
      be in it. */
  ghost predicate Updates(v: Cache, s: Screen, committed: nat, f: Option<Frame>) {
    var e, lines := Baseline(v, s), History(v, s);
    var base := committed + |lines|;
    && (f.None? <==> (forall y :: !MustSend(e, s, base, y)) && lines == [] && !Moved(e, s)
                     && e.modes == Some(s.modes) && e.title == Some(s.title))
    && (f.Some? ==>
          && f.value == Frame(s.rows, base, f.value.changed, committed, lines, s.curRow, s.curCol, s.look, s.alt, s.bell,
                              if e.modes == Some(s.modes) then None else Some(s.modes),
                              if e.title == Some(s.title) then None else Some(s.title))
          && forall y :: y in f.value.changed <==> MustSend(e, s, base, y))
  }

  function After(s: Screen, base: nat): Cache {
    Cache(s.rows, base, Some((s.curRow, s.curCol)), Some(s.alt), Some(s.modes), Some(s.title))
  }

  // ---- the builder ----

  class FlushFrameBuilder {
    var prevRows: seq<Row>
    var prevBase: nat
    var prevCurRow: int
    var prevCurCol: int
    var prevCurValid: bool
    var prevAlt: bool
    var prevAltValid: bool
    var prevModes: Modes
    var modesAnnounced: bool
    var prevTitle: string
    var titleAnnounced: bool

    constructor (m: Modes)
      ensures View() == Cache([], 0, None, None, None, None)
    {
      prevRows, prevBase, prevCurRow, prevCurCol, prevCurValid := [], 0, 0, 0, false;
      prevAlt, prevAltValid, prevModes, modesAnnounced, prevTitle, titleAnnounced := false, false, m, false, "", false;
    }

    method Reset()
      modifies this
      ensures View() == Forget(old(View()))
    {
      prevRows, prevBase, prevCurValid, modesAnnounced, titleAnnounced := [], 0, false, false, false;
    }

    function View(): Cache reads this {
      Cache(prevRows, prevBase, if prevCurValid then Some((prevCurRow, prevCurCol)) else None,
            if prevAltValid then Some(prevAlt) else None,
            if modesAnnounced then Some(prevModes) else None, if titleAnnounced then Some(prevTitle) else None)
    }

    /** The rows whose content differs from what was last sent for their absolute index. */
    method DiffWindow(rows: seq<Row>, base: nat) returns (changed: seq<nat>)
      modifies this`prevRows, this`prevBase
      ensures prevRows == rows && prevBase == base
      ensures forall y :: y in changed <==> 0 <= y < |rows| && PrevRow(old(View()), base + y) != Some(rows[y])
    {
      changed := [];
      var y := 0;
      while y < |rows|
        invariant 0 <= y <= |rows| && View() == old(View())
        invariant forall z :: z in changed <==> 0 <= z < y && PrevRow(View(), base + z) != Some(rows[z])
      {
        if PrevRow(View(), base + y) != Some(rows[y]) {
          changed := changed + [y];
        }
        y := y + 1;
      }
      prevRows := rows;
      prevBase := base;
    }

    /** Folds the rows the cursor left and entered into `changed`. */
    method TrackCursor(changed: seq<nat>, rowCount: nat, curRow: int, curCol: int) returns (all: seq<nat>, moved: bool)
      modifies this`prevCurRow, this`prevCurCol, this`prevCurValid
      ensures prevCurRow == curRow && prevCurCol == curCol && prevCurValid
      ensures moved <==> !old(prevCurValid) || curRow != old(prevCurRow) || curCol != old(prevCurCol)
      ensures changed <= all
      ensures forall y :: y in all <==>
        y in changed || (moved && old(prevCurValid) && 0 <= y < rowCount && (y == old(prevCurRow) || y == curRow))
    {
      all := changed;
      moved := !prevCurValid || curRow != prevCurRow || curCol != prevCurCol;
      if moved && prevCurValid {
        all := AppendRowIfMissing(all, prevCurRow, rowCount);
        all := AppendRowIfMissing(all, curRow, rowCount);
      }
      prevCurRow, prevCurCol, prevCurValid := curRow, curCol, true;
    }

    /** The rows that have to be sent: the diff, the cursor's rows, and the bell's. */
    method WindowChanges(s: Screen, base: nat) returns (changed: seq<nat>, moved: bool)
      modifies this`prevRows, this`prevBase, this`prevCurRow, this`prevCurCol, this`prevCurValid
      ensures View() == old(View()).(rows := s.rows, base := base, cursor := Some((s.curRow, s.curCol)))
      ensures moved == Moved(old(View()), s)
      ensures forall y :: y in changed <==> MustSend(old(View()), s, base, y)
    {
      changed := DiffWindow(s.rows, base);
      changed, moved := TrackCursor(changed, |s.rows|, s.curRow, s.curCol);
      if s.bell {
        changed := AppendRowIfMissing(changed, s.curRow, |s.rows|);
      }
    }

    /** The next frame. `committed` is the absolute index of the first drained line. */
    method Build(s: Screen, sizeEstablished: bool, committed: nat) returns (frame: Option<Frame>)
      modifies this
      ensures !sizeEstablished || s.held ==> frame == None && View() == old(View())
      ensures sizeEstablished && !s.held ==>
        Updates(old(View()), s, committed, frame) && View() == After(s, committed + |History(old(View()), s)|)
    {
      if !sizeEstablished || s.held {
        return None;
      }
      var altChanged := AltPending(View(), s);
      if !prevAltValid || altChanged {
        Reset();
        prevAlt, prevAltValid := s.alt, true;
      }
      assert View() == Baseline(old(View()), s);
      hide MustSend;
      var scrollOut: seq<Row> := [];
      if !s.alt && !altChanged && |s.drained| > 0 {
        scrollOut := s.drained;
      }
      var base := committed + |scrollOut|;
      var changed, moved := WindowChanges(s, base);
      assert changed != [] ==> changed[0] in changed;
      frame := Compose(s, base, changed, committed, scrollOut, moved);
    }

    /** The frame, or nothing when nothing would be in it; modes and title go only when they changed. */
    method Compose(s: Screen, base: nat, changed: seq<nat>, committed: nat, scrollOut: seq<Row>, moved: bool)
      returns (frame: Option<Frame>)
      modifies this`prevModes, this`modesAnnounced, this`prevTitle, this`titleAnnounced
      ensures View() == old(View()).(modes := Some(s.modes), title := Some(s.title))
      ensures var modesStable, titleStable := old(View()).modes == Some(s.modes), old(View()).title == Some(s.title);
        frame == if changed == [] && scrollOut == [] && modesStable && !moved && titleStable then None
                 else Some(Frame(s.rows, base, changed, committed, scrollOut, s.curRow, s.curCol, s.look, s.alt, s.bell,
                                 if modesStable then None else Some(s.modes), if titleStable then None else Some(s.title)))
    {
      var modesStable := modesAnnounced && prevModes == s.modes;
      var titleStable := titleAnnounced && prevTitle == s.title;
      if changed == [] && scrollOut == [] && modesStable && !moved && titleStable {
        return None;
      }
      frame := Some(Frame(s.rows, base, changed, committed, scrollOut, s.curRow, s.curCol, s.look, s.alt, s.bell,
                          if modesStable then None else Some(s.modes), if titleStable then None else Some(s.title)));
      prevModes, modesAnnounced, prevTitle, titleAnnounced := s.modes, true, s.title, true;
    }
  }

  function AppendRowIfMissing(changed: seq<nat>, y: int, rowCount: nat): (r: seq<nat>)
    ensures forall z :: z in r <==> z in changed || (z == y && 0 <= y < rowCount)
    ensures changed <= r
  {
    if y < 0 || y >= rowCount || y in changed then changed else changed + [y]
  }

  // ---- diffs against full repaints ----

  ghost predicate FrameOk(f: Frame) { forall y :: y in f.changed ==> y < |f.rows| }

  function Receive(c: Client, f: Option<Frame>): Client
    requires f.Some? ==> FrameOk(f.value)
  {
    if f.None? then c else Apply(c, f.value)
  }

  predicate ShowsRow(c: Client, row: Row, y: nat, base: nat, alt: bool) {
    if alt then c.alt.Some? && y < |c.alt.value| && c.alt.value[y] == row
    else c.alt.None? && base + y in c.lines && c.lines[base + y] == row
  }

  /** The client shows `rows`, in its alternate grid or from index `base` on. */
  ghost predicate Shows(c: Client, rows: seq<Row>, base: nat, alt: bool) {
    && (forall y :: 0 <= y < |rows| ==> ShowsRow(c, rows[y], y, base, alt))
    && (alt ==> c.alt.Some? && |c.alt.value| == |rows|)
  }

  predicate HasLine(c: Client, i: nat, row: Row) { i in c.lines && c.lines[i] == row }

  ghost predicate HoldsLines(c: Client, first: nat, lines: seq<Row>) {
    forall i: nat :: i < |lines| ==> HasLine(c, first + i, lines[i])
  }

  /** Everything the builder remembers having sent, the client has. */
  ghost predicate Synced(v: Cache, c: Client) {
    && (v.rows != [] ==> v.alt.Some? && v.cursor.Some? && Shows(c, v.rows, v.base, v.alt.value))
    && (v.cursor.Some? ==> c.cursor == v.cursor)
    && (v.modes.Some? ==> c.modes == v.modes)
    && (v.title.Some? ==> c.title == v.title)
  }

  /** A screen has rows and its cursor is on one of them; a resize forgets the cache, so the height is
      that of the last flush; and nothing is committed while the alternate screen is shown. */
  ghost predicate Plausible(v: Cache, s: Screen, committed: nat) {
    && !s.held && |s.rows| > 0 && 0 <= s.curRow < |s.rows|
    && (v.rows != [] ==> |v.rows| == |s.rows| && (s.alt && v.alt == Some(true) ==> v.base == committed))
  }

  /** A row that is not sent is one the client already shows. */
  lemma UnsentIsShown(v: Cache, c: Client, s: Screen, committed: nat, y: nat)
    requires Synced(v, c) && Plausible(v, s, committed) && y < |s.rows|
    requires var base := committed + |History(v, s)|; !MustSend(Baseline(v, s), s, base, y)
    ensures ShowsRow(c, s.rows[y], y, committed + |History(v, s)|, s.alt)
    ensures s.alt ==> c.alt.Some? && |c.alt.value| == |s.rows|
  {}

  /** If the cursor moved or nothing was sent before, some row is sent. */
  lemma SomethingIsSent(v: Cache, c: Client, s: Screen, committed: nat, f: Frame)
    requires Plausible(v, s, committed) && Updates(v, s, committed, Some(f))
    requires Synced(v, c) && f.changed == []
    ensures v.rows != [] && v.alt == Some(s.alt) && v.cursor == Some((s.curRow, s.curCol))
    ensures !s.alt ==> c.alt.None?
  {
    var e := Baseline(v, s);
    assert v.rows != [] ==> ShowsRow(c, v.rows[0], 0, v.base, v.alt.value);
    assert e.rows == [] ==> 0 in f.changed;
    assert Moved(e, s) && e.cursor.Some? ==> s.curRow in f.changed;
  }

  /** A row shows on the client after a frame if it was in the frame, or showed before and was not. */
  lemma RowAfterFrame(c: Client, f: Frame, y: nat)
    requires FrameOk(f) && y < |f.rows| && f.changed != []
    requires f.base == f.scrollFirst + |f.scrollLines| && (f.alt ==> f.scrollLines == [])
    requires y !in f.changed ==> ShowsRow(c, f.rows[y], y, f.base, f.alt) && (f.alt ==> c.alt.Some? && |c.alt.value| == |f.rows|)
    ensures ShowsRow(Apply(c, f), f.rows[y], y, f.base, f.alt)
    ensures f.alt ==> Apply(c, f).alt.Some? && |Apply(c, f).alt.value| == |f.rows|
  {}

  lemma WindowAfterFlush(v: Cache, c: Client, s: Screen, committed: nat, f: Option<Frame>)
    requires Synced(v, c) && Plausible(v, s, committed) && Updates(v, s, committed, f)
    requires f.Some? ==> FrameOk(f.value)
    ensures Shows(Receive(c, f), s.rows, committed + |History(v, s)|, s.alt)
  {
    hide MustSend, PrevRow, Plausible;
    var base := committed + |History(v, s)|;
    var c' := Receive(c, f);
    forall y: nat | y < |s.rows|
      ensures ShowsRow(c', s.rows[y], y, base, s.alt) && (s.alt ==> c'.alt.Some? && |c'.alt.value| == |s.rows|)
    {
      hide Synced, Shows;
      if !MustSend(Baseline(v, s), s, base, y) { UnsentIsShown(v, c, s, committed, y); }
      hide ShowsRow;
      if f.Some? && f.value.changed != [] { RowAfterFrame(c, f.value, y); }
    }
    assert |s.rows| > 0 by { PlausibleHasRows(v, s, committed); }
    assert ShowsRow(c', s.rows[0], 0, base, s.alt);
  }

  lemma PlausibleHasRows(v: Cache, s: Screen, committed: nat)
    requires Plausible(v, s, committed)
    ensures |s.rows| > 0
  {}

  lemma HistoryAfterFlush(v: Cache, c: Client, s: Screen, committed: nat, f: Option<Frame>)
    requires Synced(v, c) && Plausible(v, s, committed) && Updates(v, s, committed, f)
    requires f.Some? ==> FrameOk(f.value)
    ensures var c' := Receive(c, f);
            HoldsLines(c', committed, History(v, s))
  {
    hide MustSend, PrevRow, Shows;
    var c' := Receive(c, f);
    if f.Some? && f.value.changed == [] { SomethingIsSent(v, c, s, committed, f.value); }
    forall i: nat | i < |History(v, s)| ensures HasLine(c', committed + i, History(v, s)[i]) {
      assert Carried(committed + i, committed, |History(v, s)|);
    }
  }

  lemma StatusAfterFlush(v: Cache, c: Client, s: Screen, committed: nat, f: Option<Frame>)
    requires Synced(v, c) && Plausible(v, s, committed) && Updates(v, s, committed, f)
    requires f.Some? ==> FrameOk(f.value)
    ensures var c' := Receive(c, f);
            c'.cursor == Some((s.curRow, s.curCol)) && c'.modes == Some(s.modes) && c'.title == Some(s.title)
  {
    hide MustSend, PrevRow, Shows, Plausible;
    if f.Some? && f.value.changed == [] { SomethingIsSent(v, c, s, committed, f.value); }
  }

  /** The client sees the whole screen after every flush although only changed rows were sent: its
      window, its history, its cursor, its modes and its title are the screen's. */
  lemma FlushShowsTheScreen(v: Cache, c: Client, s: Screen, committed: nat, f: Option<Frame>)
    requires Synced(v, c) && Plausible(v, s, committed) && Updates(v, s, committed, f)
    requires f.Some? ==> FrameOk(f.value)
    ensures var base := committed + |History(v, s)|;
            var c' := Receive(c, f);
            && Shows(c', s.rows, base, s.alt) && Synced(After(s, base), c')
            && c'.cursor == Some((s.curRow, s.curCol)) && c'.modes == Some(s.modes) && c'.title == Some(s.title)
            && HoldsLines(c', committed, History(v, s))
  {
    hide MustSend, PrevRow, Shows, Plausible, Updates, Receive;
    WindowAfterFlush(v, c, s, committed, f);
    StatusAfterFlush(v, c, s, committed, f);
    HistoryAfterFlush(v, c, s, committed, f);
    assert Synced(After(s, committed + |History(v, s)|), Receive(c, f));
  }

  function AllRows(n: nat): (r: seq<nat>)
    ensures |r| == n && forall y :: y in r <==> 0 <= y < n
  {
    if n == 0 then [] else AllRows(n - 1) + [n - 1]
  }

  /** The diff refines the full repaint: a client that gets only the changed rows ends in the same state as
      one that gets every row of the screen in the same frame. */
  lemma DiffRefinesFullRepaint(v: Cache, c: Client, s: Screen, committed: nat, f: Frame)
    requires Synced(v, c) && Plausible(v, s, committed) && Updates(v, s, committed, Some(f)) && f.changed != []
    requires FrameOk(f)
    ensures Apply(c, f) == Apply(c, f.(changed := AllRows(|f.rows|)))
  {
    hide MustSend, PrevRow, Plausible, Shows, Synced;
    forall y: nat | y < |s.rows| && y !in f.changed
      ensures ShowsRow(c, s.rows[y], y, f.base, s.alt) && (s.alt ==> c.alt.Some? && |c.alt.value| == |s.rows|)
    {
      UnsentIsShown(v, c, s, committed, y);
    }
    hide Updates;
    SameRows(c, f);
  }

  lemma SameRows(c: Client, f: Frame)
    requires FrameOk(f) && f.changed != []
    requires forall y: nat :: y < |f.rows| && y !in f.changed ==>
      ShowsRow(c, f.rows[y], y, f.base, f.alt) && (f.alt ==> c.alt.Some? && |c.alt.value| == |f.rows|)
    ensures ApplyScreen(c, f) == ApplyScreen(c, f.(changed := AllRows(|f.rows|)))
  {
    var all := AllRows(|f.rows|);
    assert f.changed[0] in f.changed && 0 in all;
    if f.alt {
      assert PutGrid(Grid(c.alt, |f.rows|), f.rows, f.changed) == PutGrid(Grid(c.alt, |f.rows|), f.rows, all);
    } else {
      forall i: nat | f.base <= i < f.base + |f.rows| && !Touched(i, f.base, f.changed)
        ensures i in c.lines && c.lines[i] == f.rows[i - f.base]
      {
        assert ShowsRow(c, f.rows[i - f.base], i - f.base, f.base, f.alt);
      }
      SameLines(c.lines, f.rows, f.base, f.changed);
    }
  }

  lemma SameLines(lines: map<nat, Row>, rows: seq<Row>, base: nat, changed: seq<nat>)
    requires forall i: nat :: base <= i < base + |rows| && !Touched(i, base, changed) ==> i in lines && lines[i] == rows[i - base]
    ensures PutRows(lines, rows, base, changed) == PutRows(lines, rows, base, AllRows(|rows|))
  {}

  predicate Due(v: Cache, s: Screen, committed: nat, y: int) {
    MustSend(Baseline(v, s), s, committed + |History(v, s)|, y)
  }

  /** The cursor's look reaches the client only with a row: after a flush the client's look is the screen's
      if and only if it was already, or some row had to be sent. */
  lemma LookIsCurrentIff(v: Cache, c: Client, s: Screen, committed: nat, f: Option<Frame>)
    requires Updates(v, s, committed, f) && (f.Some? ==> FrameOk(f.value))
    ensures Receive(c, f).look == s.look <==>
            c.look == s.look || exists y :: Due(v, s, committed, y)
  {
    if f.Some? && f.value.changed != [] { assert Due(v, s, committed, f.value.changed[0]); }
  }

  /** A bell rings on the client although nothing else changed: there is a frame, and it carries the cursor's row. */
  lemma BellIsSent(v: Cache, s: Screen, committed: nat, f: Option<Frame>)
    requires Updates(v, s, committed, f) && s.bell && 0 <= s.curRow < |s.rows|
    ensures f.Some? && f.value.bell && s.curRow in f.value.changed
  {
    assert MustSend(Baseline(v, s), s, committed + |History(v, s)|, s.curRow);
  }

  /** A pure scroll re-sends no row that kept its absolute index, but for the rows the cursor left and entered
      and the bell's: when the screen moved up by the lines it drained, a kept row is sent only on those accounts. */
  lemma PureScrollSendsNewRowsOnly(v: Cache, s: Screen, f: Frame)
    requires Updates(v, s, v.base, Some(f)) && v.alt == Some(false) && !s.alt
    requires |v.rows| == |s.rows| && |s.drained| <= |s.rows|
    requires forall y :: 0 <= y < |s.rows| - |s.drained| ==> s.rows[y] == v.rows[y + |s.drained|]
    ensures forall y :: y in f.changed && y < |s.rows| - |s.drained| ==>
      || (Moved(v, s) && v.cursor.Some? && (y == v.cursor.value.0 || y == s.curRow))
      || (s.bell && y == s.curRow)
    ensures f.scrollFirst == v.base && f.scrollLines == s.drained
  {}

  // ---- runs ----

  /** A flush, or an event that empties the cache: a resize, a palette change, or a client that attaches
      or resumes, whose state may be anything. */
  datatype Event = Flush(screen: Screen, committed: nat, frame: Option<Frame>) | Repaint(joining: Option<Client>)

  ghost predicate StepOk(v: Cache, e: Event) {
    e.Flush? ==> Plausible(v, e.screen, e.committed) && Updates(v, e.screen, e.committed, e.frame)
                 && (e.frame.Some? ==> FrameOk(e.frame.value))
  }

  function Step(v: Cache, c: Client, e: Event): (Cache, Client)
    requires e.Flush? && e.frame.Some? ==> FrameOk(e.frame.value)
  {
    match e
    case Flush(s, committed, f) => (After(s, committed + |History(v, s)|), Receive(c, f))
    case Repaint(joining) => (Forget(v), if joining.Some? then joining.value else c)
  }

  ghost predicate Run(v: Cache, c: Client, events: seq<Event>, v': Cache, c': Client)
    decreases |events|
  {
    if events == [] then v' == v && c' == c
    else StepOk(v, events[0]) && Run(Step(v, c, events[0]).0, Step(v, c, events[0]).1, events[1..], v', c')
  }

  /** Over every run of screens, scrolls, alternate-screen switches and resets, whoever attaches when: what
      the builder remembers is what the client has, so a later flush brings the client up to date again. */
  lemma {:induction false} RunStaysInSync(v: Cache, c: Client, events: seq<Event>, v': Cache, c': Client)
    requires Synced(v, c) && Run(v, c, events, v', c')
    ensures Synced(v', c')
    decreases |events|
  {
    hide Synced, Updates, Plausible, Receive;
    if events != [] {
      match events[0]
      case Flush(s, committed, f) =>
        FlushShowsTheScreen(v, c, s, committed, f);
        RunStaysInSync(Step(v, c, events[0]).0, Step(v, c, events[0]).1, events[1..], v', c');
      case Repaint(joining) =>
        ForgottenIsSynced(v, Step(v, c, events[0]).1);
        RunStaysInSync(Step(v, c, events[0]).0, Step(v, c, events[0]).1, events[1..], v', c');
    }
  }

  lemma ForgottenIsSynced(v: Cache, c: Client)
    ensures Synced(Forget(v), c)
  {}
}
