/** Frames, resumes and clients together: what every client shows and holds, over every interleaving of flushes,
    dispatches and resumes. The protocol is `ResumeGate`, the frames are `FlushBuilder`'s. */
module Replication {
  import opened Sequences
  import opened FlushBuilder
  import Gate = ResumeGate

  type Sock = Gate.Sock

  /** `acked` once the resumeAck has been read; before it screens and lines are ignored. `since` is the absolute index
      from which frames carry the history, the base of the last batch. */
  datatype Viewer = Viewer(view: Client, acked: bool, since: nat)

  /** The frame on its way out, and what it was built from. */
  datatype Sent = Sent(before: Cache, screen: Screen, committed: nat, frame: Frame)

  /** A resume's snapshot: the screen, the lines from `first` on, and the base of its window. */
  datatype Batch = Batch(screen: Screen, first: nat, replay: seq<Row>, base: nat)

  /** `log` is the committed history, and `drains` the indices of it that no frame carried. */
  datatype State = State(gate: Gate.State, cache: Cache, log: seq<Row>, drains: set<nat>, viewers: map<Sock, Viewer>,
                         sent: Option<Sent>, batches: map<Sock, Batch>)

  const Init := State(Gate.Init, Cache([], 0, None, None, None, None), [], {}, map[], None, map[])

  /** One critical section. A flush without clients only drains; one before the first size throws its lines away. */
  datatype Label =
    | Attach(s: Sock, page: Client)
    | Leave(s: Sock)
    | Reset
    | Unsized(screen: Screen)
    | Suspended(screen: Screen)
    | Flush(screen: Screen, frame: Option<Frame>)
    | Write(s: Sock)
    | Dispatched
    | Lock(s: Sock)
    | Snapshot(s: Sock, screen: Screen, first: nat)
    | Send(s: Sock)

  const MAX_SCROLL_LINES_PER_FRAME := 1000

  function Count(b: bool): nat { if b then 1 else 0 }

  /** The step of the gate that a step is, if any. */
  function GateLabel(e: Label): Option<Gate.Label> {
    match e
    case Attach(s, _) => Some(Gate.Add(s))
    case Leave(s) => Some(Gate.Remove(s))
    case Flush(_, Some(f)) =>
      Some(Gate.Build(StateCount(f), false,
                      (|f.scrollLines| + MAX_SCROLL_LINES_PER_FRAME - 1) / MAX_SCROLL_LINES_PER_FRAME))
    case Write(s) => Some(Gate.Write(s))
    case Dispatched => Some(Gate.Dispatched)
    case Lock(s) => Some(Gate.Lock(s))
    case Snapshot(s, _, _) => Some(Gate.Snapshot(s))
    case Send(s) => Some(Gate.Batch(s, 3))
    case _ => None
  }

  ghost predicate NoClients(g: Gate.State) { forall s :: !Gate.Registered(g, s) }

  /** A screen has rows and its cursor is on one of them; a resize resets the cache, so the height is the cache's. */
  predicate Sound(v: Cache, s: Screen) { !s.held && |s.rows| > 0 && 0 <= s.curRow < |s.rows| && (v.rows != [] ==> |v.rows| == |s.rows|) }

  ghost predicate Enabled(st: State, e: Label) {
    && (GateLabel(e).Some? ==> Gate.Enabled(st.gate, GateLabel(e).value))
    && match e
       case Unsized(_) => st.gate.flight.None?
       case Suspended(_) => st.gate.flight.None? && NoClients(st.gate)
       case Flush(screen, frame) =>
         && st.gate.flight.None? && !NoClients(st.gate) && Sound(st.cache, screen)
         && Updates(st.cache, screen, |st.log|, frame) && (frame.Some? ==> FrameOk(frame.value))
       case Write(s) => s in st.viewers && st.sent.Some? && FrameOk(st.sent.value.frame)
       case Snapshot(s, screen, first) => screen.rows != [] && first <= |st.log + History(st.cache, screen)|
       case Send(s) => s in st.viewers && s in st.batches
       case _ => true
  }

  /** Among what the gate writes there is something that shows the screen. */
  predicate ShowsState(ms: seq<Gate.Message>) { exists i :: 0 <= i < |ms| && ms[i].Shown? }

  /** What a client makes of what the gate writes to it of a frame: all of it, or no more than its lines. */
  function Reads(v: Viewer, f: Frame, ms: seq<Gate.Message>): Viewer
    requires FrameOk(f)
  {
    var whole := ShowsState(ms);
    if !v.acked then v.(view := if whole then Announced(v.view, f.modes, f.title) else v.view)
    else if whole then v.(view := Apply(v.view, f))
    else v.(view := ApplyScroll(v.view, f.scrollFirst, f.scrollLines))
  }

  function Announced(c: Client, modes: Option<Modes>, title: Option<string>): Client {
    c.(modes := if modes.Some? then modes else c.modes, title := if title.Some? then title else c.title)
  }

  /** The repaint of a batch: every row of the window. */
  function Repainted(b: Batch): (f: Frame)
    ensures FrameOk(f) && (b.screen.rows != [] ==> f.changed != [])
  {
    var s := b.screen;
    Frame(s.rows, b.base, AllRows(|s.rows|), b.base, [], s.curRow, s.curCol, s.look, s.alt, false, None, None)
  }

  /** What a client makes of a batch: in the alternate screen the replay goes first. */
  function BatchRead(c: Client, b: Batch): Client {
    var c1 := Announced(c, Some(b.screen.modes), Some(b.screen.title));
    if b.screen.alt then ApplyScreen(ApplyScroll(c1, b.first, b.replay), Repainted(b))
    else ApplyScroll(ApplyScreen(c1, Repainted(b)), b.first, b.replay)
  }

  predicate Within(i: nat, from: nat, to: nat) { from <= i < to }

  function Indices(from: nat, to: nat): (r: set<nat>)
    ensures forall i :: i in r <==> from <= i < to
  {
    set i: nat | i < to && Within(i, from, to)
  }

  function Written(g: Gate.State, s: Sock): seq<Gate.Message>
    requires g.flight.Some? && s in g.clients
  {
    Gate.Payloads(g.flight.value, s, g.clients[s].gen)
  }

  function StateCount(f: Frame): nat { Count(f.modes.Some?) + Count(f.title.Some?) + Count(f.changed != []) }

  predicate WritesWhole(g: Gate.State, s: Sock) {
    s in g.clients && g.flight.Some? && s in g.flight.value.gens && g.flight.value.gens[s] == g.clients[s].gen
  }

  ghost function Next(st: State, e: Label): State
    requires Enabled(st, e)
  {
    var st1 := if GateLabel(e).Some? then st.(gate := Gate.Next(st.gate, GateLabel(e).value)) else st;
    match e
    case Attach(s, page) => st1.(viewers := st.viewers[s := Viewer(page, false, 0)])
    case Reset => st1.(cache := Forget(st.cache))
    case Suspended(screen) => Drained(st1, screen)
    case Flush(screen, frame) =>
      var lines := History(st.cache, screen);
      st1.(cache := After(screen, |st.log| + |lines|), log := st.log + lines,
           sent := if frame.Some? then Some(Sent(st.cache, screen, |st.log|, frame.value)) else None)
    case Write(s) => st1.(viewers := st.viewers[s := Reads(st.viewers[s], st.sent.value.frame, Written(st.gate, s))])
    case Dispatched => st1.(sent := None)
    case Snapshot(s, screen, first) =>
      var log := st.log + History(st.cache, screen);
      Drained(st1, screen).(cache := Forget(st.cache), batches := st.batches[s := Batch(screen, first, log[first..], |log|)])
    case Send(s) =>
      st1.(viewers := st.viewers[s := Viewer(BatchRead(st.viewers[s].view, st.batches[s]), true, st.batches[s].base)])
    case _ => st1
  }

  function Drained(st: State, screen: Screen): State {
    var lines := History(st.cache, screen);
    st.(log := st.log + lines, drains := st.drains + Indices(|st.log|, |st.log| + |lines|))
  }

  // ---- the invariant ----

  predicate Forgotten(v: Cache) { v.rows == [] && v.cursor.None? && v.modes.None? && v.title.None? }

  predicate InTodo(g: Gate.State, s: Sock) { g.flight.Some? && s in g.flight.value.todo }

  /** A frame of the client's own generation is still to be written to it. */
  predicate Awaits(g: Gate.State, s: Sock) { InTodo(g, s) && WritesWhole(g, s) }

  /** The client holds every line that frames carried from `since` up to `upto`. */
  ghost predicate Holds(view: Client, log: seq<Row>, drains: set<nat>, since: nat, upto: nat) {
    forall i :: since <= i < upto && i < |log| && i !in drains ==> i in view.lines && view.lines[i] == log[i]
  }

  /** How far the history has been written to the client. */
  function Upto(st: State, s: Sock): nat { if Awaits(st.gate, s) && st.sent.Some? then st.sent.value.committed else |st.log| }

  /** What a diff would be taken against is what the client has; after a snapshot not yet sent, nothing. */
  ghost predicate InStep(st: State, s: Sock)
    requires s in st.gate.clients && s in st.viewers
  {
    var c, v := st.gate.clients[s], st.viewers[s];
    if Awaits(st.gate, s) then
      st.sent.Some? && if c.resume.Snapped? then Forgotten(st.sent.value.before) else v.acked ==> Synced(st.sent.value.before, v.view)
    else
      && (InTodo(st.gate, s) ==> Forgotten(st.cache))
      && (c.registered ==> if c.resume.Snapped? then Forgotten(st.cache) else v.acked ==> Synced(st.cache, v.view))
  }

  ghost predicate HistoryOk(st: State, s: Sock)
    requires s in st.gate.clients && s in st.viewers
  {
    var c, v := st.gate.clients[s], st.viewers[s];
    && (c.registered && v.acked && !c.resume.Snapped? ==> Holds(v.view, st.log, st.drains, v.since, Upto(st, s)))
    && (c.resume.Snapped? ==>
          s in st.batches && st.batches[s].base <= |st.log| && BatchOk(st.batches[s], st.log)
          && c.registered && Indices(st.batches[s].base, Upto(st, s)) <= st.drains)
  }

  predicate BatchOk(b: Batch, log: seq<Row>) {
    b.screen.rows != [] && b.first <= b.base <= |log| && b.replay == log[b.first..b.base]
  }

  ghost predicate SentOk(st: State) {
    st.sent.Some? ==>
      var f := st.sent.value;
      && Plausible(f.before, f.screen, f.committed) && Updates(f.before, f.screen, f.committed, Some(f.frame)) && FrameOk(f.frame)
      && f.frame.scrollFirst == f.committed && f.committed + |f.frame.scrollLines| <= |st.log| && Indices(f.frame.base, |st.log|) <= st.drains
      && st.log[f.committed..f.committed + |f.frame.scrollLines|] == f.frame.scrollLines
      && (st.cache == After(f.screen, f.frame.base) || Forgotten(st.cache))
  }

  /** Only a registered client resumes, and a frame is of no later generation than the client's. */
  predicate KnownClient(g: Gate.State, s: Sock)
    requires s in g.clients
  {
    && (g.clients[s].resume != Gate.Idle ==> g.clients[s].registered)
    && (g.flight.Some? && s in g.flight.value.gens ==> g.flight.value.gens[s] <= g.clients[s].gen)
  }

  ghost predicate Shape(st: State) {
    && st.gate.clients.Keys == st.viewers.Keys && (st.gate.flight.Some? <==> st.sent.Some?)
    && (st.sent.Some? && st.gate.flight.Some? ==> st.gate.flight.value.shows == StateCount(st.sent.value.frame))
    && (st.gate.flight.Some? ==> st.gate.flight.value.todo <= st.gate.flight.value.gens.Keys <= st.gate.clients.Keys)
    && (st.cache.rows != [] && st.cache.alt == Some(true) ==> st.cache.base == |st.log|)
    && (forall s :: s in st.gate.clients ==> KnownClient(st.gate, s))
  }

  ghost predicate Inv(st: State) {
    Shape(st) && SentOk(st) && forall s :: s in st.gate.clients ==> InStep(st, s) && HistoryOk(st, s)
  }

  /** What holds of a forgotten cache or of a page that gained only agreeing lines. */
  lemma ForgottenIsInStep(v: Cache, c: Client)
    ensures Forgotten(v) ==> Synced(v, c)
  {}

  lemma ForgottenSends(st: State, screen: Screen, frame: Option<Frame>)
    requires Forgotten(st.cache) && Enabled(st, Label.Flush(screen, frame))
    ensures frame.Some?
  {
    assert MustSend(Baseline(st.cache, screen), screen, |st.log| + |History(st.cache, screen)|, 0);
  }

  /** A step that is another client's leaves a client as it was. */
  lemma Unaffected(st: State, st': State, s: Sock, t: Sock)
    requires Inv(st) && t in st.gate.clients && t in st'.gate.clients && t in st'.viewers && t != s
    requires st'.gate.clients[t] == st.gate.clients[t] && st'.viewers[t] == st.viewers[t]
    requires t in st.batches ==> t in st'.batches && st'.batches[t] == st.batches[t]
    requires st'.cache == st.cache && st'.log == st.log && st'.drains == st.drains && st'.sent == st.sent
    requires st'.gate.flight == st.gate.flight
      || (st.gate.flight.Some? && st'.gate.flight == Some(st.gate.flight.value.(todo := st.gate.flight.value.todo - {s})))
    ensures InStep(st', t) && HistoryOk(st', t)
  {
    assert InStep(st, t) && HistoryOk(st, t);
    hide Synced, Holds, SentOk, Shape, Forgotten;
    assert Awaits(st'.gate, t) == Awaits(st.gate, t) && InTodo(st'.gate, t) == InTodo(st.gate, t);
  }

  lemma InvAttach(st: State, s: Sock, page: Client)
    requires Inv(st) && Enabled(st, Attach(s, page))
    ensures Inv(Next(st, Attach(s, page)))
  {
    hide Synced, Updates, Plausible, Holds;
    var st' := Next(st, Attach(s, page));
    forall t | t in st'.gate.clients ensures InStep(st', t) && HistoryOk(st', t) {
      if t != s { assert InStep(st, t) && HistoryOk(st, t); }
    }
  }

  lemma MarkKeeps(st: State, e: Label, s: Sock)
    requires Inv(st) && Enabled(st, e) && (e == Leave(s) || e == Lock(s))
    ensures s in Next(st, e).gate.clients && s in Next(st, e).viewers && InStep(Next(st, e), s) && HistoryOk(Next(st, e), s)
  {
    assert InStep(st, s) && HistoryOk(st, s);
    hide Synced, Updates, Plausible, Holds, After, FrameOk, Forgotten, SentOk;
  }

  lemma InvMark(st: State, e: Label, s: Sock)
    requires Inv(st) && Enabled(st, e) && (e == Leave(s) || e == Lock(s))
    ensures Inv(Next(st, e))
  {
    hide Synced, Updates, Plausible, Holds, After, FrameOk, Forgotten, InStep, HistoryOk;
    MarkKeeps(st, e, s);
    var st' := Next(st, e);
    forall t | t in st'.gate.clients && t != s ensures InStep(st', t) && HistoryOk(st', t) {
      Unaffected(st, st', s, t);
    }
  }

  lemma InvDispatched(st: State)
    requires Inv(st) && Enabled(st, Label.Dispatched)
    ensures Inv(Next(st, Label.Dispatched))
  {
    hide Synced, Updates, Plausible, Holds, After, FrameOk, Forgotten;
    var st' := Next(st, Label.Dispatched);
    forall t | t in st'.gate.clients ensures InStep(st', t) && HistoryOk(st', t) {
      assert InStep(st, t) && HistoryOk(st, t);
    }
  }

  lemma InvReset(st: State)
    requires Inv(st)
    ensures Inv(Next(st, Reset))
  {
    hide Updates, Plausible, Holds;
    var st' := Next(st, Reset);
    forall t | t in st'.gate.clients ensures InStep(st', t) && HistoryOk(st', t) {
      assert InStep(st, t) && HistoryOk(st, t);
      ForgottenIsInStep(st'.cache, st.viewers[t].view);
    }
  }

  /** Lines that no frame carries leave what a client has to hold. */
  lemma DrainsKeep(view: Client, log: seq<Row>, drains: set<nat>, since: nat, upto: nat, lines: seq<Row>)
    requires Holds(view, log, drains, since, upto) && upto <= |log|
    ensures Holds(view, log + lines, drains + Indices(|log|, |log| + |lines|), since, upto)
    ensures upto == |log| ==> Holds(view, log + lines, drains + Indices(|log|, |log| + |lines|), since, |log + lines|)
  {}

  lemma InvSuspended(st: State, screen: Screen)
    requires Inv(st) && Enabled(st, Suspended(screen))
    ensures Inv(Next(st, Suspended(screen)))
  {
    hide Synced, Updates, Plausible, Holds;
    var st' := Next(st, Suspended(screen));
    forall t | t in st'.gate.clients ensures InStep(st', t) && HistoryOk(st', t) {
      assert InStep(st, t) && HistoryOk(st, t) && !Gate.Registered(st.gate, t);
    }
  }

  /** A flush that sends nothing leaves each client in step: it already shows the screen. */
  lemma NothingToSend(st: State, screen: Screen, t: Sock)
    requires Inv(st) && Enabled(st, Label.Flush(screen, None)) && t in st.gate.clients && st.gate.clients[t].registered
    ensures InStep(Next(st, Label.Flush(screen, None)), t) && History(st.cache, screen) == []
  {
    assert InStep(st, t);
    if st.gate.clients[t].resume.Snapped? { ForgottenSends(st, screen, None); }
    hide MustSend, PrevRow, Shows, Holds;
    if st.viewers[t].acked {
      hide Synced;
      FlushShowsTheScreen(st.cache, st.viewers[t].view, screen, |st.log|, None);
    }
  }

  lemma InvFlush(st: State, screen: Screen, frame: Option<Frame>)
    requires Inv(st) && Enabled(st, Label.Flush(screen, frame))
    ensures Inv(Next(st, Label.Flush(screen, frame)))
  {
    var st' := Next(st, Label.Flush(screen, frame));
    assert frame.None? ==> History(st.cache, screen) == [];
    SentIsOk(st, screen, frame);
    hide Synced, Updates, Plausible, Holds, History, SentOk;
    forall t | t in st'.gate.clients ensures InStep(st', t) && HistoryOk(st', t) {
      assert InStep(st, t) && HistoryOk(st, t);
      if frame.None? && st.gate.clients[t].registered { NothingToSend(st, screen, t); }
    }
  }

  lemma SentIsOk(st: State, screen: Screen, frame: Option<Frame>)
    requires Inv(st) && Enabled(st, Label.Flush(screen, frame))
    ensures SentOk(Next(st, Label.Flush(screen, frame))) && Plausible(st.cache, screen, |st.log|)
  {
    hide InStep, HistoryOk, MustSend;
  }

  /** Below the lines it carries a frame writes nothing. */
  lemma FrameKeeps(c: Client, f: Frame, i: nat)
    requires FrameOk(f) && f.base == f.scrollFirst + |f.scrollLines| && i < f.scrollFirst
    ensures i in Apply(c, f).lines <==> i in c.lines
    ensures i in c.lines ==> Apply(c, f).lines[i] == c.lines[i]
  {}

  /** What is written whole is applied whole, what is stripped loses its state; a frame without any is the same either way. */
  lemma ReadsWhole(g: Gate.State, s: Sock, v: Viewer, f: Frame)
    requires g.flight.Some? && s in g.clients && FrameOk(f) && v.acked && g.flight.value.shows == StateCount(f)
    ensures Reads(v, f, Written(g, s)).view
         == if WritesWhole(g, s) then Apply(v.view, f) else ApplyScroll(v.view, f.scrollFirst, f.scrollLines)
    ensures Reads(v, f, Written(g, s)).acked && Reads(v, f, Written(g, s)).since == v.since
  {
    var fl := g.flight.value;
    if WritesWhole(g, s) && fl.shows > 0 {
      assert Written(g, s)[0] == Gate.Shown(fl.at);
    }
    if !WritesWhole(g, s) {
      forall i | 0 <= i < |Written(g, s)| ensures !Written(g, s)[i].Shown? {}
    }
  }

  /** A frame written whole shows its screen and hands over its lines. */
  lemma WholeShows(st: State, s: Sock)
    requires Inv(st) && Enabled(st, Label.Write(s)) && WritesWhole(st.gate, s) && st.viewers[s].acked
    ensures var f, c := st.sent.value, Apply(st.viewers[s].view, st.sent.value.frame);
      && Shows(c, f.screen.rows, f.frame.base, f.screen.alt) && HoldsLines(c, f.committed, f.frame.scrollLines)
      && c.cursor == Some((f.screen.curRow, f.screen.curCol)) && c.modes == Some(f.screen.modes) && c.title == Some(f.screen.title)
      && Synced(After(f.screen, f.frame.base), c) && f.frame.base == f.committed + |f.frame.scrollLines|
      && f.frame.scrollFirst == f.committed && f.frame.scrollLines == History(f.before, f.screen)
  {
    assert InStep(st, s);
    var f := st.sent.value;
    hide MustSend, PrevRow, Shows, Synced;
    FlushShowsTheScreen(f.before, st.viewers[s].view, f.screen, f.committed, Some(f.frame));
  }

  lemma WholeHoldsAt(st: State, s: Sock, i: nat)
    requires st.sent.Some? && FrameOk(st.sent.value.frame) && s in st.viewers && i < |st.log| && i !in st.drains
    requires var f, c := st.sent.value, st.viewers[s].view;
      && f.frame.base == f.committed + |f.frame.scrollLines| && f.frame.scrollFirst == f.committed
      && f.frame.base <= |st.log| && Indices(f.frame.base, |st.log|) <= st.drains
      && st.log[f.committed..f.frame.base] == f.frame.scrollLines
      && HoldsLines(Apply(c, f.frame), f.committed, f.frame.scrollLines)
      && (i < f.committed ==> HasLine(c, i, st.log[i]))
    ensures HasLine(Apply(st.viewers[s].view, st.sent.value.frame), i, st.log[i])
  {
    var f, c := st.sent.value, st.viewers[s].view;
    hide Apply;
    if i < f.committed {
      FrameKeeps(c, f.frame, i);
    } else {
      assert i in Indices(f.frame.base, |st.log|) || i < f.frame.base;
      assert st.log[i] == st.log[f.committed..f.frame.base][i - f.committed];
      assert HasLine(Apply(c, f.frame), f.committed + (i - f.committed), f.frame.scrollLines[i - f.committed]);
    }
  }

  lemma WholeHolds(st: State, s: Sock)
    requires Inv(st) && Enabled(st, Label.Write(s)) && WritesWhole(st.gate, s) && st.viewers[s].acked
    requires Holds(st.viewers[s].view, st.log, st.drains, st.viewers[s].since, st.sent.value.committed)
    ensures Holds(Apply(st.viewers[s].view, st.sent.value.frame), st.log, st.drains, st.viewers[s].since, |st.log|)
  {
    hide Shows, Synced, Updates, Plausible, InStep, HistoryOk, Apply, HoldsLines, Shape;
    WholeShows(st, s);
    forall i | st.viewers[s].since <= i < |st.log| && i !in st.drains ensures HasLine(Apply(st.viewers[s].view, st.sent.value.frame), i, st.log[i]) {
      WholeHoldsAt(st, s, i);
    }
  }

  /** Lines of the history written again change nothing that is held. */
  lemma StrippedHolds(c: Client, first: nat, lines: seq<Row>, log: seq<Row>, drains: set<nat>, since: nat, upto: nat)
    requires Holds(c, log, drains, since, upto) && first + |lines| <= |log| && log[first..first + |lines|] == lines
    ensures Holds(ApplyScroll(c, first, lines), log, drains, since, upto)
  {
    forall i | first <= i < first + |lines| ensures lines[i - first] == log[i] {
      assert log[first..first + |lines|][i - first] == log[i];
    }
  }

  lemma WriteView(st: State, s: Sock)
    requires Shape(st) && Enabled(st, Label.Write(s)) && st.viewers[s].acked
    ensures s in Next(st, Label.Write(s)).viewers
    ensures var v, f := st.viewers[s], st.sent.value.frame;
      Next(st, Label.Write(s)).viewers[s] ==
        v.(view := if WritesWhole(st.gate, s) then Apply(v.view, f) else ApplyScroll(v.view, f.scrollFirst, f.scrollLines))
  {
    hide Apply, ApplyScroll, Reads, Written, WritesWhole;
    ReadsWhole(st.gate, s, st.viewers[s], st.sent.value.frame);
  }

  lemma WriteKeeps(st: State, s: Sock)
    requires Inv(st) && Enabled(st, Label.Write(s))
    ensures s in Next(st, Label.Write(s)).gate.clients && s in Next(st, Label.Write(s)).viewers
    ensures InStep(Next(st, Label.Write(s)), s) && HistoryOk(Next(st, Label.Write(s)), s)
  {
    var st' := Next(st, Label.Write(s));
    var v, f := st.viewers[s], st.sent.value;
    assert InStep(st, s) && HistoryOk(st, s);
    if v.acked { WriteView(st, s); }
    hide Synced, Updates, Plausible, Holds, Shows, HoldsLines, Apply, ApplyScroll, Written;
    ForgottenIsInStep(st.cache, st'.viewers[s].view);
    if st.gate.clients[s].registered && v.acked {
      if WritesWhole(st.gate, s) {
        WholeShows(st, s);
        WholeHolds(st, s);
      } else {
        StrippedHolds(v.view, f.frame.scrollFirst, f.frame.scrollLines, st.log, st.drains, v.since, Upto(st, s));
      }
    } else if WritesWhole(st.gate, s) && v.acked {
      WholeShows(st, s);
    }
  }

  lemma InvWrite(st: State, s: Sock)
    requires Inv(st) && Enabled(st, Label.Write(s))
    ensures Inv(Next(st, Label.Write(s)))
  {
    hide Synced, Updates, Plausible, Holds, Reads, InStep, HistoryOk, After, Forgotten, FrameOk;
    WriteKeeps(st, s);
    var st' := Next(st, Label.Write(s));
    forall t | t in st'.gate.clients && t != s ensures InStep(st', t) && HistoryOk(st', t) {
      Unaffected(st, st', s, t);
    }
  }

  lemma SnapshotKeeps(st: State, s: Sock, screen: Screen, first: nat, t: Sock)
    requires Inv(st) && Enabled(st, Snapshot(s, screen, first)) && t in st.gate.clients
    ensures t in Next(st, Snapshot(s, screen, first)).gate.clients && t in Next(st, Snapshot(s, screen, first)).viewers
    ensures InStep(Next(st, Snapshot(s, screen, first)), t) && HistoryOk(Next(st, Snapshot(s, screen, first)), t)
  {
    var st' := Next(st, Snapshot(s, screen, first));
    var v := st.viewers[t];
    assert InStep(st, t) && HistoryOk(st, t) && KnownClient(st.gate, t);
    hide Synced, Updates, Plausible, Holds, History, SentOk;
    ForgottenIsInStep(st'.cache, v.view);
    if t != s && st.gate.clients[t].registered && v.acked && !st.gate.clients[t].resume.Snapped? {
      DrainsKeep(v.view, st.log, st.drains, v.since, Upto(st, t), History(st.cache, screen));
    }
  }

  lemma SnapshotSent(st: State, s: Sock, screen: Screen, first: nat)
    requires SentOk(st) && Enabled(st, Snapshot(s, screen, first))
    ensures SentOk(Next(st, Snapshot(s, screen, first)))
  {
    hide Updates, Plausible, History, FrameOk;
  }

  lemma InvSnapshot(st: State, s: Sock, screen: Screen, first: nat)
    requires Inv(st) && Enabled(st, Snapshot(s, screen, first))
    ensures Inv(Next(st, Snapshot(s, screen, first)))
  {
    hide Synced, Updates, Plausible, InStep, HistoryOk, History, SentOk;
    SnapshotSent(st, s, screen, first);
    var st' := Next(st, Snapshot(s, screen, first));
    forall t | t in st'.gate.clients ensures InStep(st', t) && HistoryOk(st', t) {
      SnapshotKeeps(st, s, screen, first, t);
    }
  }

  lemma SendKeeps(st: State, s: Sock)
    requires Inv(st) && Enabled(st, Send(s))
    ensures s in Next(st, Send(s)).gate.clients && s in Next(st, Send(s)).viewers
    ensures InStep(Next(st, Send(s)), s) && HistoryOk(Next(st, Send(s)), s)
  {
    var view := Next(st, Send(s)).viewers[s].view;
    assert InStep(st, s) && HistoryOk(st, s);
    hide Synced, Updates, Plausible, BatchRead, SentOk, Shape;
    ForgottenIsInStep(st.cache, view);
    if st.sent.Some? { ForgottenIsInStep(st.sent.value.before, view); }
  }

  lemma InvSend(st: State, s: Sock)
    requires Inv(st) && Enabled(st, Send(s))
    ensures Inv(Next(st, Send(s)))
  {
    hide Synced, Updates, Plausible, BatchRead, InStep, HistoryOk, Holds, After, Forgotten, BatchOk, FrameOk;
    SendKeeps(st, s);
    var st' := Next(st, Send(s));
    forall t | t in st'.gate.clients && t != s ensures InStep(st', t) && HistoryOk(st', t) {
      Unaffected(st, st', s, t);
    }
  }

  lemma InvInit()
    ensures Inv(Init)
  {}

  /** Every critical section keeps clients in step with what diffs are taken against, and with the history. */
  lemma InvStep(st: State, e: Label)
    requires Inv(st) && Enabled(st, e)
    ensures Inv(Next(st, e))
  {
    match e
    case Attach(s, page) => InvAttach(st, s, page);
    case Reset => InvReset(st);
    case Suspended(screen) => InvSuspended(st, screen);
    case Flush(screen, frame) => InvFlush(st, screen, frame);
    case Write(s) => InvWrite(st, s);
    case Snapshot(s, screen, first) => InvSnapshot(st, s, screen, first);
    case Send(s) => InvSend(st, s);
    case Leave(s) => InvMark(st, e, s);
    case Lock(s) => InvMark(st, e, s);
    case Dispatched => InvDispatched(st);
    case Unsized(_) =>
  }

  // ---- every interleaving ----

  ghost predicate Run(states: seq<State>, labels: seq<Label>) {
    && |states| == |labels| + 1 && states[0] == Init
    && forall i :: 0 <= i < |labels| ==> Enabled(states[i], labels[i]) && states[i + 1] == Next(states[i], labels[i])
  }

  lemma {:induction false} InvRun(states: seq<State>, labels: seq<Label>, k: nat)
    requires Run(states, labels) && k < |states|
    ensures Inv(states[k])
  {
    hide Inv, Enabled, Next;
    if k == 0 {
      InvInit();
    } else {
      InvRun(states, labels, k - 1);
      InvStep(states[k - 1], labels[k - 1]);
    }
  }

  /** Over every interleaving of flushes, dispatches and resumes: once a frame has been written whole to a client that
      has read its resumeAck, the client shows the screen the frame was built from, row for row, with its cursor, modes
      and title, and holds the lines that scrolled off it. */
  lemma WholeFrameShowsTheScreen(states: seq<State>, labels: seq<Label>, k: nat, s: Sock)
    requires Run(states, labels) && k < |labels| && labels[k] == Label.Write(s)
    requires s in states[k].viewers && states[k].viewers[s].acked && WritesWhole(states[k].gate, s)
    ensures states[k].sent.Some? && s in states[k + 1].viewers
    ensures var f, c := states[k].sent.value, states[k + 1].viewers[s].view;
      && Shows(c, f.screen.rows, f.committed + |History(f.before, f.screen)|, f.screen.alt)
      && c.cursor == Some((f.screen.curRow, f.screen.curCol)) && c.modes == Some(f.screen.modes) && c.title == Some(f.screen.title)
      && HoldsLines(c, f.committed, History(f.before, f.screen))
  {
    InvRun(states, labels, k);
    hide Shows, HoldsLines, Synced, Apply, ApplyScroll, Next, Enabled, Updates, Plausible, InStep, HistoryOk, History;
    WholeShows(states[k], s);
    WriteView(states[k], s);
  }

  /** And between frames: a registered client that has read its resumeAck, with no frame of its generation under way and
      no batch to come, has what the next diff will be taken against. */
  lemma ClientsStayInStep(states: seq<State>, labels: seq<Label>, k: nat, s: Sock)
    requires Run(states, labels) && k < |states| && s in states[k].gate.clients
    requires states[k].gate.clients[s].registered && !states[k].gate.clients[s].resume.Snapped? && !Awaits(states[k].gate, s)
    ensures s in states[k].viewers && (states[k].viewers[s].acked ==> Synced(states[k].cache, states[k].viewers[s].view))
  {
    InvRun(states, labels, k);
    assert InStep(states[k], s);
  }

  /** Every line committed since the base of its batch is held by such a client, but for the lines that another client's
      resume drained: those no frame carries. */
  lemma ClientsHoldWhatFramesCarry(states: seq<State>, labels: seq<Label>, k: nat, s: Sock, i: nat)
    requires Run(states, labels) && k < |states| && s in states[k].gate.clients && s in states[k].viewers
    requires states[k].gate.clients[s].registered && !states[k].gate.clients[s].resume.Snapped? && states[k].viewers[s].acked
    requires states[k].viewers[s].since <= i < Upto(states[k], s) && i < |states[k].log| && i !in states[k].drains
    ensures i in states[k].viewers[s].view.lines && states[k].viewers[s].view.lines[i] == states[k].log[i]
  {
    InvRun(states, labels, k);
    assert HistoryOk(states[k], s);
  }

  // ---- what a batch gives ----

  /** A client whose page was in the alternate screen refuses replayed lines from its frozen window's base on, as long
      as the batch does not take it out of that screen. */
  predicate Refused(c: Client, b: Batch, i: nat) { b.screen.alt && c.alt.Some? && c.height != 0 && c.base <= i }

  lemma RepaintShows(c: Client, b: Batch)
    requires b.screen.rows != []
    ensures Shows(ApplyScreen(c, Repainted(b)), b.screen.rows, b.base, b.screen.alt)
  {
    var f, s := Repainted(b), b.screen;
    var c' := ApplyScreen(c, f);
    forall y: nat | y < |s.rows| ensures ShowsRow(c', s.rows[y], y, b.base, s.alt) {
      assert y in f.changed;
      assert !s.alt ==> Touched(b.base + y, b.base, f.changed);
    }
  }

  /** The client had the replayed lines that it refuses. */
  ghost predicate HadRefused(c: Client, b: Batch) {
    forall k: nat :: k < |b.replay| && Refused(c, b, b.first + k) ==> HasLine(c, b.first + k, b.replay[k])
  }

  /** After its batch a client shows the snapshot; and it holds every replayed line if and only if it held those it
      refuses already. */
  lemma BatchShowsTheSnapshot(c: Client, b: Batch)
    requires b.screen.rows != [] && b.first + |b.replay| == b.base
    ensures var c', s := BatchRead(c, b), b.screen;
      && Shows(c', s.rows, b.base, s.alt)
      && c'.cursor == Some((s.curRow, s.curCol)) && c'.modes == Some(s.modes) && c'.title == Some(s.title) && c'.look == s.look
    ensures HoldsLines(BatchRead(c, b), b.first, b.replay) <==> HadRefused(c, b)
  {
    var c1 := Announced(c, Some(b.screen.modes), Some(b.screen.title));
    RepaintShows(if b.screen.alt then ApplyScroll(c1, b.first, b.replay) else c1, b);
    ReplayHeld(c, b);
    if !b.screen.alt { ScrollKeepsWindow(ApplyScreen(c1, Repainted(b)), b); }
  }

  lemma ScrollKeepsWindow(c: Client, b: Batch)
    requires Shows(c, b.screen.rows, b.base, false) && b.first + |b.replay| == b.base
    ensures Shows(ApplyScroll(c, b.first, b.replay), b.screen.rows, b.base, false)
  {
    forall y: nat | y < |b.screen.rows| ensures ShowsRow(ApplyScroll(c, b.first, b.replay), b.screen.rows[y], y, b.base, false) {
      assert ShowsRow(c, b.screen.rows[y], y, b.base, false);
    }
  }

  lemma ReplayedLine(c: Client, b: Batch, k: nat)
    requires b.screen.rows != [] && b.first + |b.replay| == b.base && k < |b.replay|
    ensures HasLine(BatchRead(c, b), b.first + k, b.replay[k]) <==>
      (Refused(c, b, b.first + k) ==> HasLine(c, b.first + k, b.replay[k]))
  {
    assert Carried(b.first + k, b.first, |b.replay|);
  }

  lemma ReplayHeld(c: Client, b: Batch)
    requires b.screen.rows != [] && b.first + |b.replay| == b.base
    ensures HoldsLines(BatchRead(c, b), b.first, b.replay) <==> HadRefused(c, b)
  {
    hide BatchRead, Refused, HasLine;
    forall k: nat | k < |b.replay|
      ensures HasLine(BatchRead(c, b), b.first + k, b.replay[k]) <==>
        (Refused(c, b, b.first + k) ==> HasLine(c, b.first + k, b.replay[k]))
    {
      ReplayedLine(c, b, k);
    }
  }

  /** In every run: what a client shows and holds after its batch, with the lines of the history it asked for. */
  lemma EveryBatchShowsItsSnapshot(states: seq<State>, labels: seq<Label>, k: nat, s: Sock)
    requires Run(states, labels) && k < |labels| && labels[k] == Send(s)
    ensures s in states[k].viewers && s in states[k].batches && s in states[k + 1].viewers
    ensures var b, c, c' := states[k].batches[s], states[k].viewers[s].view, states[k + 1].viewers[s].view;
      && BatchOk(b, states[k].log) && Shows(c', b.screen.rows, b.base, b.screen.alt)
      && c'.cursor == Some((b.screen.curRow, b.screen.curCol)) && c'.modes == Some(b.screen.modes) && c'.title == Some(b.screen.title)
      && (HoldsLines(c', b.first, states[k].log[b.first..b.base]) <==> HadRefused(c, b))
  {
    InvRun(states, labels, k);
    assert HistoryOk(states[k], s);
    var b := states[k].batches[s];
    assert Next(states[k], Send(s)).viewers[s].view == BatchRead(states[k].viewers[s].view, b);
    hide Inv, BatchRead, Shows, HoldsLines, HadRefused, Next, Enabled;
    BatchShowsTheSnapshot(states[k].viewers[s].view, b);
  }

  // ---- which lines become history ----

  /** The screen last flushed was the alternate one, or the main one, or there was none. */
  function LastAlt(labels: seq<Label>): Option<bool> {
    if labels == [] then None
    else match labels[|labels| - 1] case Flush(screen, _) => Some(screen.alt) case _ => LastAlt(labels[..|labels| - 1])
  }

  /** The lines drained of a screen, by a flush, a flush without clients, or a resume. */
  function DrainedBy(e: Label): Option<Screen> {
    match e
    case Flush(screen, _) => Some(screen)
    case Suspended(screen) => Some(screen)
    case Snapshot(_, screen, _) => Some(screen)
    case _ => None
  }

  /** Main-screen lines, unless the screen last flushed was the alternate one. */
  function HistoryOf(labels: seq<Label>): seq<Row> {
    if labels == [] then []
    else
      var before, e := labels[..|labels| - 1], labels[|labels| - 1];
      HistoryOf(before) + match DrainedBy(e)
                          case Some(screen) => if screen.alt || LastAlt(before) == Some(true) then [] else screen.drained
                          case None => []
  }

  /** Over every run the history is exactly the lines drained from the main screen with no alternate screen flushed last:
      those drained in the interval of a switch, into the alternate screen or out of it, are in nobody's history. */
  lemma {:induction false} HistoryOfARun(states: seq<State>, labels: seq<Label>, k: nat)
    requires Run(states, labels) && k < |states|
    ensures states[k].log == HistoryOf(labels[..k]) && states[k].cache.alt == LastAlt(labels[..k])
  {
    hide Enabled, Next;
    if k > 0 {
      HistoryOfARun(states, labels, k - 1);
      assert labels[..k][..k - 1] == labels[..k - 1] && labels[..k][k - 1] == labels[k - 1];
      HistoryGrows(states[k - 1], labels[k - 1]);
    }
  }

  lemma HistoryGrows(st: State, e: Label)
    requires Enabled(st, e)
    ensures Next(st, e).cache.alt == if e.Flush? then Some(e.screen.alt) else st.cache.alt
    ensures Next(st, e).log == st.log + match DrainedBy(e)
                                        case Some(screen) => if screen.alt || st.cache.alt == Some(true) then [] else screen.drained
                                        case None => []
  {
    hide Updates, Sound, Gate.Next, Gate.Enabled;
  }

  // ---- lines that only another client's resume drained ----

  /** Frames still to come carry nothing below line `n`. */
  predicate Beyond(st: State, n: nat) { n <= |st.log| && (st.sent.Some? ==> n <= st.sent.value.committed) }

  predicate SameLine(a: Client, b: Client, i: nat) { (i in a.lines <==> i in b.lines) && (i in a.lines ==> a.lines[i] == b.lines[i]) }

  lemma LineKept(st: State, e: Label, s: Sock, i: nat)
    requires Inv(st) && Enabled(st, e) && s in st.viewers && s in st.gate.clients && e != Send(s) && Beyond(st, i + 1)
    ensures s in Next(st, e).viewers && Beyond(Next(st, e), i + 1) && SameLine(Next(st, e).viewers[s].view, st.viewers[s].view, i)
    ensures Next(st, e).log[i] == st.log[i]
  {
    hide InStep, HistoryOk, Plausible, Apply;
    if e == Label.Write(s) {
      FrameKeeps(st.viewers[s].view, st.sent.value.frame, i);
    }
  }

  /** A line once committed with no frame under way is never sent to a client again before its own next batch. */
  lemma {:induction false} CommittedLineStays(states: seq<State>, labels: seq<Label>, j: nat, k: nat, s: Sock, i: nat)
    requires Run(states, labels) && j <= k < |states| && s in states[j].viewers && states[j].gate.flight.None? && i < |states[j].log|
    requires forall m :: j <= m < k ==> labels[m] != Send(s)
    ensures s in states[k].viewers && Beyond(states[k], i + 1) && SameLine(states[k].viewers[s].view, states[j].viewers[s].view, i)
    ensures states[k].log[i] == states[j].log[i]
    decreases k
  {
    hide Inv, Enabled, Next;
    InvRun(states, labels, k);
    FlightIsSent(states[k]);
    if k > j {
      CommittedLineStays(states, labels, j, k - 1, s, i);
      InvRun(states, labels, k - 1);
      FlightIsSent(states[k - 1]);
      LineKept(states[k - 1], labels[k - 1], s, i);
    }
  }

  /** A line that another client's resume drains reaches no other client: until its own next batch a client has it right
      if and only if its page happened to show just that at the line's index. */
  lemma DrainedLineIsRightIff(states: seq<State>, labels: seq<Label>, j: nat, k: nat, s: Sock, i: nat)
    requires Run(states, labels) && j < k < |states| && s in states[j].viewers && states[j].gate.flight.None?
    requires labels[j].Snapshot? && labels[j].s != s && |states[j].log| <= i < |states[j + 1].log|
    requires forall m :: j < m < k ==> labels[m] != Send(s)
    ensures s in states[k].viewers && i < |states[k].log|
    ensures HasLine(states[k].viewers[s].view, i, states[k].log[i]) <==> HasLine(states[j].viewers[s].view, i, states[j + 1].log[i])
  {
    hide Gate.Gens, History;
    assert states[j + 1] == Next(states[j], labels[j]) && Enabled(states[j], labels[j]);
    CommittedLineStays(states, labels, j + 1, k, s, i);
  }

  lemma FlightIsSent(st: State)
    requires Inv(st)
    ensures st.gate.clients.Keys == st.viewers.Keys && (st.gate.flight.Some? <==> st.sent.Some?)
  {}

  // ---- a client that comes back in the alternate screen ----

  ghost predicate Reaches(st: State, labels: seq<Label>, st': State)
    decreases |labels|
  {
    if labels == [] then st' == st else Enabled(st, labels[0]) && Reaches(Next(st, labels[0]), labels[1..], st')
  }

  lemma ReachesMore(st: State, e: Label, labels: seq<Label>, st': State)
    requires Enabled(st, e) && Reaches(Next(st, e), labels, st')
    ensures Reaches(st, [e] + labels, st')
  {
    assert ([e] + labels)[1..] == labels;
  }

  predicate HasPage(st: State, s: Sock, page: Client, resume: Gate.Resume) {
    s in st.gate.clients && s in st.viewers && st.viewers[s].view == page && st.gate.clients[s].registered && st.gate.clients[s].resume == resume
  }

  lemma Attached(st: State, s: Sock, page: Client)
    requires s !in st.gate.clients
    ensures Enabled(st, Attach(s, page))
    ensures HasPage(Next(st, Attach(s, page)), s, page, Gate.Idle) && Next(st, Attach(s, page)).log == st.log
  {}

  lemma Locked(st: State, s: Sock, page: Client)
    requires HasPage(st, s, page, Gate.Idle)
    ensures Enabled(st, Lock(s)) && HasPage(Next(st, Lock(s)), s, page, Gate.Locked) && Next(st, Lock(s)).log == st.log
  {}

  lemma Snapped(st: State, s: Sock, page: Client, screen: Screen, first: nat)
    requires HasPage(st, s, page, Gate.Locked) && screen.rows != [] && screen.alt && first <= |st.log|
    ensures Enabled(st, Snapshot(s, screen, first))
    ensures var st' := Next(st, Snapshot(s, screen, first));
      st'.log == st.log && s in st'.viewers && st'.viewers[s].view == page && Enabled(st', Send(s))
      && st'.batches[s] == Batch(screen, first, st.log[first..], |st.log|)
  {
    assert st.log + [] == st.log;
  }

  /** From any state: a client whose page is in the alternate screen, frozen at or below a committed line it does not
      hold, comes back while that screen is shown and asks for the line; it does not get it. */
  lemma ReplayIsRefused(st: State, s: Sock, page: Client, screen: Screen, first: nat, i: nat) returns (st': State)
    requires s !in st.gate.clients && screen.rows != [] && screen.alt && first <= i < |st.log|
    requires page.alt.Some? && page.height != 0 && page.base <= i && i !in page.lines
    ensures Reaches(st, [Attach(s, page), Lock(s), Snapshot(s, screen, first), Send(s)], st')
    ensures st'.log == st.log && s in st'.viewers && st'.viewers[s].acked && i !in st'.viewers[s].view.lines
  {
    hide Enabled, Next, HasPage, BatchRead;
    Attached(st, s, page);
    var st1 := Next(st, Attach(s, page));
    Locked(st1, s, page);
    var st2 := Next(st1, Lock(s));
    Snapped(st2, s, page, screen, first);
    var st3 := Next(st2, Snapshot(s, screen, first));
    st' := Next(st3, Send(s));
    SentBatch(st3, s, i);
    ReachesMore(st3, Send(s), [], st');
    ReachesMore(st2, Snapshot(s, screen, first), [Send(s)], st');
    ReachesMore(st1, Lock(s), [Snapshot(s, screen, first), Send(s)], st');
    ReachesMore(st, Attach(s, page), [Lock(s), Snapshot(s, screen, first), Send(s)], st');
    assert [Attach(s, page)] + [Lock(s), Snapshot(s, screen, first), Send(s)] == [Attach(s, page), Lock(s), Snapshot(s, screen, first), Send(s)];
    assert [Lock(s)] + [Snapshot(s, screen, first), Send(s)] == [Lock(s), Snapshot(s, screen, first), Send(s)];
    assert [Snapshot(s, screen, first)] + [Send(s)] == [Snapshot(s, screen, first), Send(s)];
  }

  lemma SentBatch(st: State, s: Sock, i: nat)
    requires Enabled(st, Send(s)) && st.batches[s].screen.rows != [] && st.batches[s].screen.alt
    requires i < st.batches[s].base && st.batches[s].first + |st.batches[s].replay| == st.batches[s].base
    requires var page := st.viewers[s].view; page.alt.Some? && page.height != 0 && page.base <= i && i !in page.lines
    ensures var st' := Next(st, Send(s)); st'.log == st.log && s in st'.viewers && st'.viewers[s].acked && i !in st'.viewers[s].view.lines
  {}
}
