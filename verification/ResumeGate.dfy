/** The gate between live frames and resume batches: one step per critical section of the handler's
    mutex and of each client's write mutex.

    The flush loop builds one frame at a time under the handler's mutex, then writes it to each client
    of its snapshot under that client's write mutex. A resume takes the write mutex, then snapshots the
    screen and bumps the client's generation under the handler's mutex, then writes its batch. */
module ResumeGate {
  import opened Sequences

  type Sock = nat

  /** A message as far as order matters: screen, modes and title show the screen of one snapshot; a scroll
      payload is the `part`-th of a frame; the clipboard is durable like a scroll payload. */
  datatype Message = Shown(snapshot: nat) | ScrollPart(frame: nat, part: nat) | Clipboard(frame: nat)

  /** Where a client's resume stands: none, write mutex taken, or snapshot taken at a time. */
  datatype Resume = Idle | Locked | Snapped(at: nat)

  datatype Client = Client(registered: bool, gen: nat, resume: Resume, trace: seq<Message>)

  /** A frame on its way out: built at `at`, for the clients and generations of its snapshot. `shows` is
      how many state payloads it has, `parts` how many scroll payloads, `todo` the clients not written. */
  datatype Flight = Flight(id: nat, at: nat, gens: map<Sock, nat>, shows: nat, clipboard: bool, parts: nat, todo: set<Sock>)

  /** `clock` counts critical sections of the handler's mutex; `sent` are the frames fully dispatched. */
  datatype State = State(clock: nat, built: nat, clients: map<Sock, Client>, flight: Option<Flight>, sent: set<Flight>)

  const Init := State(0, 0, map[], None, {})

  datatype Label =
    | Add(s: Sock)
    | Remove(s: Sock)
    | Build(shows: nat, clipboard: bool, parts: nat)
    | Write(s: Sock)
    | Dispatched
    | Lock(s: Sock)
    | Snapshot(s: Sock)
    | Batch(s: Sock, shows: nat)

  predicate Registered(st: State, s: Sock) { s in st.clients && st.clients[s].registered }

  predicate Enabled(st: State, e: Label) {
    match e
    case Add(s) => s !in st.clients
    case Remove(s) => s in st.clients && st.clients[s].resume == Idle
    case Build(_, _, _) => st.flight.None?
    case Write(s) => st.flight.Some? && s in st.flight.value.todo && s in st.clients && st.clients[s].resume == Idle
    case Dispatched => st.flight.Some? && st.flight.value.todo == {}
    case Lock(s) => Registered(st, s) && st.clients[s].resume == Idle
    case Snapshot(s) => s in st.clients && st.clients[s].resume == Locked
    case Batch(s, _) => s in st.clients && st.clients[s].resume.Snapped?
  }

  function Gens(clients: map<Sock, Client>): map<Sock, nat> {
    map s | s in clients && clients[s].registered :: clients[s].gen
  }

  function ShownAt(at: nat, n: nat): (r: seq<Message>)
    ensures |r| == n && forall i :: 0 <= i < n ==> r[i] == Shown(at)
  {
    seq(n, i => Shown(at))
  }

  function Parts(frame: nat, n: nat): (r: seq<Message>)
    ensures |r| == n && forall i :: 0 <= i < n ==> r[i] == ScrollPart(frame, i)
  {
    seq(n, i requires 0 <= i => ScrollPart(frame, i))
  }

  function Durable(f: Flight): seq<Message> {
    (if f.clipboard then [Clipboard(f.id)] else []) + Parts(f.id, f.parts)
  }

  /** What one client gets of a frame: all of it, or only what a resume batch does not carry when the
      client resumed after the frame was built. */
  function Payloads(f: Flight, s: Sock, gen: nat): seq<Message> {
    if s in f.gens && f.gens[s] == gen then ShownAt(f.at, f.shows) + Durable(f) else Durable(f)
  }

  function SetClient(st: State, s: Sock, c: Client): State { st.(clients := st.clients[s := c]) }

  function Next(st: State, e: Label): State
    requires Enabled(st, e)
  {
    match e
    case Add(s) => SetClient(st, s, Client(true, 0, Idle, []))
    case Remove(s) => SetClient(st, s, st.clients[s].(registered := false))
    case Build(shows, clipboard, parts) =>
      var gens := Gens(st.clients);
      st.(clock := st.clock + 1, built := st.built + 1,
          flight := Some(Flight(st.built, st.clock, gens, shows, clipboard, parts, gens.Keys)))
    case Write(s) =>
      var f := st.flight.value;
      var c := st.clients[s];
      SetClient(st, s, c.(trace := c.trace + Payloads(f, s, c.gen))).(flight := Some(f.(todo := f.todo - {s})))
    case Dispatched => st.(flight := None, sent := st.sent + {st.flight.value})
    case Lock(s) => SetClient(st, s, st.clients[s].(resume := Locked))
    case Snapshot(s) =>
      SetClient(st, s, st.clients[s].(resume := Snapped(st.clock), gen := st.clients[s].gen + 1)).(clock := st.clock + 1)
    case Batch(s, shows) =>
      var c := st.clients[s];
      SetClient(st, s, c.(resume := Idle, trace := c.trace + ShownAt(c.resume.at, shows)))
  }

  // ---- what a client sees ----

  /** No snapshot shown is older than one shown before it. */
  ghost predicate NeverBackwards(t: seq<Message>) {
    forall i, j :: 0 <= i < j < |t| && t[i].Shown? && t[j].Shown? ==> t[i].snapshot <= t[j].snapshot
  }

  ghost predicate ShownBy(t: seq<Message>, at: nat) {
    forall i :: 0 <= i < |t| && t[i].Shown? ==> t[i].snapshot <= at
  }

  /** The scroll payloads of frame `id` in `t`, in order. */
  function PartsOf(t: seq<Message>, id: nat): seq<nat> {
    if t == [] then []
    else PartsOf(t[..|t| - 1], id)
         + (var m := t[|t| - 1]; if m.ScrollPart? && m.frame == id then [m.part] else [])
  }

  function Count(t: seq<Message>, m: Message): nat {
    if t == [] then 0 else Count(t[..|t| - 1], m) + if t[|t| - 1] == m then 1 else 0
  }

  /** Everything a frame has for a client, in the order it is sent: modes, title and screen first, then what is durable. */
  function Everything(f: Flight): seq<Message> {
    ShownAt(f.at, f.shows) + (if f.clipboard then [Clipboard(f.id)] else []) + Parts(f.id, f.parts)
  }

  /** `part` stands in `t` as it is, without a gap. */
  ghost predicate Holds(t: seq<Message>, part: seq<Message>) {
    exists i :: IsAt(t, part, i)
  }

  predicate IsAt(t: seq<Message>, part: seq<Message>, i: int) { 0 <= i && i + |part| <= |t| && t[i..i + |part|] == part }

  function UpTo(n: nat): (r: seq<nat>)
    ensures |r| == n && forall i :: 0 <= i < n ==> r[i] == i
  {
    seq(n, i requires 0 <= i => i)
  }

  lemma {:induction false} PartsOfConcat(a: seq<Message>, b: seq<Message>, id: nat)
    ensures PartsOf(a + b, id) == PartsOf(a, id) + PartsOf(b, id)
    decreases |b|
  {
    if b == [] {
      assert a + b == a;
    } else {
      assert (a + b)[..|a + b| - 1] == a + b[..|b| - 1];
      PartsOfConcat(a, b[..|b| - 1], id);
    }
  }

  lemma {:induction false} NoParts(t: seq<Message>, id: nat)
    requires forall m :: m in t && m.ScrollPart? ==> m.frame != id
    ensures PartsOf(t, id) == []
    decreases |t|
  {
    if t != [] {
      assert t[|t| - 1] in t;
      NoParts(t[..|t| - 1], id);
    }
  }

  lemma {:induction false} PartsOfParts(id: nat, n: nat)
    ensures PartsOf(Parts(id, n), id) == UpTo(n)
  {
    if n > 0 {
      assert Parts(id, n)[..n - 1] == Parts(id, n - 1);
      PartsOfParts(id, n - 1);
    }
  }

  lemma {:induction false} CountConcat(a: seq<Message>, b: seq<Message>, m: Message)
    ensures Count(a + b, m) == Count(a, m) + Count(b, m)
    decreases |b|
  {
    if b == [] {
      assert a + b == a;
    } else {
      assert (a + b)[..|a + b| - 1] == a + b[..|b| - 1];
      CountConcat(a, b[..|b| - 1], m);
    }
  }

  lemma {:induction false} CountNone(t: seq<Message>, m: Message)
    requires m !in t
    ensures Count(t, m) == 0
    decreases |t|
  {
    if t != [] { CountNone(t[..|t| - 1], m); }
  }

  lemma {:induction false} CountAll(t: seq<Message>, m: Message)
    requires forall i :: 0 <= i < |t| ==> t[i] == m
    ensures Count(t, m) == |t|
    decreases |t|
  {
    if t != [] { CountAll(t[..|t| - 1], m); }
  }

  lemma HoldsMore(t: seq<Message>, part: seq<Message>, more: seq<Message>)
    requires Holds(t, part)
    ensures Holds(t + more, part)
  {
    var i :| IsAt(t, part, i);
    assert (t + more)[i..i + |part|] == t[i..i + |part|];
    assert IsAt(t + more, part, i);
  }

  lemma HoldsLast(t: seq<Message>, part: seq<Message>)
    ensures Holds(t + part, part)
  {
    assert IsAt(t + part, part, |t|);
  }

  /** How often a written frame shows its snapshot, and how often it carries its clipboard. */
  lemma PayloadCounts(f: Flight, s: Sock, gen: nat, m: Message)
    requires m == Shown(f.at) || m.Clipboard?
    ensures s in f.gens && f.gens[s] == gen ==> Payloads(f, s, gen) == Everything(f)
    ensures Count(Payloads(f, s, gen), m) ==
      if m == Shown(f.at) then (if s in f.gens && f.gens[s] == gen then f.shows else 0)
      else if m == Clipboard(f.id) && f.clipboard then 1 else 0
  {
    var shown, clip, parts := ShownAt(f.at, f.shows), if f.clipboard then [Clipboard(f.id)] else [], Parts(f.id, f.parts);
    assert shown + (clip + parts) == shown + clip + parts;
    CountConcat(clip, parts, m);
    CountConcat(shown, clip + parts, m);
    CountNone(parts, m);
    if m == Shown(f.at) { CountAll(shown, m); CountNone(clip, m); } else { CountNone(shown, m); CountClip(f, m); }
  }

  lemma CountClip(f: Flight, m: Message)
    ensures Count(if f.clipboard then [Clipboard(f.id)] else [], m) == if m == Clipboard(f.id) && f.clipboard then 1 else 0
  {
    if f.clipboard { assert [Clipboard(f.id)] == [] + [Clipboard(f.id)]; }
  }

  lemma PayloadParts(f: Flight, s: Sock, gen: nat, id: nat)
    ensures PartsOf(Payloads(f, s, gen), id) == if id == f.id then UpTo(f.parts) else []
  {
    var head := if f.clipboard then [Clipboard(f.id)] else [];
    NoParts(head, id);
    PartsOfConcat(head, Parts(f.id, f.parts), id);
    NoParts(ShownAt(f.at, f.shows), id);
    PartsOfConcat(ShownAt(f.at, f.shows), Durable(f), id);
    if id == f.id { PartsOfParts(id, f.parts); } else { NoParts(Parts(f.id, f.parts), id); }
  }

  // ---- the invariant ----

  ghost predicate ClientOk(st: State, s: Sock)
    requires s in st.clients
  {
    var c := st.clients[s];
    && NeverBackwards(c.trace) && ShownBy(c.trace, st.clock)
    && (c.resume.Snapped? ==> c.resume.at <= st.clock && ShownBy(c.trace, c.resume.at))
    && (st.flight.Some? && s in st.flight.value.todo ==>
          var f := st.flight.value;
          s in f.gens && f.gens[s] <= c.gen
          && (f.gens[s] == c.gen ==> ShownBy(c.trace, f.at) && (c.resume.Snapped? ==> c.resume.at <= f.at)))
  }

  /** Each frame's scroll payloads are on each client of its snapshot exactly once, from its write on. */
  ghost predicate DeliveredOk(st: State, s: Sock)
    requires s in st.clients
  {
    var t := st.clients[s].trace;
    && (forall id :: id >= st.built ==> PartsOf(t, id) == [])
    && (forall f :: f in st.sent && s in f.gens ==> PartsOf(t, f.id) == UpTo(f.parts))
    && (st.flight.Some? && s in st.flight.value.gens ==>
          PartsOf(t, st.flight.value.id) == if s in st.flight.value.todo then [] else UpTo(st.flight.value.parts))
  }

  /** What has been written of frame `f` to a client of generation `gen` with trace `t`: all of it, in one piece and
      nowhere else, if the client has taken no snapshot since the frame was built; and its clipboard in any case. */
  ghost predicate WrittenTo(t: seq<Message>, gen: nat, f: Flight, s: Sock)
    requires s in f.gens
  {
    && f.gens[s] <= gen
    && (f.gens[s] == gen ==> Holds(t, Everything(f)) && Count(t, Shown(f.at)) == f.shows)
    && Count(t, Clipboard(f.id)) == if f.clipboard then 1 else 0
  }

  /** Nothing of frame `f` has been written, but the parts that are not told apart here. */
  predicate Untouched(t: seq<Message>, f: Flight) { Count(t, Shown(f.at)) == 0 && Count(t, Clipboard(f.id)) == 0 }

  ghost predicate WrittenOk(st: State, s: Sock)
    requires s in st.clients
  {
    var c := st.clients[s];
    && (forall at :: at >= st.clock ==> Count(c.trace, Shown(at)) == 0)
    && (forall id :: id >= st.built ==> Count(c.trace, Clipboard(id)) == 0)
    && (forall f :: f in st.sent && s in f.gens ==> WrittenTo(c.trace, c.gen, f, s))
    && (st.flight.Some? && s in st.flight.value.gens ==>
          var f := st.flight.value;
          f.gens[s] <= c.gen && if s in f.todo then Untouched(c.trace, f) else WrittenTo(c.trace, c.gen, f, s))
    && (c.resume.Snapped? ==> c.resume.at < st.clock && Count(c.trace, Shown(c.resume.at)) == 0 && (forall f :: f in st.sent ==> f.at != c.resume.at)
                              && (st.flight.Some? ==> st.flight.value.at != c.resume.at))
  }

  ghost predicate TimesOk(st: State) {
    && (forall f :: f in st.sent ==> f.at < st.clock && f.id < st.built)
    && (st.flight.Some? ==> st.flight.value.at < st.clock && st.flight.value.id < st.built)
    && (forall f, g :: f in st.sent && g in st.sent && (f.at == g.at || f.id == g.id) ==> f == g)
    && (st.flight.Some? ==> forall f :: f in st.sent ==> f.at != st.flight.value.at && f.id != st.flight.value.id)
    && (forall f :: f in st.sent ==> f.gens.Keys <= st.clients.Keys)
    && (st.flight.Some? ==> st.flight.value.gens.Keys <= st.clients.Keys)
  }

  ghost predicate Ordered(st: State) {
    && (forall s :: s in st.clients ==> ClientOk(st, s) && DeliveredOk(st, s))
    && (forall f :: f in st.sent ==> f.id < st.built && f.gens.Keys <= st.clients.Keys)
    && (st.flight.Some? ==>
          var f := st.flight.value;
          f.id < st.built && f.at <= st.clock && f.todo <= f.gens.Keys <= st.clients.Keys
          && forall g :: g in st.sent ==> g.id != f.id)
  }

  lemma AppendShown(t: seq<Message>, at: nat, more: seq<Message>)
    requires NeverBackwards(t) && ShownBy(t, at)
    requires forall m :: m in more && m.Shown? ==> m.snapshot == at
    ensures NeverBackwards(t + more) && ShownBy(t + more, at)
  {
    forall i | 0 <= i < |more| && more[i].Shown? ensures more[i].snapshot == at { assert more[i] in more; }
  }

  lemma PayloadsShow(f: Flight, s: Sock, gen: nat)
    ensures forall m :: m in Payloads(f, s, gen) && m.Shown? ==> m.snapshot == f.at
    ensures !(s in f.gens && f.gens[s] == gen) ==> forall m :: m in Payloads(f, s, gen) ==> !m.Shown?
  {}

  lemma AppendDurable(t: seq<Message>, at: nat, more: seq<Message>)
    requires NeverBackwards(t) && ShownBy(t, at) && forall m :: m in more ==> !m.Shown?
    ensures NeverBackwards(t + more) && ShownBy(t + more, at)
  {
    forall i | 0 <= i < |more| ensures !more[i].Shown? { assert more[i] in more; }
  }

  lemma ShownLater(t: seq<Message>, at: nat, later: nat)
    requires ShownBy(t, at) && at <= later
    ensures ShownBy(t, later)
  {}

  /** Steps on one client leave what is required of the others. */
  lemma OthersKept(st: State, st': State, s: Sock)
    requires Ordered(st) && st'.clients.Keys == st.clients.Keys && forall t :: t in st.clients && t != s ==> st'.clients[t] == st.clients[t]
    requires st'.clock == st.clock && st'.built == st.built && st'.sent == st.sent
    requires st'.flight == st.flight
      || (st.flight.Some? && st'.flight == Some(st.flight.value.(todo := st.flight.value.todo - {s})))
    requires s in st.clients && ClientOk(st', s) && DeliveredOk(st', s)
    ensures Ordered(st')
  {
    hide NeverBackwards, ShownBy, PartsOf;
    forall t | t in st'.clients && t != s ensures ClientOk(st', t) && DeliveredOk(st', t) {
      assert ClientOk(st, t) && DeliveredOk(st, t);
    }
  }

  lemma WriteShows(st: State, s: Sock)
    requires Ordered(st) && Enabled(st, Write(s))
    ensures ClientOk(Next(st, Write(s)), s)
  {
    var f, c := st.flight.value, st.clients[s];
    var more := Payloads(f, s, c.gen);
    assert ClientOk(st, s);
    hide NeverBackwards, ShownBy, Payloads, PartsOf;
    PayloadsShow(f, s, c.gen);
    if f.gens[s] == c.gen {
      AppendShown(c.trace, f.at, more);
      ShownLater(c.trace + more, f.at, st.clock);
    } else {
      AppendDurable(c.trace, st.clock, more);
    }
  }

  lemma WriteDelivers(st: State, s: Sock)
    requires Ordered(st) && Enabled(st, Write(s))
    ensures DeliveredOk(Next(st, Write(s)), s)
  {
    hide NeverBackwards, ShownBy, Payloads, PartsOf, ClientOk;
    var f, c := st.flight.value, st.clients[s];
    var more := Payloads(f, s, c.gen);
    assert DeliveredOk(st, s);
    forall id ensures PartsOf(c.trace + more, id) == PartsOf(c.trace, id) + if id == f.id then UpTo(f.parts) else [] {
      PartsOfConcat(c.trace, more, id);
      PayloadParts(f, s, c.gen, id);
    }
  }

  lemma OrderedWrite(st: State, s: Sock)
    requires Ordered(st) && Enabled(st, Write(s))
    ensures Ordered(Next(st, Write(s)))
  {
    WriteShows(st, s);
    WriteDelivers(st, s);
    hide ClientOk, DeliveredOk, Payloads;
    OthersKept(st, Next(st, Write(s)), s);
  }

  lemma BatchShows(st: State, s: Sock, shows: nat)
    requires Ordered(st) && Enabled(st, Batch(s, shows))
    ensures ClientOk(Next(st, Batch(s, shows)), s)
  {
    var c := st.clients[s];
    var more := ShownAt(c.resume.at, shows);
    assert ClientOk(st, s);
    hide NeverBackwards, ShownBy, PartsOf;
    AppendShown(c.trace, c.resume.at, more);
    ShownLater(c.trace + more, c.resume.at, st.clock);
    if st.flight.Some? && s in st.flight.value.todo && st.flight.value.gens[s] == c.gen {
      ShownLater(c.trace + more, c.resume.at, st.flight.value.at);
    }
  }

  lemma BatchDelivers(st: State, s: Sock, shows: nat)
    requires Ordered(st) && Enabled(st, Batch(s, shows))
    ensures DeliveredOk(Next(st, Batch(s, shows)), s)
  {
    var c := st.clients[s];
    var more := ShownAt(c.resume.at, shows);
    assert DeliveredOk(st, s);
    hide PartsOf, ClientOk;
    forall id ensures PartsOf(c.trace + more, id) == PartsOf(c.trace, id) {
      PartsOfConcat(c.trace, more, id);
      NoParts(more, id);
    }
  }

  lemma OrderedBatch(st: State, s: Sock, shows: nat)
    requires Ordered(st) && Enabled(st, Batch(s, shows))
    ensures Ordered(Next(st, Batch(s, shows)))
  {
    BatchShows(st, s, shows);
    BatchDelivers(st, s, shows);
    hide ClientOk, DeliveredOk, ShownAt;
    OthersKept(st, Next(st, Batch(s, shows)), s);
  }

  lemma OrderedBuild(st: State, shows: nat, clipboard: bool, parts: nat)
    requires Ordered(st) && Enabled(st, Build(shows, clipboard, parts))
    ensures Ordered(Next(st, Build(shows, clipboard, parts)))
  {
    hide NeverBackwards, PartsOf;
    var st' := Next(st, Build(shows, clipboard, parts));
    forall t | t in st'.clients ensures ClientOk(st', t) && DeliveredOk(st', t) {
      assert ClientOk(st, t) && DeliveredOk(st, t);
    }
  }

  lemma OrderedSnapshot(st: State, s: Sock)
    requires Ordered(st) && Enabled(st, Snapshot(s))
    ensures Ordered(Next(st, Snapshot(s)))
  {
    hide NeverBackwards, PartsOf;
    var st' := Next(st, Snapshot(s));
    forall t | t in st'.clients ensures ClientOk(st', t) && DeliveredOk(st', t) {
      assert ClientOk(st, t) && DeliveredOk(st, t);
    }
  }

  lemma OrderedDispatched(st: State)
    requires Ordered(st) && Enabled(st, Dispatched)
    ensures Ordered(Next(st, Dispatched))
  {
    hide NeverBackwards, ShownBy, PartsOf;
    var st' := Next(st, Dispatched);
    forall t | t in st'.clients ensures ClientOk(st', t) && DeliveredOk(st', t) {
      assert ClientOk(st, t) && DeliveredOk(st, t);
    }
  }

  lemma OrderedAdd(st: State, s: Sock)
    requires Ordered(st) && Enabled(st, Add(s))
    ensures Ordered(Next(st, Add(s)))
  {
    hide PartsOf;
    var st' := Next(st, Add(s));
    forall t | t in st'.clients ensures ClientOk(st', t) && DeliveredOk(st', t) {
      if t != s { assert ClientOk(st, t) && DeliveredOk(st, t); } else { forall id ensures PartsOf([], id) == [] { NoParts([], id); } }
    }
  }

  lemma OrderedMark(st: State, e: Label)
    requires Ordered(st) && Enabled(st, e) && (e.Remove? || e.Lock?)
    ensures Ordered(Next(st, e))
  {
    hide NeverBackwards, ShownBy, PartsOf;
    var st' := Next(st, e);
    forall t | t in st'.clients ensures ClientOk(st', t) && DeliveredOk(st', t) {
      assert ClientOk(st, t) && DeliveredOk(st, t);
    }
  }

  lemma OrderedStep(st: State, e: Label)
    requires Ordered(st) && Enabled(st, e)
    ensures Ordered(Next(st, e))
  {
    match e
    case Add(s) => OrderedAdd(st, s);
    case Build(shows, clipboard, parts) => OrderedBuild(st, shows, clipboard, parts);
    case Write(s) => OrderedWrite(st, s);
    case Dispatched => OrderedDispatched(st);
    case Snapshot(s) => OrderedSnapshot(st, s);
    case Batch(s, shows) => OrderedBatch(st, s, shows);
    case _ => OrderedMark(st, e);
  }

  // ---- what has been written ----

  ghost predicate Traced(st: State) {
    && TimesOk(st)
    && (st.flight.Some? ==> st.flight.value.todo <= st.flight.value.gens.Keys)
    && forall s :: s in st.clients ==> WrittenOk(st, s)
  }

  ghost predicate Inv(st: State) { Ordered(st) && Traced(st) }

  /** Messages that are not a frame's leave what has been written of it. */
  lemma WrittenMore(t: seq<Message>, gen: nat, f: Flight, s: Sock, more: seq<Message>)
    requires s in f.gens && WrittenTo(t, gen, f, s) && Shown(f.at) !in more && Clipboard(f.id) !in more
    ensures WrittenTo(t + more, gen, f, s)
  {
    CountConcat(t, more, Shown(f.at));
    CountConcat(t, more, Clipboard(f.id));
    CountNone(more, Shown(f.at));
    CountNone(more, Clipboard(f.id));
    hide Count, Everything, Holds;
    if f.gens[s] == gen { HoldsMore(t, Everything(f), more); }
  }

  lemma CountMore(t: seq<Message>, more: seq<Message>, m: Message)
    requires m !in more
    ensures Count(t + more, m) == Count(t, m)
  {
    CountConcat(t, more, m);
    CountNone(more, m);
  }

  lemma WrittenNow(t: seq<Message>, gen: nat, f: Flight, s: Sock)
    requires s in f.gens && f.gens[s] <= gen && Untouched(t, f)
    ensures WrittenTo(t + Payloads(f, s, gen), gen, f, s)
  {
    var more := Payloads(f, s, gen);
    CountConcat(t, more, Shown(f.at));
    CountConcat(t, more, Clipboard(f.id));
    PayloadCounts(f, s, gen, Shown(f.at));
    PayloadCounts(f, s, gen, Clipboard(f.id));
    hide Count, Everything, Holds, Payloads;
    HoldsLast(t, more);
  }

  lemma NotInPayloads(f: Flight, s: Sock, gen: nat, m: Message)
    requires m != Shown(f.at) && m != Clipboard(f.id) && !m.ScrollPart?
    ensures m !in Payloads(f, s, gen)
  {}

  lemma TracedWriteTo(st: State, s: Sock)
    requires Traced(st) && Enabled(st, Write(s))
    ensures WrittenOk(Next(st, Write(s)), s)
  {
    hide Payloads, Everything, Count, Holds, WrittenTo;
    var f, c := st.flight.value, st.clients[s];
    var more := Payloads(f, s, c.gen);
    assert WrittenOk(st, s) && s in f.gens;
    WrittenNow(c.trace, c.gen, f, s);
    forall at | at >= st.clock ensures Count(c.trace + more, Shown(at)) == 0 {
      NotInPayloads(f, s, c.gen, Shown(at));
      CountMore(c.trace, more, Shown(at));
    }
    forall id | id >= st.built ensures Count(c.trace + more, Clipboard(id)) == 0 {
      NotInPayloads(f, s, c.gen, Clipboard(id));
      CountMore(c.trace, more, Clipboard(id));
    }
    forall g | g in st.sent && s in g.gens ensures WrittenTo(c.trace + more, c.gen, g, s) {
      NotInPayloads(f, s, c.gen, Shown(g.at));
      NotInPayloads(f, s, c.gen, Clipboard(g.id));
      WrittenMore(c.trace, c.gen, g, s, more);
    }
    TodoIsAside(c.trace + more, c.gen, f, s, f.todo - {s});
  }

  lemma TodoIsAside(t: seq<Message>, gen: nat, f: Flight, s: Sock, todo: set<Sock>)
    requires s in f.gens && WrittenTo(t, gen, f, s)
    ensures WrittenTo(t, gen, f.(todo := todo), s)
  {
    assert Everything(f.(todo := todo)) == Everything(f);
    hide Everything, Count, Holds;
  }

  lemma TracedWrite(st: State, s: Sock)
    requires Traced(st) && Enabled(st, Write(s))
    ensures Traced(Next(st, Write(s)))
  {
    TracedWriteTo(st, s);
    hide Payloads, Everything, Count, Holds;
    var st' := Next(st, Write(s));
    forall t | t in st'.clients && t != s ensures WrittenOk(st', t) { assert WrittenOk(st, t); }
  }

  lemma TracedBatchTo(st: State, s: Sock, shows: nat)
    requires Traced(st) && Enabled(st, Batch(s, shows))
    ensures WrittenOk(Next(st, Batch(s, shows)), s)
  {
    var c := st.clients[s];
    var more := ShownAt(c.resume.at, shows);
    assert WrittenOk(st, s);
    hide Everything, Count, Holds, WrittenTo;
    forall at | at >= st.clock ensures Count(c.trace + more, Shown(at)) == 0 { CountMore(c.trace, more, Shown(at)); }
    forall id ensures Count(c.trace + more, Clipboard(id)) == Count(c.trace, Clipboard(id)) { CountMore(c.trace, more, Clipboard(id)); }
    forall g | g in st.sent && s in g.gens ensures WrittenTo(c.trace + more, c.gen, g, s) { WrittenMore(c.trace, c.gen, g, s, more); }
    if st.flight.Some? && s in st.flight.value.gens {
      CountMore(c.trace, more, Shown(st.flight.value.at));
      if s !in st.flight.value.todo { WrittenMore(c.trace, c.gen, st.flight.value, s, more); }
    }
  }

  lemma TracedBatch(st: State, s: Sock, shows: nat)
    requires Traced(st) && Enabled(st, Batch(s, shows))
    ensures Traced(Next(st, Batch(s, shows)))
  {
    hide Everything, Count, Holds, WrittenTo;
    TracedBatchTo(st, s, shows);
    var st' := Next(st, Batch(s, shows));
    forall t | t in st'.clients && t != s ensures WrittenOk(st', t) { assert WrittenOk(st, t); }
  }

  lemma TracedBuild(st: State, shows: nat, clipboard: bool, parts: nat)
    requires Traced(st) && Enabled(st, Build(shows, clipboard, parts))
    ensures Traced(Next(st, Build(shows, clipboard, parts)))
  {
    hide Everything, Holds, Count, WrittenTo;
    var st' := Next(st, Build(shows, clipboard, parts));
    forall t | t in st'.clients ensures WrittenOk(st', t) { assert WrittenOk(st, t); }
  }

  lemma TracedSnapshot(st: State, s: Sock)
    requires Traced(st) && Enabled(st, Snapshot(s))
    ensures Traced(Next(st, Snapshot(s)))
  {
    hide Everything, Holds, Count;
    var st' := Next(st, Snapshot(s));
    forall t | t in st'.clients ensures WrittenOk(st', t) { assert WrittenOk(st, t); }
  }

  lemma TracedOther(st: State, e: Label)
    requires Traced(st) && Enabled(st, e) && (e.Add? || e.Remove? || e.Lock? || e.Dispatched?)
    ensures Traced(Next(st, e))
  {
    assert forall m :: Count([], m) == 0;
    hide Everything, Holds, Count, WrittenTo;
    var st' := Next(st, e);
    forall t | t in st'.clients ensures WrittenOk(st', t) {
      if t in st.clients { assert WrittenOk(st, t); }
    }
  }

  /** Every critical section keeps the order and the count of what each client sees, and what has been written of each
      frame. */
  lemma InvStep(st: State, e: Label)
    requires Inv(st) && Enabled(st, e)
    ensures Inv(Next(st, e))
  {
    OrderedStep(st, e);
    hide Ordered, Traced;
    match e
    case Write(s) => TracedWrite(st, s);
    case Batch(s, shows) => TracedBatch(st, s, shows);
    case Build(shows, clipboard, parts) => TracedBuild(st, shows, clipboard, parts);
    case Snapshot(s) => TracedSnapshot(st, s);
    case _ => TracedOther(st, e);
  }

  // ---- every interleaving ----

  ghost predicate Run(states: seq<State>, labels: seq<Label>) {
    && |states| == |labels| + 1
    && states[0] == Init
    && forall i :: 0 <= i < |labels| ==> Enabled(states[i], labels[i]) && states[i + 1] == Next(states[i], labels[i])
  }

  lemma {:induction false} InvRun(states: seq<State>, labels: seq<Label>, k: nat)
    requires Run(states, labels) && k < |states|
    ensures Inv(states[k])
  {
    hide Inv, Enabled, Next;
    if k == 0 {
      InvInit();
    } else {
      InvRun(states, labels, k - 1);
      InvStep(states[k - 1], labels[k - 1]);
    }
  }

  lemma InvInit()
    ensures Inv(Init)
  {}

  /** Whatever the interleaving of frames and resumes, no client is ever shown an older screen after a
      newer one. */
  lemma NoClientGoesBackwards(states: seq<State>, labels: seq<Label>, k: nat, s: Sock)
    requires Run(states, labels) && k < |states| && s in states[k].clients
    ensures NeverBackwards(states[k].clients[s].trace)
  {
    InvRun(states, labels, k);
    assert ClientOk(states[k], s);
  }

  /** And every scroll payload of a dispatched frame is written exactly once, in order, to every client of
      the frame's snapshot, resumed in between or not. */
  lemma ScrollPartsExactlyOnce(states: seq<State>, labels: seq<Label>, k: nat, f: Flight, s: Sock)
    requires Run(states, labels) && k < |states| && f in states[k].sent && s in f.gens
    ensures s in states[k].clients && PartsOf(states[k].clients[s].trace, f.id) == UpTo(f.parts)
  {
    InvRun(states, labels, k);
    assert DeliveredOk(states[k], s);
  }

  /** A live frame does show its screen: over every run, a client of a dispatched frame's snapshot that has taken no
      snapshot of its own since the frame was built has the whole frame in its trace in one piece, its modes, title and
      screen before its scroll payloads, and that snapshot is shown nowhere else. */
  lemma WholeFrameIsWritten(states: seq<State>, labels: seq<Label>, k: nat, f: Flight, s: Sock)
    requires Run(states, labels) && k < |states| && f in states[k].sent && s in f.gens
    ensures s in states[k].clients
    ensures f.gens[s] == states[k].clients[s].gen ==>
      Holds(states[k].clients[s].trace, ShownAt(f.at, f.shows) + (if f.clipboard then [Clipboard(f.id)] else []) + Parts(f.id, f.parts))
      && Count(states[k].clients[s].trace, Shown(f.at)) == f.shows
  {
    InvRun(states, labels, k);
    assert WrittenOk(states[k], s);
  }

  /** And so does a batch: the snapshot it was taken from is shown by it, and by nothing before. */
  lemma BatchIsWritten(states: seq<State>, labels: seq<Label>, k: nat, s: Sock, shows: nat)
    requires Run(states, labels) && k < |labels| && labels[k] == Batch(s, shows)
    ensures s in states[k].clients && s in states[k + 1].clients && states[k].clients[s].resume.Snapped?
    ensures var before, after, m := states[k].clients[s].trace, states[k + 1].clients[s].trace, Shown(states[k].clients[s].resume.at);
      before <= after && Count(before, m) == 0 && Count(after, m) == shows
  {
    InvRun(states, labels, k);
    assert Enabled(states[k], labels[k]) && WrittenOk(states[k], s);
    var at := states[k].clients[s].resume.at;
    CountConcat(states[k].clients[s].trace, ShownAt(at, shows), Shown(at));
    CountAll(ShownAt(at, shows), Shown(at));
  }

  /** The clipboard of a dispatched frame is written to every client of its snapshot exactly once, stripped or not. */
  lemma ClipboardExactlyOnce(states: seq<State>, labels: seq<Label>, k: nat, f: Flight, s: Sock)
    requires Run(states, labels) && k < |states| && f in states[k].sent && s in f.gens
    ensures s in states[k].clients && Count(states[k].clients[s].trace, Clipboard(f.id)) == if f.clipboard then 1 else 0
  {
    InvRun(states, labels, k);
    assert WrittenOk(states[k], s);
  }

  /** Why a frame is stripped: written whole to a client that was already shown a newer snapshot, it would
      take the client backwards; stripped it never does. */
  lemma StrippingIsNeeded(t: seq<Message>, f: Flight, i: nat)
    requires NeverBackwards(t) && i < |t| && t[i].Shown? && t[i].snapshot > f.at && f.shows > 0
    ensures !NeverBackwards(t + (ShownAt(f.at, f.shows) + Durable(f)))
    ensures NeverBackwards(t + Durable(f))
  {
    var whole := t + (ShownAt(f.at, f.shows) + Durable(f));
    assert whole[|t|] == Shown(f.at) && whole[i] == t[i];
    forall j | |t| <= j < |t + Durable(f)| ensures !(t + Durable(f))[j].Shown? {}
  }
}
