/** Why reliable input is delivered at most once, in order and without gaps: the invariant of
    InputProtocol's guarded runs, and what follows from it. */
module InputDelivery {
  import opened Sequences
  import opened Outbox
  import opened InputProtocol
  import Framing
  import Registry

  // ---- messages in flight ----

  /** `q` carries exactly the bytes of `history` from position `at` on, in order, one non-empty
      frame after another. */
  predicate Chain(q: seq<Up>, at: nat, history: seq<Byte>)
    decreases |q|
  {
    if q == [] then at <= |history|
    else
      && q[0].InputMsg? && q[0].at == at && q[0].data != []
      && at + |q[0].data| <= |history| && history[at..at + |q[0].data|] == q[0].data
      && Chain(q[1..], at + |q[0].data|, history)
  }

  function ChainEnd(q: seq<Up>, at: nat): nat
    decreases |q|
  {
    if q == [] || !q[0].InputMsg? then at else ChainEnd(q[1..], at + |q[0].data|)
  }

  lemma {:induction false} ChainGrows(q: seq<Up>, at: nat, history: seq<Byte>, more: seq<Byte>)
    requires Chain(q, at, history)
    ensures Chain(q, at, history + more)
    decreases |q|
  {
    if q != [] {
      assert (history + more)[at..at + |q[0].data|] == history[at..at + |q[0].data|];
      ChainGrows(q[1..], at + |q[0].data|, history, more);
    }
  }

  lemma {:induction false} ChainConcat(a: seq<Up>, b: seq<Up>, at: nat, history: seq<Byte>)
    requires Chain(a, at, history) && Chain(b, ChainEnd(a, at), history)
    ensures Chain(a + b, at, history)
    ensures ChainEnd(a + b, at) == ChainEnd(b, ChainEnd(a, at))
    decreases |a|
  {
    if a == [] {
      assert a + b == b;
    } else {
      assert (a + b)[1..] == a[1..] + b;
      ChainConcat(a[1..], b, at + |a[0].data|, history);
    }
  }

  lemma {:induction false} ChainOfFrames(at: nat, frames: seq<seq<Byte>>, history: seq<Byte>)
    requires at + |Flatten(frames)| <= |history|
    requires history[at..at + |Flatten(frames)|] == Flatten(frames)
    requires forall f :: f in frames ==> f != []
    ensures Chain(InputMsgs(at, frames), at, history)
    ensures ChainEnd(InputMsgs(at, frames), at) == at + |Flatten(frames)|
    decreases |frames|
  {
    if frames != [] {
      var f := frames[0];
      assert f in frames;
      assert Flatten(frames) == f + Flatten(frames[1..]);
      assert history[at..at + |f|] == Flatten(frames)[..|f|] == f;
      var at' := at + |f|;
      forall g | g in frames[1..] ensures g in frames {}
      assert history[at'..at' + |Flatten(frames[1..])|] == Flatten(frames)[|f|..];
      ChainOfFrames(at', frames[1..], history);
      assert InputMsgs(at, frames)[1..] == InputMsgs(at', frames[1..]);
    }
  }

  lemma {:induction false} ChainIsInputs(q: seq<Up>, at: nat, history: seq<Byte>)
    requires Chain(q, at, history)
    ensures forall m :: m in q ==> m.InputMsg?
    ensures ChainEnd(q, at) <= |history|
    decreases |q|
  {
    if q != [] {
      ChainIsInputs(q[1..], at + |q[0].data|, history);
    }
  }

  lemma {:induction false} InputMsgsAreInputs(at: nat, frames: seq<seq<Byte>>)
    ensures forall m :: m in InputMsgs(at, frames) ==> m.InputMsg?
    decreases |frames|
  {
    if frames != [] { InputMsgsAreInputs(at + |frames[0]|, frames[1..]); }
  }

  // ---- the invariant ----
  //
  // Each part names only the fields it depends on, so a step that leaves them alone keeps it.

  predicate ClientOk(history: seq<Byte>, base: nat, v: Ledger, written: nat, serverEpoch: nat) {
    && Valid(v) && base + v.sent == |history|
    && Flatten(v.outbox) == history[base + v.acked..]
    && v.acked <= written <= v.sent
    && (written > 0 ==> v.epoch.Some? && !v.seeded)
    && (v.epoch.Some? && !v.seeded ==> 0 < v.epoch.value <= serverEpoch)
    && (v.seeded ==> v.epoch.Some?)
    && serverEpoch > 0
  }

  /** The PTY holds increasing positions below `base`, then exactly the `written` positions from it on. */
  ghost predicate PtyOk(base: nat, written: nat, pty: seq<nat>) {
    && written <= |pty|
    && pty[|pty| - written..] == Range(base, written)
    && Increasing(pty[..|pty| - written])
    && forall i :: 0 <= i < |pty| - written ==> pty[i] < base
  }

  predicate Refers(c: Registry.Conn, l: Registry.LedgerId) {
    || c.session == Some(l)
    || (c.phase.Swapped? && (c.phase.prev == Some(l) || c.phase.next == l))
    || (c.phase.Left? && c.phase.next == l)
    || (c.phase.Checked? && c.phase.next == l)
  }

  /** Our sockets use only ledgers of our key, and everybody else's never do. */
  ghost predicate KeysOk(ours: set<Sock>, reg: Registry.State) {
    && (forall s :: s in ours ==> s in reg.conns)
    && (forall s, l :: s in reg.conns && Refers(reg.conns[s], l) && l in reg.ledgers ==>
          (reg.ledgers[l].key == KEY <==> s in ours))
  }

  predicate Settled(p: Registry.Phase) { p.Reading? || p.Ending? || p.Leaving? || p.Gone? }

  predicate SockOk(q: seq<Up>, heard: bool, c: Registry.Conn, sessions: map<Registry.Key, Registry.LedgerId>) {
    && (heard ==> Settled(c.phase) && c.session.Some? && forall m :: m in q ==> m.InputMsg?)
    && (!heard ==> q == [] || (|q| == 1 && HeadIsResume(q)))
    && (!heard && c.phase.Reading? && c.session.Some? ==> q == [])
    && (c.phase.Swapped? ==> c.phase.prev == None)
    && (c.registered <==> !c.phase.Leaving? && !c.phase.Gone?)
    && (c.registered && c.session.Some? ==> KEY in sessions && sessions[KEY] == c.session.value)
  }

  ghost predicate SocksOk(up: map<Sock, seq<Up>>, heard: set<Sock>, reg: Registry.State) {
    && (forall s :: s in heard ==> s in up)
    && forall s :: s in up && s in reg.conns ==> SockOk(up[s], s in heard, reg.conns[s], reg.sessions)
  }

  /** The ledger's count under our key, or None when the key has no ledger. */
  function Counted(reg: Registry.State): Option<nat> {
    if KEY in reg.sessions && reg.sessions[KEY] in reg.ledgers
    then Some(reg.ledgers[reg.sessions[KEY]].received) else None
  }

  predicate Stale(v: Ledger, serverEpoch: nat) { v.epoch.Some? && !v.seeded && v.epoch.value < serverEpoch }

  /** Once the client has heard from the present ledger the two agree on what was written; until
      then that ledger has counted nothing, and what was written before it is something the client
      will find out about. */
  predicate CountOk(joined: bool, written: nat, v: Ledger, serverEpoch: nat, counted: Option<nat>) {
    && (joined ==> counted == Some(written) && v.epoch == Some(serverEpoch) && !v.seeded)
    && (!joined ==> (written == 0 || v.acked > 0 || Stale(v, serverEpoch)) && counted in {None, Some(0)})
  }

  ghost predicate UnjoinedOk(joined: bool, heard: set<Sock>, reg: Registry.State) {
    !joined ==> forall s :: s in heard && s in reg.conns ==> !reg.conns[s].registered
  }

  /** The socket that can have input counted on the present ledger: its owner, reading messages. */
  function Writer(reg: Registry.State): Option<Sock> {
    if KEY in reg.sessions && reg.sessions[KEY] in reg.ledgers then
      var owner := reg.ledgers[reg.sessions[KEY]].owner;
      if owner.Some? && owner.value in reg.conns && reg.conns[owner.value].phase == Registry.Reading then owner else None
    else None
  }

  /** The socket whose input counts next has exactly the next unwritten bytes in flight. */
  predicate OwnerOk(history: seq<Byte>, next: nat, link: Link, up: map<Sock, seq<Up>>, heard: set<Sock>,
                    owner: Option<Sock>) {
    owner.Some? && owner.value in heard && owner.value in up ==>
      && Chain(up[owner.value], next, history)
      && (link.Online? && link.sock == owner.value ==> ChainEnd(up[owner.value], next) == |history|)
  }

  /** No socket the client has heard from owns `l`, so nothing in flight can still be counted on it. */
  predicate Quiet(heard: set<Sock>, reg: Registry.State, l: Registry.LedgerId) {
    l in reg.ledgers && reg.ledgers[l].owner.Some? ==> reg.ledgers[l].owner.value !in heard
  }

  predicate WasCreated(p: Registry.Phase) {
    match p
    case Swapped(_, _, created) => created
    case Left(_, created) => created
    case Checked(_, created) => created
    case Replying(_, created) => created
    case _ => false
  }

  predicate HasReply(q: seq<Down>) { exists i :: 0 <= i < |q| && q[i].ReplyMsg? }

  predicate OneReply(q: seq<Down>) {
    forall i, j :: 0 <= i < j < |q| && q[i].ReplyMsg? ==> !q[j].ReplyMsg?
  }

  predicate FrameOk(m: Down, born: nat, count: nat, joined: bool) {
    match m
    case AckMsg(n) => n <= count
    case ReplyMsg(a) => a.epoch == Some(born) && a.received == count && (a.ledgerLost ==> count == 0 && !joined)
  }

  predicate FramesOk(q: seq<Down>, born: nat, count: nat, joined: bool) {
    OneReply(q) && forall i :: 0 <= i < |q| ==> FrameOk(q[i], born, count, joined)
  }

  predicate AcksOk(q: seq<Down>, count: nat) {
    forall i :: 0 <= i < |q| ==> q[i].AckMsg? && q[i].received <= count
  }

  /** What the socket's ledger has counted, as the client will learn it. */
  predicate SocketCountOk(count: nat, written: nat, v: Ledger, born: nat) {
    count <= written && (count == 0 || (count == written && v.epoch == Some(born) && !v.seeded))
  }

  /** The client's socket before its resumeAck is processed: the ledger it resumed cannot count
      another byte until then, so the ack in flight is still the whole truth when it arrives. */
  predicate WaitingOk(q: seq<Up>, d: seq<Down>, conn: Registry.Conn, count: nat, joined: bool, born: nat,
                      serverEpoch: nat, sessions: map<Registry.Key, Registry.LedgerId>, quiet: bool) {
    && FramesOk(d, born, count, joined)
    && (joined ==> born == serverEpoch
                   && (conn.session.Some? ==> KEY in sessions && sessions[KEY] == conn.session.value))
    && (HasReply(d) ==> Settled(conn.phase) && conn.session.Some? && q == [] && quiet)
    && (conn.phase.Replying? ==> conn.session.Some? && conn.phase.ack == count && quiet)
    && (WasCreated(conn.phase) ==> conn.session.Some? && count == 0 && !joined && quiet)
  }

  predicate LinkOk(link: Link, reg: Registry.State, serverEpoch: nat, ups: set<Sock>) {
    link.Online? ==>
      && link.sock in ups && link.sock in reg.conns && 0 < link.born <= serverEpoch
      && (reg.conns[link.sock].registered ==> link.born == serverEpoch)
  }

  predicate CurrentOk(st: State) {
    st.link.Online? && Ours(st, st.link.sock) ==>
      var c, conn := st.link.sock, st.reg.conns[st.link.sock];
      if c in st.heard then ReceivedAt(st, c) <= st.written && AcksOk(st.down[c], ReceivedAt(st, c))
      else
        && SocketCountOk(ReceivedAt(st, c), st.written, st.ledger, st.link.born)
        && WaitingOk(st.up[c], st.down[c], conn, ReceivedAt(st, c), st.joined, st.link.born, st.serverEpoch,
                     st.reg.sessions, conn.session.Some? && Quiet(st.heard, st.reg, conn.session.value))
  }

  ghost predicate Inv(st: State) {
    && Registry.Inv(st.reg) && st.up.Keys == st.down.Keys
    && ClientOk(st.history, st.base, st.ledger, st.written, st.serverEpoch)
    && PtyOk(st.base, st.written, st.pty)
    && KeysOk(st.up.Keys, st.reg)
    && SocksOk(st.up, st.heard, st.reg)
    && LinkOk(st.link, st.reg, st.serverEpoch, st.up.Keys)
    && CountOk(st.joined, st.written, st.ledger, st.serverEpoch, Counted(st.reg))
    && UnjoinedOk(st.joined, st.heard, st.reg)
    && OwnerOk(st.history, st.base + st.written, st.link, st.up, st.heard, Writer(st.reg))
    && CurrentOk(st)
  }

  lemma InvInit()
    ensures Inv(Init)
  {
    hide ClientOk, PtyOk;
    Registry.InvInit();
    ResetClientOk([], NewLedger, 1);
    EmptyPtyOk([]);
  }

  lemma EmptyPtyOk(pty: seq<nat>)
    requires |pty| == 0
    ensures PtyOk(0, 0, pty)
  {}

  /** After a reset the counters start at the end of the history. */
  lemma ResetClientOk(history: seq<Byte>, v: Ledger, serverEpoch: nat)
    requires v.sent == v.acked == v.outboxBytes == |v.outbox| == 0 && serverEpoch > 0
    requires v.epoch.Some? && !v.seeded ==> 0 < v.epoch.value <= serverEpoch
    requires v.seeded ==> v.epoch.Some?
    ensures ClientOk(history, |history|, v, 0, serverEpoch)
  {}

  // ---- steps of the client ----

  lemma TypeKeepsClient(history: seq<Byte>, base: nat, v: Ledger, written: nat, serverEpoch: nat, data: seq<Byte>)
    requires ClientOk(history, base, v, written, serverEpoch) && SendBinary(v, data).1
    ensures ClientOk(history + data, base, SendBinary(v, data).0, written, serverEpoch)
  {
    TotalIsLength(v.outbox);
    FlattenAppend(v.outbox, data);
    TotalIsLength(v.outbox + [data]);
    assert (history + data)[base + v.acked..] == history[base + v.acked..] + data;
  }

  /** Input sent on a socket that carries everything so far keeps it carrying everything. */
  lemma ChainExtends(q: seq<Up>, at: nat, history: seq<Byte>, data: seq<Byte>, upgraded: bool)
    requires Chain(q, at, history) && ChainEnd(q, at) == |history|
    ensures var q' := q + InputMsgs(|history|, Framing.InputFrames(upgraded, data));
            Chain(q', at, history + data) && ChainEnd(q', at) == |history + data|
  {
    var frames := Framing.InputFrames(upgraded, data);
    Framing.InputFramesCarryTheChunk(upgraded, data);
    assert (history + data)[|history|..|history| + |data|] == data;
    ChainGrows(q, at, history, data);
    ChainOfFrames(|history|, frames, history + data);
    ChainConcat(q, InputMsgs(|history|, frames), at, history + data);
  }

  lemma TypeKeepsOwner(st: State, data: seq<Byte>, owner: Option<Sock>)
    requires Enabled(st, Type(data)) && SendBinary(st.ledger, data).1
    requires OwnerOk(st.history, st.base + st.written, st.link, st.up, st.heard, owner)
    ensures var st' := DoType(st, data);
            OwnerOk(st'.history, st'.base + st'.written, st'.link, st'.up, st'.heard, owner)
  {
    hide Chain, ChainEnd;
    if owner.Some? && owner.value in st.heard && owner.value in st.up {
      ChainGrows(st.up[owner.value], st.base + st.written, st.history, data);
      if st.link.Online? && st.link.sock == owner.value {
        ChainExtends(st.up[owner.value], st.base + st.written, st.history, data, st.link.upgraded);
      }
    }
  }

  lemma InvType(st: State, data: seq<Byte>)
    requires Inv(st) && Enabled(st, Type(data)) && Guarded(st, Type(data))
    ensures Inv(Next(st, Type(data)))
  {
    hide Registry.Inv, ClientOk, OwnerOk, PtyOk, KeysOk, UnjoinedOk, LinkOk, WaitingOk, AcksOk;
    if SendBinary(st.ledger, data).1 {
      TypeKeepsClient(st.history, st.base, st.ledger, st.written, st.serverEpoch, data);
      TypeKeepsOwner(st, data, Writer(st.reg));
      if st.link.Online? {
        InputMsgsAreInputs(|st.history|, Framing.InputFrames(st.link.upgraded, data));
      }
      assert DoType(st, data).up.Keys == st.up.Keys;
    }
  }

  lemma InvSeed(st: State, epoch: nat)
    requires Inv(st)
    ensures Inv(Next(st, Seed(epoch)))
  {
    hide Registry.Inv, OwnerOk, PtyOk, KeysOk, UnjoinedOk, LinkOk, WaitingOk, AcksOk, SocksOk, Flatten, Total;
  }

  lemma InvDrop(st: State)
    requires Inv(st) && Enabled(st, Drop)
    ensures Inv(Next(st, Drop))
  {
    hide Registry.Inv, ClientOk, PtyOk, KeysOk, UnjoinedOk, SocksOk, WaitingOk, AcksOk, Chain, ChainEnd;
  }

  lemma OpenKeepsSockets(up: map<Sock, seq<Up>>, heard: set<Sock>, reg: Registry.State, s: Sock, sent: nat)
    requires KeysOk(up.Keys, reg) && SocksOk(up, heard, reg)
    requires s !in reg.conns && s !in up
    ensures var up' := up[s := [ResumeMsg(sent)]];
            var reg' := Registry.Next(reg, Registry.Accept(s));
            KeysOk(up'.Keys, reg') && SocksOk(up', heard, reg')
  {}

  lemma HeardAreOurs(st: State)
    requires Inv(st)
    ensures st.serverEpoch > 0 && forall s :: s in st.heard ==> s in st.up
  {}

  lemma InvOpen(st: State, s: Sock)
    requires Inv(st) && Enabled(st, Open(s))
    ensures Inv(Next(st, Open(s)))
  {
    hide ClientOk, PtyOk, AcksOk, WaitingOk, Chain, ChainEnd, KeysOk, SocksOk, Registry.Inv;
    HeardAreOurs(st);
    Registry.InvStep(st.reg, Registry.Accept(s));
    assert Writer(Next(st, Open(s)).reg) in {Writer(st.reg), Some(s)};
    OpenKeepsSockets(st.up, st.heard, st.reg, s, st.ledger.sent);
    assert Next(st, Open(s)).up.Keys == st.up.Keys + {s};
    FreshSocketWaits(st, s);
  }

  lemma FreshSocketWaits(st: State, s: Sock)
    requires Enabled(st, Open(s)) && s !in st.heard
    ensures CurrentOk(Next(st, Open(s)))
  {}

  lemma InvFlushAck(st: State, s: Sock, received: nat)
    requires Inv(st) && Enabled(st, FlushAck(s, received))
    ensures Inv(Next(st, FlushAck(s, received)))
  {
    hide Registry.Inv, ClientOk, PtyOk, KeysOk, UnjoinedOk, SocksOk, OwnerOk;
    var st' := Next(st, FlushAck(s, received));
    if st.link.Online? && st.link.sock == s {
      var d := st.down[s];
      assert HasReply(st'.down[s]) ==> HasReply(d) by {
        if HasReply(st'.down[s]) {
          var i :| 0 <= i < |st'.down[s]| && st'.down[s][i].ReplyMsg?;
          assert d[i].ReplyMsg?;
        }
      }
    }
  }

  lemma CrashKeepsSockets(up: map<Sock, seq<Up>>, heard: set<Sock>, reg: Registry.State)
    requires KeysOk(up.Keys, reg) && SocksOk(up, heard, reg)
    ensures KeysOk(up.Keys, Registry.Crash(reg)) && SocksOk(up, heard, Registry.Crash(reg))
  {}

  lemma InvRestart(st: State, epoch: nat)
    requires Inv(st) && Enabled(st, Restart(epoch))
    ensures Inv(Next(st, Restart(epoch)))
  {
    hide PtyOk, Chain, ChainEnd, Flatten, Total, Registry.Inv, SocksOk, KeysOk;
    Registry.InvCrash(st.reg);
    CrashKeepsSockets(st.up, st.heard, st.reg);
  }

  lemma InvReceiveAck(st: State, v4: bool)
    requires Inv(st) && Enabled(st, Receive(v4)) && st.down[st.link.sock][0].AckMsg?
    ensures Inv(Next(st, Receive(v4)))
  {
    hide Registry.Inv, PtyOk, KeysOk, UnjoinedOk, SocksOk, LinkOk, OwnerOk;
    var c := st.link.sock;
    var n := st.down[c][0].received;
    var st' := Next(st, Receive(v4));
    assert n <= st.written;
    AckKeepsClient(st.history, st.base, st.ledger, st.written, st.serverEpoch, n);
    TailOfFrames(st.down[c], st.link.born, ReceivedAt(st, c), st.joined);
  }

  lemma AckKeepsClient(history: seq<Byte>, base: nat, v: Ledger, written: nat, serverEpoch: nat, n: nat)
    requires ClientOk(history, base, v, written, serverEpoch) && n <= written
    ensures ClientOk(history, base, ApplyAck(v, n), written, serverEpoch)
    ensures ApplyAck(v, n).acked == Max(v.acked, n)
  {
    ApplyAckTrims(v, n);
    var acked := ApplyAck(v, n).acked;
    assert history[base + v.acked..][acked - v.acked..] == history[base + acked..];
  }

  lemma TailOfFrames(q: seq<Down>, born: nat, count: nat, joined: bool)
    requires q != []
    ensures FramesOk(q, born, count, joined) ==> FramesOk(q[1..], born, count, joined)
    ensures FramesOk(q, born, count, joined) && q[0].ReplyMsg? ==> AcksOk(q[1..], count)
    ensures AcksOk(q, count) ==> AcksOk(q[1..], count)
    ensures HasReply(q[1..]) ==> HasReply(q)
  {}

  // ---- the resumeAck ----

  predicate Resets(v: Ledger, m: ResumeAck) { EpochChanged(v, m) || !OnResumeAck(v, m).retransmit }

  /** Processing a resumeAck is right in every case the server can send one in: it resets the counters
      only when nothing was counted by the ledger it speaks for, and otherwise it leaves the client's
      acked count equal to what was written. */
  lemma ReplyAgrees(history: seq<Byte>, base: nat, v: Ledger, written: nat, serverEpoch: nat,
                    m: ResumeAck, born: nat, joined: bool, registered: bool, counted: Option<nat>)
    requires ClientOk(history, base, v, written, serverEpoch)
    requires CountOk(joined, written, v, serverEpoch, counted)
    requires SocketCountOk(m.received, written, v, born)
    requires m.epoch == Some(born) && 0 < born <= serverEpoch
    requires m.ledgerLost ==> m.received == 0 && !joined
    requires joined || registered ==> born == serverEpoch && counted == Some(m.received)
    ensures Resets(v, m) ==> m.received == 0 && !joined
    ensures var base' := if Resets(v, m) then |history| else base;
            var written' := if Resets(v, m) then 0 else written;
            var v' := OnResumeAck(v, m).ledger;
            && ClientOk(history, base', v', written', serverEpoch)
            && CountOk(joined || registered, written', v', serverEpoch, counted)
            && m.received <= written'
            && (registered ==> v'.acked == written')
  {
    hide Flatten, Total, KeepLast;
    var v1 := NoteEpoch(if EpochChanged(v, m) then ResetLedger(v) else v, m);
    if Resets(v, m) {
      if EpochChanged(v, m) {
        ApplyAckToEmpty(v1, m.received);
      }
      ResetClientOk(history, OnResumeAck(v, m).ledger, serverEpoch);
    } else {
      assert ClientOk(history, base, v1, written, serverEpoch);
      AckKeepsClient(history, base, v1, written, serverEpoch, m.received);
    }
  }

  lemma ApplyAckToEmpty(v: Ledger, received: nat)
    requires v.sent == v.acked == 0 && v.outbox == [] && v.outboxBytes == 0
    ensures ApplyAck(v, received) == v
  {}

  /** What is retransmitted is exactly what is not written yet. */
  lemma RetransmissionIsTheRest(history: seq<Byte>, base: nat, v: Ledger, written: nat, serverEpoch: nat, upgraded: bool)
    requires ClientOk(history, base, v, written, serverEpoch) && v.acked == written
    ensures var q := InputMsgs(base + v.acked, FramesOf(upgraded, v.outbox));
            && Chain(q, base + written, history) && ChainEnd(q, base + written) == |history|
            && (forall m :: m in q ==> m.InputMsg?)
  {
    var frames := FramesOf(upgraded, v.outbox);
    FramesCarryTheOutbox(upgraded, v.outbox);
    assert history[base + written..|history|] == Flatten(frames);
    ChainOfFrames(base + written, frames, history);
    InputMsgsAreInputs(base + v.acked, frames);
  }

  /** The facts about the waiting client socket that the reply at the head of its queue settles. */
  lemma ReplyArrives(st: State, m: ResumeAck)
    requires Inv(st) && st.link.Online? && Ours(st, st.link.sock)
    requires st.down[st.link.sock] != [] && st.down[st.link.sock][0] == ReplyMsg(m)
    ensures var c, conn := st.link.sock, st.reg.conns[st.link.sock];
            && c !in st.heard && m.epoch == Some(st.link.born) && m.received == ReceivedAt(st, c)
            && 0 < st.link.born <= st.serverEpoch
            && (m.ledgerLost ==> m.received == 0 && !st.joined)
            && (conn.registered ==> st.link.born == st.serverEpoch)
            && (st.joined || conn.registered ==> st.link.born == st.serverEpoch && Counted(st.reg) == Some(m.received))
            && Settled(conn.phase) && conn.session.Some? && st.up[c] == []
            && Quiet(st.heard, st.reg, conn.session.value)
            && SocketCountOk(m.received, st.written, st.ledger, st.link.born)
            && FramesOk(st.down[c], st.link.born, m.received, st.joined)
  {}

  lemma PtySurvivesReply(st: State, m: ResumeAck)
    requires PtyOk(st.base, st.written, st.pty)
    requires ClientOk(st.history, st.base, st.ledger, st.written, st.serverEpoch)
    ensures PtyOk(if Resets(st.ledger, m) then |st.history| else st.base, if Resets(st.ledger, m) then 0 else st.written, st.pty)
  {}

  lemma SocketsSurviveReply(st: State, v4: bool)
    requires Enabled(st, Receive(v4)) && st.down[st.link.sock][0].ReplyMsg?
    requires SocksOk(st.up, st.heard, st.reg) && st.link.sock !in st.heard && st.up[st.link.sock] == []
    requires Settled(st.reg.conns[st.link.sock].phase) && st.reg.conns[st.link.sock].session.Some?
    ensures var st' := Next(st, Receive(v4)); SocksOk(st'.up, st'.heard, st'.reg)
  {
    hide Chain, Flatten, Total, KeepLast, InputMsgs, FramesOf, OnResumeAck;
    var st' := Next(st, Receive(v4));
    var c := st.link.sock;
    var o := OnResumeAck(st.ledger, st.down[c][0].ack);
    InputMsgsAreInputs(st'.base + o.ledger.acked, FramesOf(st'.link.upgraded, o.ledger.outbox));
    assert forall x :: x in st'.up[c] ==> x.InputMsg?;
  }

  lemma OtherWriterKept(history: seq<Byte>, next: nat, link: Link, link': Link, up: map<Sock, seq<Up>>,
                        up': map<Sock, seq<Up>>, heard: set<Sock>, w: Option<Sock>)
    requires OwnerOk(history, next, link, up, heard, w)
    requires link.Online? && link'.Online? && link'.sock == link.sock && w != Some(link.sock)
    requires forall t :: t in up && t != link.sock ==> t in up' && up'[t] == up[t]
    requires forall t :: t in up' && t != link.sock ==> t in up
    ensures OwnerOk(history, next, link', up', heard + {link.sock}, w)
  {}

  lemma UnheardWriter(history: seq<Byte>, next: nat, link: Link, up: map<Sock, seq<Up>>, heard: set<Sock>, w: Option<Sock>)
    requires w.Some? ==> w.value !in heard
    ensures OwnerOk(history, next, link, up, heard, w)
  {}

  /** Before the client has heard from the present ledger, no socket it heard from can write. */
  lemma NoHeardWriter(up: map<Sock, seq<Up>>, heard: set<Sock>, reg: Registry.State)
    requires SocksOk(up, heard, reg) && UnjoinedOk(false, heard, reg)
    ensures Writer(reg).Some? ==> Writer(reg).value !in heard
  {}

  /** The reply has been read, and nothing of the client's is under way on the socket. */
  ghost predicate ReplyRead(st: State, v4: bool) {
    && Enabled(st, Receive(v4)) && st.down[st.link.sock][0].ReplyMsg? && st.up[st.link.sock] == []
    && var st' := Next(st, Receive(v4));
       ClientOk(st'.history, st'.base, st'.ledger, st'.written, st'.serverEpoch) && st'.ledger.acked == st'.written
  }

  lemma WriterResends(st: State, v4: bool)
    requires ReplyRead(st, v4) && OnResumeAck(st.ledger, st.down[st.link.sock][0].ack).retransmit
    ensures var st' := Next(st, Receive(v4));
            OwnerOk(st'.history, st'.base + st'.written, st'.link, st'.up, st'.heard, Some(st.link.sock))
  {
    hide Valid, OnResumeAck, EpochChanged, ClientOk, Chain, ChainEnd;
    var c := st.link.sock;
    var st' := Next(st, Receive(v4));
    RetransmissionIsTheRest(st'.history, st'.base, st'.ledger, st'.written, st'.serverEpoch, st'.link.upgraded);
    assert st'.up[c] == InputMsgs(st'.base + st'.ledger.acked, FramesOf(st'.link.upgraded, st'.ledger.outbox));
  }

  lemma WriterRests(st: State, v4: bool)
    requires ReplyRead(st, v4) && !OnResumeAck(st.ledger, st.down[st.link.sock][0].ack).retransmit
    ensures var st' := Next(st, Receive(v4));
            OwnerOk(st'.history, st'.base + st'.written, st'.link, st'.up, st'.heard, Some(st.link.sock))
  {
    hide Valid, OnResumeAck, EpochChanged;
    assert Next(st, Receive(v4)).up[st.link.sock] == [];
  }

  lemma CurrentWriter(st: State, v4: bool)
    requires ReplyRead(st, v4)
    ensures var st' := Next(st, Receive(v4));
            OwnerOk(st'.history, st'.base + st'.written, st'.link, st'.up, st'.heard, Some(st.link.sock))
  {
    var resends := OnResumeAck(st.ledger, st.down[st.link.sock][0].ack).retransmit;
    hide OwnerOk, Next, ClientOk, Enabled;
    if resends { WriterResends(st, v4); } else { WriterRests(st, v4); }
  }

  lemma WriterSurvivesReply(st: State, v4: bool)
    requires Enabled(st, Receive(v4)) && st.down[st.link.sock][0].ReplyMsg? && st.up[st.link.sock] == []
    requires SocksOk(st.up, st.heard, st.reg) && UnjoinedOk(st.joined, st.heard, st.reg)
    requires OwnerOk(st.history, st.base + st.written, st.link, st.up, st.heard, Writer(st.reg))
    requires Resets(st.ledger, st.down[st.link.sock][0].ack) ==> !st.joined
    requires var st' := Next(st, Receive(v4));
             && ClientOk(st'.history, st'.base, st'.ledger, st'.written, st'.serverEpoch)
             && (st.reg.conns[st.link.sock].registered ==> st'.ledger.acked == st'.written)
    ensures var st' := Next(st, Receive(v4));
            OwnerOk(st'.history, st'.base + st'.written, st'.link, st'.up, st'.heard, Writer(st'.reg))
  {
    hide Valid, OnResumeAck, EpochChanged, ClientOk, Chain, ChainEnd;
    var st' := Next(st, Receive(v4));
    var w := Writer(st.reg);
    if w == Some(st.link.sock) {
      assert SockOk(st.up[w.value], w.value in st.heard, st.reg.conns[w.value], st.reg.sessions);
      hide OwnerOk, SocksOk;
      CurrentWriter(st, v4);
    } else if st.joined {
      hide SocksOk;
      OtherWriterKept(st.history, st.base + st.written, st.link, st'.link, st.up, st'.up, st.heard, w);
    } else {
      NoHeardWriter(st.up, st.heard, st.reg);
      hide SocksOk, OwnerOk;
      UnheardWriter(st'.history, st'.base + st'.written, st'.link, st'.up, st'.heard, w);
    }
  }

  lemma CurrentAfterReply(st: State, v4: bool)
    requires Enabled(st, Receive(v4)) && st.down[st.link.sock][0].ReplyMsg?
    requires AcksOk(st.down[st.link.sock][1..], ReceivedAt(st, st.link.sock))
    requires ReceivedAt(st, st.link.sock) <= Next(st, Receive(v4)).written
    ensures CurrentOk(Next(st, Receive(v4)))
  {
    hide OnResumeAck, EpochChanged, AcksOk, WaitingOk;
  }

  /** Which fields processing a resumeAck changes. */
  lemma ReplyChanges(st: State, v4: bool)
    requires Enabled(st, Receive(v4)) && st.down[st.link.sock][0].ReplyMsg?
    ensures var st', c, m := Next(st, Receive(v4)), st.link.sock, st.down[st.link.sock][0].ack;
            && st'.history == st.history && st'.reg == st.reg && st'.serverEpoch == st.serverEpoch && st'.pty == st.pty
            && st'.ledger == OnResumeAck(st.ledger, m).ledger
            && st'.base == (if Resets(st.ledger, m) then |st.history| else st.base)
            && st'.written == (if Resets(st.ledger, m) then 0 else st.written)
            && st'.joined == (st.joined || st.reg.conns[c].registered) && st'.heard == st.heard + {c}
            && st'.link.Online? && st'.link.sock == c && st'.link.born == st.link.born
            && st'.up.Keys == st.up.Keys && st'.down.Keys == st.down.Keys
  {
    hide OnResumeAck, EpochChanged;
  }

  lemma InvReceiveReply(st: State, v4: bool)
    requires Inv(st) && Enabled(st, Receive(v4)) && st.down[st.link.sock][0].ReplyMsg?
    ensures Inv(Next(st, Receive(v4)))
  {
    hide Registry.Inv, ClientOk, KeysOk, PtyOk, Resets, OnResumeAck, AcksOk, FramesOk, WaitingOk, SocksOk;
    hide OwnerOk, CurrentOk, Quiet, Next;
    var c := st.link.sock;
    var m := st.down[c][0].ack;
    var conn := st.reg.conns[c];
    ReplyArrives(st, m);
    ReplyChanges(st, v4);
    ReplyAgrees(st.history, st.base, st.ledger, st.written, st.serverEpoch, m, st.link.born, st.joined, conn.registered, Counted(st.reg));
    TailOfFrames(st.down[c], st.link.born, m.received, st.joined);
    PtySurvivesReply(st, m);
    SocketsSurviveReply(st, v4);
    WriterSurvivesReply(st, v4);
    CurrentAfterReply(st, v4);
  }

  // ---- server steps of other clients ----

  /** Nothing our session depends on differs between `reg` and `reg'`. */
  ghost predicate SameForUs(ours: set<Sock>, reg: Registry.State, reg': Registry.State) {
    && (forall t :: t in ours && t in reg.conns ==> t in reg'.conns && reg'.conns[t] == reg.conns[t])
    && (KEY in reg'.sessions <==> KEY in reg.sessions)
    && (KEY in reg.sessions ==> reg'.sessions[KEY] == reg.sessions[KEY])
    && (forall l :: l in reg.ledgers && reg.ledgers[l].key == KEY ==> l in reg'.ledgers && reg'.ledgers[l] == reg.ledgers[l])
  }

  predicate ByOther(ours: set<Sock>, e: Registry.Label) {
    match e
    case Reclaim(key) => key != KEY
    case Lookup(s, key, _) => s !in ours && key != KEY
    case _ => e.s !in ours
  }

  /** What one socket's step can touch: its own connection, the ledgers it refers to, and the fence of
      the socket that owns one of those. */
  ghost predicate Touches(reg: Registry.State, reg': Registry.State, s: Sock) {
    && reg'.sessions == reg.sessions
    && reg'.ledgers.Keys == reg.ledgers.Keys && reg'.conns.Keys == reg.conns.Keys + {s}
    && (forall l :: l in reg.ledgers && !(s in reg.conns && Refers(reg.conns[s], l)) ==> reg'.ledgers[l] == reg.ledgers[l])
    && (forall l :: l in reg.ledgers ==> reg'.ledgers[l].key == reg.ledgers[l].key)
    && (forall l :: Refers(reg'.conns[s], l) ==> s in reg.conns && Refers(reg.conns[s], l))
    && (forall t :: t in reg.conns && t != s ==>
          && reg'.conns[t] == reg.conns[t].(fenced := reg'.conns[t].fenced)
          && (reg'.conns[t] == reg.conns[t]
              || (s in reg.conns && exists l :: l in reg.ledgers && Refers(reg.conns[s], l) && reg.ledgers[l].owner == Some(t))))
  }

  lemma TakeTouches(reg: Registry.State, s: Sock)
    requires Registry.Enabled(reg, Registry.Take(s)) && Registry.ConnOk(reg, s)
    ensures Touches(reg, Registry.Next(reg, Registry.Take(s)), s)
  {
    assert Refers(reg.conns[s], reg.conns[s].phase.next);
  }

  lemma ReleaseTouches(reg: Registry.State, s: Sock)
    requires Registry.Enabled(reg, Registry.Release(s)) && Registry.ConnOk(reg, s)
    ensures Touches(reg, Registry.Next(reg, Registry.Release(s)), s)
  {}

  lemma ApplyTouches(reg: Registry.State, s: Sock, data: seq<Byte>)
    requires Registry.Enabled(reg, Registry.Apply(s, data)) && Registry.ConnOk(reg, s)
    ensures Touches(reg, Registry.Next(reg, Registry.Apply(s, data)), s)
  {}

  lemma ResumeTouches(reg: Registry.State, e: Registry.Label)
    requires Registry.Enabled(reg, e) && (e.LeaveOld? || e.ReadFence?) && Registry.ConnOk(reg, e.s)
    ensures Touches(reg, Registry.Next(reg, e), e.s)
  {
    if e.ReadFence? { assert Refers(reg.conns[e.s], reg.conns[e.s].phase.next); }
  }

  lemma StepTouches(reg: Registry.State, e: Registry.Label)
    requires Registry.Enabled(reg, e) && !e.Reclaim? && !e.Lookup?
    requires e.s in reg.conns ==> Registry.ConnOk(reg, e.s)
    ensures Touches(reg, Registry.Next(reg, e), e.s)
  {
    match e
    case Take(s) => TakeTouches(reg, s);
    case Release(s) => ReleaseTouches(reg, s);
    case Apply(s, data) => ApplyTouches(reg, s, data);
    case LeaveOld(s) => ResumeTouches(reg, e);
    case ReadFence(s) => ResumeTouches(reg, e);
    case _ =>
  }

  lemma TouchesIsInvisible(ours: set<Sock>, reg: Registry.State, reg': Registry.State, s: Sock)
    requires Registry.Inv(reg) && KeysOk(ours, reg) && Touches(reg, reg', s) && s !in ours
    ensures SameForUs(ours, reg, reg') && KeysOk(ours, reg')
  {}

  lemma OtherStepsAreInvisible(ours: set<Sock>, reg: Registry.State, e: Registry.Label)
    requires Registry.Inv(reg) && KeysOk(ours, reg) && Registry.Enabled(reg, e) && ByOther(ours, e)
    ensures SameForUs(ours, reg, Registry.Next(reg, e)) && KeysOk(ours, Registry.Next(reg, e))
  {
    match e
    case Reclaim(key) =>
    case Lookup(s, key, newId) => OtherLookup(ours, reg, s, key, newId);
    case _ =>
      StepTouches(reg, e);
      TouchesIsInvisible(ours, reg, Registry.Next(reg, e), e.s);
  }

  lemma OtherLookup(ours: set<Sock>, reg: Registry.State, s: Sock, key: Registry.Key, newId: Registry.LedgerId)
    requires Registry.Inv(reg) && KeysOk(ours, reg) && Registry.Enabled(reg, Registry.Lookup(s, key, newId))
    requires s !in ours && key != KEY
    ensures var reg' := Registry.Next(reg, Registry.Lookup(s, key, newId));
            SameForUs(ours, reg, reg') && KeysOk(ours, reg')
  {
    hide Registry.LedgerOk;
    forall t | t in reg.conns ensures !Refers(reg.conns[t], newId) { assert Registry.ConnOk(reg, t); }
  }

  lemma InvisibleToSockets(up: map<Sock, seq<Up>>, heard: set<Sock>, joined: bool, reg: Registry.State, reg': Registry.State)
    requires KeysOk(up.Keys, reg) && SameForUs(up.Keys, reg, reg')
    requires SocksOk(up, heard, reg) && UnjoinedOk(joined, heard, reg)
    ensures SocksOk(up, heard, reg') && UnjoinedOk(joined, heard, reg')
  {}

  /** The ledger under our key, its count and its writer are the same. */
  lemma InvisibleToLedger(ours: set<Sock>, reg: Registry.State, reg': Registry.State)
    requires Registry.Inv(reg) && KeysOk(ours, reg) && SameForUs(ours, reg, reg')
    ensures Counted(reg') == Counted(reg) && Writer(reg') == Writer(reg)
  {}

  lemma InvisibleToCurrent(st: State, reg': Registry.State)
    requires Registry.Inv(st.reg) && KeysOk(st.up.Keys, st.reg) && SameForUs(st.up.Keys, st.reg, reg') && CurrentOk(st)
    ensures CurrentOk(st.(reg := reg'))
  {}

  lemma InvisibleKeepsInv(st: State, reg': Registry.State)
    requires Inv(st) && Registry.Inv(reg') && SameForUs(st.up.Keys, st.reg, reg') && KeysOk(st.up.Keys, reg')
    ensures Inv(st.(reg := reg'))
  {
    hide ClientOk, PtyOk, KeysOk, SocksOk, UnjoinedOk, OwnerOk, CurrentOk, Registry.Inv;
    InvisibleToSockets(st.up, st.heard, st.joined, st.reg, reg');
    InvisibleToLedger(st.up.Keys, st.reg, reg');
    InvisibleToCurrent(st, reg');
  }

  /** Whatever other clients of the server do, and whenever, delivery is undisturbed. */
  lemma InvOther(st: State, e: Registry.Label)
    requires Inv(st) && Enabled(st, Server(e)) && ByOther(st.up.Keys, e)
    ensures Inv(Next(st, Server(e)))
  {
    hide ClientOk, PtyOk, KeysOk, SocksOk, UnjoinedOk, OwnerOk, CurrentOk, CountOk, LinkOk, Registry.Inv, Registry.Next, SameForUs;
    Registry.InvStep(st.reg, e);
    OtherStepsAreInvisible(st.up.Keys, st.reg, e);
    InvisibleKeepsInv(st, Registry.Next(st.reg, e));
  }

  // ---- server steps of our own sockets that write nothing ----

  /** A socket moves on without counting input: it may give up a ledger, or take the one it resumed
      and so fence the former owner, and it does not come back to reading messages. */
  ghost predicate MovesOn(reg: Registry.State, reg': Registry.State, s: Sock) {
    && reg'.sessions == reg.sessions && reg'.conns.Keys == reg.conns.Keys && reg'.ledgers.Keys == reg.ledgers.Keys
    && (forall t :: t in reg.conns && t != s ==> reg'.conns[t] == reg.conns[t].(fenced := reg'.conns[t].fenced))
    && (forall l :: l in reg.ledgers ==>
          && reg'.ledgers[l].received == reg.ledgers[l].received && reg'.ledgers[l].key == reg.ledgers[l].key
          && (reg'.ledgers[l].owner in {reg.ledgers[l].owner, None}
              || (reg'.ledgers[l].owner == Some(s) && s in reg.conns && reg.conns[s].phase.Checked?)))
    && s in reg.conns
    && (forall l :: Refers(reg'.conns[s], l) ==> Refers(reg.conns[s], l))
  }

  predicate PhaseMoves(reg: Registry.State, reg': Registry.State, s: Sock)
    requires s in reg.conns && s in reg'.conns
  {
    var c, c' := reg.conns[s], reg'.conns[s];
    && c'.session == c.session && !c'.phase.Reading? && !c'.phase.Swapped?
    && (c'.registered ==> c.registered) && (c'.registered <==> !c'.phase.Leaving? && !c'.phase.Gone?)
    && (Settled(c'.phase) || (!Settled(c.phase) && WasCreated(c'.phase) == WasCreated(c.phase)))
    && (c'.phase.Replying? ==>
          && c.session.Some? && c.session.value in reg'.ledgers
          && c'.phase.ack == reg'.ledgers[c.session.value].received && reg'.ledgers[c.session.value].owner == Some(s))
  }

  predicate WritesNothing(reg: Registry.State, e: Registry.Label) {
    match e
    case LeaveOld(_) => true
    case ReadFence(_) => true
    case Take(_) => true
    case Stop(_) => true
    case Unregister(_) => true
    case Release(_) => true
    case Reply(s) => s in reg.conns && reg.conns[s].fenced
    case Apply(s, _) => s in reg.conns && reg.conns[s].session.Some? && !Registry.Owns(reg, s, reg.conns[s].session.value)
    case _ => false
  }

  lemma TakeMovesOn(reg: Registry.State, s: Sock)
    requires Registry.Enabled(reg, Registry.Take(s)) && Registry.ConnOk(reg, s)
    requires reg.conns[s].registered
    ensures MovesOn(reg, Registry.Next(reg, Registry.Take(s)), s)
    ensures PhaseMoves(reg, Registry.Next(reg, Registry.Take(s)), s)
  {}

  lemma EarlyMovesOn(reg: Registry.State, e: Registry.Label)
    requires Registry.Enabled(reg, e) && (e.LeaveOld? || e.ReadFence?) && Registry.ConnOk(reg, e.s)
    requires reg.conns[e.s].registered && (e.LeaveOld? ==> reg.conns[e.s].phase.prev == None)
    ensures MovesOn(reg, Registry.Next(reg, e), e.s)
    ensures PhaseMoves(reg, Registry.Next(reg, e), e.s)
  {}

  lemma LateMovesOn(reg: Registry.State, e: Registry.Label)
    requires Registry.Enabled(reg, e) && WritesNothing(reg, e) && !e.LeaveOld? && !e.ReadFence? && !e.Take?
    requires Registry.ConnOk(reg, e.s)
    requires reg.conns[e.s].registered <==> !reg.conns[e.s].phase.Leaving? && !reg.conns[e.s].phase.Gone?
    ensures MovesOn(reg, Registry.Next(reg, e), e.s)
    ensures PhaseMoves(reg, Registry.Next(reg, e), e.s)
  {}

  lemma MovingKeepsSockets(up: map<Sock, seq<Up>>, heard: set<Sock>, joined: bool, reg: Registry.State, reg': Registry.State, s: Sock)
    requires KeysOk(up.Keys, reg) && SocksOk(up, heard, reg) && UnjoinedOk(joined, heard, reg)
    requires MovesOn(reg, reg', s) && PhaseMoves(reg, reg', s)
    ensures KeysOk(up.Keys, reg') && SocksOk(up, heard, reg') && UnjoinedOk(joined, heard, reg')
  {}

  lemma MovingKeepsOwner(st: State, reg': Registry.State, s: Sock)
    requires MovesOn(st.reg, reg', s) && PhaseMoves(st.reg, reg', s)
    requires OwnerOk(st.history, st.base + st.written, st.link, st.up, st.heard, Writer(st.reg))
    ensures OwnerOk(st.history, st.base + st.written, st.link, st.up, st.heard, Writer(reg'))
    ensures Counted(reg') == Counted(st.reg)
  {}

  lemma MovingKeepsCurrent(st: State, reg': Registry.State, s: Sock)
    requires MovesOn(st.reg, reg', s) && PhaseMoves(st.reg, reg', s)
    requires st.up.Keys == st.down.Keys && SocksOk(st.up, st.heard, st.reg) && CurrentOk(st)
    ensures CurrentOk(st.(reg := reg'))
  {
    hide FramesOk, AcksOk, HasReply;
  }

  lemma InvMovesOn(st: State, reg': Registry.State, s: Sock)
    requires Inv(st) && Registry.Inv(reg') && MovesOn(st.reg, reg', s) && PhaseMoves(st.reg, reg', s)
    ensures Inv(st.(reg := reg'))
  {
    hide ClientOk, PtyOk, KeysOk, SocksOk, UnjoinedOk, OwnerOk, CurrentOk, CountOk, Registry.Inv;
    MovingKeepsSockets(st.up, st.heard, st.joined, st.reg, reg', s);
    MovingKeepsOwner(st, reg', s);
    MovingKeepsCurrent(st, reg', s);
  }

  /** A refused frame is gone from the socket, and nobody will miss it there. */
  lemma InvRefused(st: State, s: Sock)
    requires Inv(st) && s in st.up && s in st.heard && st.up[s] != [] && Writer(st.reg) != Some(s)
    ensures Inv(st.(up := st.up[s := st.up[s][1..]]))
  {
    hide ClientOk, PtyOk, UnjoinedOk, CountOk, Registry.Inv, Registry.ConnOk, AcksOk, FramesOk, Chain, ChainEnd;
    var st' := st.(up := st.up[s := st.up[s][1..]]);
    assert st'.up.Keys == st.up.Keys;
    assert SocksOk(st'.up, st'.heard, st'.reg) by {
      hide OwnerOk, CurrentOk, LinkOk;
    }
    assert CurrentOk(st') by {
      hide SocksOk, OwnerOk, KeysOk;
    }
  }

  lemma SilentStepMoves(st: State, e: Registry.Label)
    requires Inv(st) && Enabled(st, Server(e)) && WritesNothing(st.reg, e) && e.s in st.up
    ensures MovesOn(st.reg, Registry.Next(st.reg, e), e.s)
    ensures PhaseMoves(st.reg, Registry.Next(st.reg, e), e.s)
  {
    hide ClientOk, PtyOk, KeysOk, UnjoinedOk, OwnerOk, CurrentOk, CountOk, Registry.Next, MovesOn, PhaseMoves, LinkOk, Registry.LedgerOk;
    assert SockOk(st.up[e.s], e.s in st.heard, st.reg.conns[e.s], st.reg.sessions);
    match e
    case Take(s) => TakeMovesOn(st.reg, s);
    case LeaveOld(s) => EarlyMovesOn(st.reg, e);
    case ReadFence(s) => EarlyMovesOn(st.reg, e);
    case _ => LateMovesOn(st.reg, e);
  }

  /** Only a socket the client has heard from can have a frame refused. */
  lemma RefusedStep(st: State, e: Registry.Label)
    requires Inv(st) && Enabled(st, Server(e)) && WritesNothing(st.reg, e) && e.Apply? && e.s in st.up
    ensures e.s in st.heard && st.up[e.s] != []
    ensures Writer(Registry.Next(st.reg, e)) != Some(e.s)
    ensures Next(st, Server(e)) == st.(reg := Registry.Next(st.reg, e), up := st.up[e.s := st.up[e.s][1..]])
  {
    hide ClientOk, PtyOk, KeysOk, UnjoinedOk, OwnerOk, CurrentOk, CountOk, LinkOk, Registry.LedgerOk;
    assert SockOk(st.up[e.s], e.s in st.heard, st.reg.conns[e.s], st.reg.sessions);
  }

  lemma SilentStepKeepsQueues(st: State, e: Registry.Label)
    requires Enabled(st, Server(e)) && WritesNothing(st.reg, e) && !e.Apply?
    ensures Next(st, Server(e)) == st.(reg := Registry.Next(st.reg, e))
  {}

  lemma InvSilent(st: State, e: Registry.Label)
    requires Inv(st) && Enabled(st, Server(e)) && WritesNothing(st.reg, e) && e.s in st.up
    ensures Inv(Next(st, Server(e)))
  {
    SilentStepMoves(st, e);
    if e.Apply? { RefusedStep(st, e); } else { SilentStepKeepsQueues(st, e); }
    hide ClientOk, PtyOk, KeysOk, SocksOk, UnjoinedOk, OwnerOk, CurrentOk, CountOk, LinkOk, Registry.Next, MovesOn, PhaseMoves, Next;
    Registry.InvStep(st.reg, e);
    InvMovesOn(st, Registry.Next(st.reg, e), e.s);
    if e.Apply? { InvRefused(st.(reg := Registry.Next(st.reg, e)), e.s); }
  }

  // ---- resuming ----

  /** A socket that has yet to resume refers to no ledger, and nobody refers to one not made yet. */
  lemma NothingRefersTo(reg: Registry.State, l: Registry.LedgerId)
    requires Registry.Inv(reg) && l !in reg.ledgers
    ensures forall t :: t in reg.conns ==> !Refers(reg.conns[t], l)
  {}

  lemma LookupKeepsSockets(up: map<Sock, seq<Up>>, heard: set<Sock>, joined: bool, reg: Registry.State, s: Sock, newId: Registry.LedgerId)
    requires Registry.Inv(reg) && KeysOk(up.Keys, reg) && SocksOk(up, heard, reg) && UnjoinedOk(joined, heard, reg)
    requires Registry.Enabled(reg, Registry.Lookup(s, KEY, newId)) && s in up && HeadIsResume(up[s])
    ensures var reg' := Registry.Next(reg, Registry.Lookup(s, KEY, newId));
            KeysOk(up.Keys, reg') && SocksOk(up, heard, reg') && UnjoinedOk(joined, heard, reg')
    ensures s !in heard && reg.conns[s].session == None && reg.conns[s].registered
  {
    hide Registry.LedgerOk, Registry.ConnOk;
    NothingRefersTo(reg, newId);
    assert up[s][0] in up[s] && SockOk(up[s], s in heard, reg.conns[s], reg.sessions);
  }

  lemma LookupKeepsLedger(up: map<Sock, seq<Up>>, heard: set<Sock>, reg: Registry.State, s: Sock, newId: Registry.LedgerId)
    requires Registry.Inv(reg) && Registry.Enabled(reg, Registry.Lookup(s, KEY, newId)) && reg.conns[s].session == None
    ensures var reg' := Registry.Next(reg, Registry.Lookup(s, KEY, newId));
            && Writer(reg') == Writer(reg)
            && Counted(reg') == if KEY in reg.sessions then Counted(reg) else Some(0)
  {}

  lemma LookupKeepsCurrent(st: State, s: Sock, newId: Registry.LedgerId)
    requires Registry.Inv(st.reg) && Enabled(st, Server(Registry.Lookup(s, KEY, newId))) && Ours(st, s)
    requires st.reg.conns[s].session == None && st.reg.conns[s].registered && s !in st.heard
    requires CurrentOk(st) && LinkOk(st.link, st.reg, st.serverEpoch, st.up.Keys)
    requires CountOk(st.joined, st.written, st.ledger, st.serverEpoch, Counted(st.reg))
    ensures CurrentOk(Next(st, Server(Registry.Lookup(s, KEY, newId))))
  {
    hide Registry.LedgerOk, OneReply;
    NothingRefersTo(st.reg, newId);
    if st.link.Online? && Ours(st, st.link.sock) && st.reg.conns[st.link.sock].session.Some? {
      assert Refers(st.reg.conns[st.link.sock], st.reg.conns[st.link.sock].session.value);
      assert Registry.ConnOk(st.reg, st.link.sock);
    }
  }

  lemma InvLookup(st: State, s: Sock, newId: Registry.LedgerId)
    requires Inv(st) && Enabled(st, Server(Registry.Lookup(s, KEY, newId))) && Ours(st, s)
    ensures Inv(Next(st, Server(Registry.Lookup(s, KEY, newId))))
  {
    hide ClientOk, PtyOk, KeysOk, SocksOk, UnjoinedOk, OwnerOk, CurrentOk, Registry.Inv, LinkOk;
    var e := Registry.Lookup(s, KEY, newId);
    Registry.InvStep(st.reg, e);
    LookupKeepsSockets(st.up, st.heard, st.joined, st.reg, s, newId);
    LookupKeepsLedger(st.up, st.heard, st.reg, s, newId);
    LookupKeepsCurrent(st, s, newId);
    LookupKeepsLink(st.link, st.reg, st.serverEpoch, st.up.Keys, s, newId);
    assert KEY !in st.reg.sessions ==> !st.joined;
    hide Registry.Next, Counted;
    assert Next(st, Server(e)) == st.(reg := Registry.Next(st.reg, e));
  }

  lemma LookupKeepsLink(link: Link, reg: Registry.State, serverEpoch: nat, ups: set<Sock>, s: Sock, newId: Registry.LedgerId)
    requires LinkOk(link, reg, serverEpoch, ups) && Registry.Enabled(reg, Registry.Lookup(s, KEY, newId))
    ensures LinkOk(link, Registry.Next(reg, Registry.Lookup(s, KEY, newId)), serverEpoch, ups)
  {}

  /** The resumeAck leaves the server. */
  lemma InvReply(st: State, s: Sock)
    requires Inv(st) && Enabled(st, Server(Registry.Reply(s))) && Ours(st, s) && !st.reg.conns[s].fenced
    ensures Inv(Next(st, Server(Registry.Reply(s))))
  {
    hide ClientOk, PtyOk, KeysOk, SocksOk, UnjoinedOk, OwnerOk, CurrentOk, CountOk, Registry.LedgerOk, LinkOk;
    var e := Registry.Reply(s);
    assert Registry.ConnOk(st.reg, s);
    Registry.InvStep(st.reg, e);
    ReplyKeepsSockets(st, s);
    ReplyKeepsOwner(st, s);
    ReplyKeepsCurrent(st, s);
  }

  lemma ReplyKeepsSockets(st: State, s: Sock)
    requires Enabled(st, Server(Registry.Reply(s))) && Ours(st, s) && !st.reg.conns[s].fenced
    requires KeysOk(st.up.Keys, st.reg) && SocksOk(st.up, st.heard, st.reg) && UnjoinedOk(st.joined, st.heard, st.reg)
    requires Registry.ConnOk(st.reg, s) && LinkOk(st.link, st.reg, st.serverEpoch, st.up.Keys)
    ensures var st' := Next(st, Server(Registry.Reply(s)));
            && KeysOk(st'.up.Keys, st'.reg) && SocksOk(st'.up, st'.heard, st'.reg) && UnjoinedOk(st'.joined, st'.heard, st'.reg)
            && LinkOk(st'.link, st'.reg, st'.serverEpoch, st'.up.Keys) && st'.up.Keys == st.up.Keys
    ensures s !in st.heard
  {
    assert SockOk(st.up[s], s in st.heard, st.reg.conns[s], st.reg.sessions);
  }

  lemma ReplyKeepsOwner(st: State, s: Sock)
    requires Enabled(st, Server(Registry.Reply(s))) && Ours(st, s) && !st.reg.conns[s].fenced && s !in st.heard
    requires OwnerOk(st.history, st.base + st.written, st.link, st.up, st.heard, Writer(st.reg))
    ensures var st' := Next(st, Server(Registry.Reply(s)));
            && OwnerOk(st'.history, st'.base + st'.written, st'.link, st'.up, st'.heard, Writer(st'.reg))
            && Counted(st'.reg) == Counted(st.reg)
  {}

  lemma ReplyKeepsCurrent(st: State, s: Sock)
    requires Enabled(st, Server(Registry.Reply(s))) && Ours(st, s) && !st.reg.conns[s].fenced && s !in st.heard
    requires LinkOk(st.link, st.reg, st.serverEpoch, st.up.Keys) && SocksOk(st.up, st.heard, st.reg)
    requires CurrentOk(st)
    ensures CurrentOk(Next(st, Server(Registry.Reply(s))))
  {
    hide AcksOk;
    var st' := Next(st, Server(Registry.Reply(s)));
    if st.link.Online? && st.link.sock == s {
      assert SockOk(st.up[s], s in st.heard, st.reg.conns[s], st.reg.sessions);
      assert !HasReply(st.down[s]);
      assert st'.up[s] == [];
    }
  }

  // ---- forgetting a ledger ----

  lemma InvReclaim(st: State)
    requires Inv(st) && Enabled(st, Server(Registry.Reclaim(KEY))) && Guarded(st, Server(Registry.Reclaim(KEY)))
    ensures Inv(Next(st, Server(Registry.Reclaim(KEY))))
  {
    hide ClientOk, PtyOk, KeysOk, SocksOk, UnjoinedOk, OwnerOk, CurrentOk, Registry.Inv;
    var e := Registry.Reclaim(KEY);
    Registry.InvStep(st.reg, e);
    ReclaimKeepsSockets(st.up, st.heard, st.joined, st.reg);
    ReclaimKeepsCurrent(st);
    UnheardWriter(st.history, st.base + st.written, st.link, st.up, st.heard, Writer(Registry.Next(st.reg, e)));
  }

  lemma ReclaimKeepsSockets(up: map<Sock, seq<Up>>, heard: set<Sock>, joined: bool, reg: Registry.State)
    requires KeysOk(up.Keys, reg) && SocksOk(up, heard, reg) && KEY in reg.sessions && Unattached(reg, reg.sessions[KEY])
    ensures var reg' := Registry.Next(reg, Registry.Reclaim(KEY));
            KeysOk(up.Keys, reg') && SocksOk(up, heard, reg') && UnjoinedOk(false, heard, reg')
  {}

  lemma ReclaimKeepsCurrent(st: State)
    requires CurrentOk(st) && Enabled(st, Server(Registry.Reclaim(KEY)))
    ensures CurrentOk(Next(st, Server(Registry.Reclaim(KEY))))
  {
    hide HasReply, OneReply, AcksOk;
  }

  // ---- writing ----

  lemma PtyAppends(base: nat, written: nat, pty: seq<nat>, n: nat)
    requires PtyOk(base, written, pty)
    ensures PtyOk(base, written + n, pty + Range(base + written, n))
  {}

  lemma WriteKeepsClient(history: seq<Byte>, base: nat, v: Ledger, written: nat, serverEpoch: nat, n: nat)
    requires ClientOk(history, base, v, written, serverEpoch) && v.epoch.Some? && !v.seeded
    requires base + written + n <= |history|
    ensures ClientOk(history, base, v, written + n, serverEpoch)
  {}

  /** The facts about the socket whose frame is written: it is the writer, and the frame is next. */
  lemma WritingStep(st: State, s: Sock, data: seq<Byte>)
    requires Inv(st) && Enabled(st, Server(Registry.Apply(s, data))) && Ours(st, s)
    requires !WritesNothing(st.reg, Registry.Apply(s, data))
    ensures s in st.heard && Writer(st.reg) == Some(s) && st.joined && st.reg.conns[s].session.Some?
    ensures Registry.Enabled(st.reg, Registry.Apply(s, data)) && st.up[s] != []
    ensures KEY in st.reg.sessions && st.reg.conns[s].session == Some(st.reg.sessions[KEY])
    ensures st.up[s][0] == InputMsg(st.base + st.written, data) && st.base + st.written + |data| <= |st.history|
    ensures Chain(st.up[s], st.base + st.written, st.history)
    ensures st.history[st.base + st.written..][..|data|] == data
  {
    hide ClientOk, PtyOk, KeysOk, CurrentOk, CountOk, LinkOk, Registry.ConnOk;
    assert SockOk(st.up[s], s in st.heard, st.reg.conns[s], st.reg.sessions);
    assert st.up[s][0] in st.up[s];
  }

  lemma WriteChanges(st: State, s: Sock, data: seq<Byte>)
    requires Enabled(st, Server(Registry.Apply(s, data))) && Ours(st, s)
    requires !WritesNothing(st.reg, Registry.Apply(s, data)) && st.reg.conns[s].session.Some?
    requires st.up[s][0] == InputMsg(st.base + st.written, data)
    ensures var reg' := Registry.Next(st.reg, Registry.Apply(s, data));
            Next(st, Server(Registry.Apply(s, data))) ==
            st.(reg := reg', up := st.up[s := st.up[s][1..]], written := st.written + |data|,
                pty := st.pty + Range(st.base + st.written, |data|), out := st.out + data)
  {}

  /** Only the count of the ledger under our key changes. */
  ghost predicate Counts(reg: Registry.State, reg': Registry.State, n: nat) {
    && reg'.conns == reg.conns && reg'.sessions == reg.sessions && reg'.ledgers.Keys == reg.ledgers.Keys
    && KEY in reg.sessions && reg.sessions[KEY] in reg.ledgers
    && (forall l :: l in reg.ledgers ==>
          && reg'.ledgers[l].key == reg.ledgers[l].key && reg'.ledgers[l].owner == reg.ledgers[l].owner
          && reg'.ledgers[l].received == reg.ledgers[l].received + if l == reg.sessions[KEY] then n else 0)
  }

  lemma ApplyCounts(reg: Registry.State, s: Sock, data: seq<Byte>)
    requires Registry.Enabled(reg, Registry.Apply(s, data)) && !WritesNothing(reg, Registry.Apply(s, data))
    requires KEY in reg.sessions && reg.conns[s].session == Some(reg.sessions[KEY])
    ensures Counts(reg, Registry.Next(reg, Registry.Apply(s, data)), |data|)
  {}

  lemma WriteKeepsCurrent(st: State, reg': Registry.State, s: Sock, n: nat, pty': seq<nat>, out': seq<Byte>)
    requires CurrentOk(st) && Counts(st.reg, reg', n) && st.joined && s in st.up && s in st.heard
    requires Writer(st.reg) == Some(s) && Counted(st.reg) == Some(st.written)
    requires st.ledger.epoch == Some(st.serverEpoch) && !st.ledger.seeded
    requires st.up[s] != []
    ensures CurrentOk(st.(reg := reg', up := st.up[s := st.up[s][1..]], written := st.written + n, pty := pty', out := out'))
  {}

  lemma WriteKeepsSockets(up: map<Sock, seq<Up>>, heard: set<Sock>, joined: bool, reg: Registry.State, reg': Registry.State, s: Sock, n: nat)
    requires KeysOk(up.Keys, reg) && SocksOk(up, heard, reg) && UnjoinedOk(joined, heard, reg)
    requires Counts(reg, reg', n) && s in heard && s in up && up[s] != []
    ensures var up' := up[s := up[s][1..]];
            && up'.Keys == up.Keys && KeysOk(up.Keys, reg') && SocksOk(up', heard, reg') && UnjoinedOk(joined, heard, reg')
    ensures Writer(reg') == Writer(reg)
    ensures Counted(reg).Some? ==> Counted(reg') == Some(Counted(reg).value + n)
  {}

  lemma WriteKeepsOwner(st: State, s: Sock)
    requires OwnerOk(st.history, st.base + st.written, st.link, st.up, st.heard, Some(s)) && s in st.up && s in st.heard
    requires st.up[s] != [] && st.up[s][0].InputMsg?
    ensures OwnerOk(st.history, st.base + (st.written + |st.up[s][0].data|), st.link, st.up[s := st.up[s][1..]], st.heard, Some(s))
  {}

  lemma InvWrite(st: State, s: Sock, data: seq<Byte>)
    requires Inv(st) && Enabled(st, Server(Registry.Apply(s, data))) && Ours(st, s)
    requires !WritesNothing(st.reg, Registry.Apply(s, data))
    ensures Inv(Next(st, Server(Registry.Apply(s, data))))
  {
    hide ClientOk, PtyOk, KeysOk, SocksOk, UnjoinedOk, OwnerOk, CurrentOk, Registry.Next, Registry.Inv, Next, Counted, Writer, Enabled, WritesNothing;
    hide Chain;
    WritingStep(st, s, data);
    var reg' := Registry.Next(st.reg, Registry.Apply(s, data));
    WriteChanges(st, s, data);
    ApplyCounts(st.reg, s, data);
    Registry.InvStep(st.reg, Registry.Apply(s, data));
    PtyAppends(st.base, st.written, st.pty, |data|);
    WriteKeepsClient(st.history, st.base, st.ledger, st.written, st.serverEpoch, |data|);
    WriteKeepsSockets(st.up, st.heard, st.joined, st.reg, reg', s, |data|);
    WriteKeepsOwner(st, s);
    WriteKeepsCurrent(st, reg', s, |data|, st.pty + Range(st.base + st.written, |data|), st.out + data);
  }

  // ---- every run ----

  /** Every step of a guarded run keeps the delivery invariant. */
  lemma InvStep(st: State, e: Label)
    requires Inv(st) && Enabled(st, e) && Guarded(st, e)
    ensures Inv(Next(st, e))
  {
    match e
    case Type(data) => InvType(st, data);
    case Seed(epoch) => InvSeed(st, epoch);
    case Open(s) => InvOpen(st, s);
    case Drop => InvDrop(st);
    case Receive(v4) =>
      if st.down[st.link.sock][0].AckMsg? { InvReceiveAck(st, v4); } else { InvReceiveReply(st, v4); }
    case FlushAck(s, received) => InvFlushAck(st, s, received);
    case Restart(epoch) => InvRestart(st, epoch);
    case Server(r) =>
      if ByOther(st.up.Keys, r) { InvOther(st, r); } else { InvOurs(st, r); }
  }

  lemma InvOurs(st: State, e: Registry.Label)
    requires Inv(st) && Enabled(st, Server(e)) && Guarded(st, Server(e)) && !ByOther(st.up.Keys, e)
    ensures Inv(Next(st, Server(e)))
  {
    hide Next, SocksOk, OwnerOk, CurrentOk, UnjoinedOk, CountOk, LinkOk, ClientOk, PtyOk, Registry.Inv;
    match e
    case Reclaim(key) => InvReclaim(st);
    case Lookup(s, key, newId) => InvLookup(st, s, newId);
    case _ =>
      if WritesNothing(st.reg, e) {
        InvSilent(st, e);
      } else {
        match e
        case Reply(s) => InvReply(st, s);
        case Apply(s, data) => InvWrite(st, s, data);
        case Accept(_) =>
      }
  }
}
