/** The two hypotheses of ExactlyOnce are needed: dropping either lets bytes be written twice. */
module Hypotheses {
  import opened Sequences
  import opened Outbox
  import opened InputProtocol
  import opened InputDelivery
  import opened ExactlyOnce
  import Registry

  /** `labels` lead from `st` to `st'`, guarded or not. */
  ghost predicate Runs(st: State, labels: seq<Label>, st': State)
    decreases |labels|
  {
    if labels == [] then st' == st
    else Enabled(st, labels[0]) && Runs(Next(st, labels[0]), labels[1..], st')
  }

  lemma {:induction false} LeadsThenLeads(st: State, a: seq<Label>, mid: State, b: seq<Label>, st': State)
    requires Leads(st, a, mid) && Leads(mid, b, st')
    ensures Leads(st, a + b, st')
    decreases |a|
  {
    hide Enabled, Next, Guarded;
    if a == [] {
      assert a + b == b;
    } else {
      assert (a + b)[1..] == a[1..] + b;
      LeadsThenLeads(Next(st, a[0]), a[1..], mid, b, st');
    }
  }

  lemma {:induction false} LeadsThenRuns(st: State, a: seq<Label>, mid: State, b: seq<Label>, st': State)
    requires Leads(st, a, mid) && Runs(mid, b, st')
    ensures Runs(st, a + b, st')
    decreases |a|
  {
    hide Enabled, Next, Guarded;
    if a == [] {
      assert a + b == b;
    } else {
      assert (a + b)[1..] == a[1..] + b;
      LeadsThenRuns(Next(st, a[0]), a[1..], mid, b, st');
    }
  }

  lemma Snoc(st: State, labels: seq<Label>, mid: State, e: Label)
    requires Leads(st, labels, mid) && Enabled(mid, e) && Guarded(mid, e)
    ensures Leads(st, labels + [e], Next(mid, e))
  {
    hide Enabled, Next, Guarded;
    assert Leads(Next(mid, e), [e][1..], Next(mid, e));
    LeadsThenLeads(st, labels, mid, [e], Next(mid, e));
  }

  ghost function Above(ks: set<nat>): (n: nat)
    ensures forall k :: k in ks ==> k < n
  {
    if ks == {} then 0
    else
      var k :| k in ks;
      var m := Above(ks - {k});
      assert ks == ks - {k} + {k};
      if k < m then m else k + 1
  }

  // ---- one complete resume, undisturbed ----

  /** Nothing but the sockets and the registry differs between `st0` and `st`. */
  predicate SameData(st0: State, st: State) {
    && st.history == st0.history && st.base == st0.base && st.ledger == st0.ledger && st.written == st0.written
    && st.pty == st0.pty && st.out == st0.out && st.serverEpoch == st0.serverEpoch && st.heard == st0.heard
  }

  /** `s` is the client's socket, in phase `p` of resuming ledger `l`. */
  predicate Resuming(st0: State, st: State, s: Sock, l: Registry.LedgerId, received: nat, p: Registry.Phase) {
    && SameData(st0, st) && st.link == Online(s, false, st0.serverEpoch) && Ours(st, s)
    && st.reg.conns[s] == Registry.Conn(Some(l), false, true, p)
    && KEY in st.reg.sessions && st.reg.sessions[KEY] == l
    && l in st.reg.ledgers && st.reg.ledgers[l].received == received
    && st.reg.ledgers[l].holder == (if p.Checked? then Some(s) else None)
  }

  predicate Asked(st0: State, st: State, s: Sock) {
    s in st.up && st.up[s] == [ResumeMsg(st0.ledger.sent)] && s in st.down && st.down[s] == []
  }

  predicate FreshSock(st: State, s: Sock) { s !in st.reg.conns && s !in st.up && s !in st.down }

  lemma NewSock(st: State) returns (s: Sock)
    ensures FreshSock(st, s)
  {
    s := Above(st.reg.conns.Keys + st.up.Keys + st.down.Keys);
  }

  /** The ledger a resume with our key would reach, if one exists, is not being taken right now. */
  predicate Available(st: State) { KEY in st.reg.sessions ==> Registry.Free(st.reg, st.reg.sessions[KEY]) }

  lemma OpenAndLookUp(st: State, s: Sock, newId: Registry.LedgerId)
    requires st.link.Offline? && FreshSock(st, s) && Available(st) && newId !in st.reg.ledgers
    ensures var e1, e2 := Open(s), Server(Registry.Lookup(s, KEY, newId));
            var created := KEY !in st.reg.sessions;
            var l := if created then newId else st.reg.sessions[KEY];
            && Enabled(st, e1) && Enabled(Next(st, e1), e2)
            && Resuming(st, Next(Next(st, e1), e2), s, l, if created then 0 else st.reg.ledgers[l].received,
                        Registry.Swapped(None, l, created))
            && Asked(st, Next(Next(st, e1), e2), s)
  {}

  lemma Resume2(st0: State, st: State, s: Sock, l: Registry.LedgerId, received: nat, created: bool)
    requires Resuming(st0, st, s, l, received, Registry.Swapped(None, l, created)) && Asked(st0, st, s)
    ensures var e := Server(Registry.LeaveOld(s));
            Enabled(st, e) && Resuming(st0, Next(st, e), s, l, received, Registry.Left(l, created)) && Asked(st0, Next(st, e), s)
  {}

  lemma Resume3(st0: State, st: State, s: Sock, l: Registry.LedgerId, received: nat, created: bool)
    requires Resuming(st0, st, s, l, received, Registry.Left(l, created)) && Asked(st0, st, s)
    ensures var e := Server(Registry.ReadFence(s));
            Enabled(st, e) && Resuming(st0, Next(st, e), s, l, received, Registry.Checked(l, created)) && Asked(st0, Next(st, e), s)
  {}

  lemma Resume4(st0: State, st: State, s: Sock, l: Registry.LedgerId, received: nat, created: bool)
    requires Resuming(st0, st, s, l, received, Registry.Checked(l, created)) && Asked(st0, st, s)
    ensures var e := Server(Registry.Take(s));
            && Enabled(st, e) && Resuming(st0, Next(st, e), s, l, received, Registry.Replying(received, created))
            && Asked(st0, Next(st, e), s) && Next(st, e).reg.ledgers[l].owner == Some(s)
  {}

  /** The reply of a completed resume is the only thing in flight. */
  predicate Replied(st0: State, st: State, s: Sock, l: Registry.LedgerId, received: nat, created: bool) {
    && Resuming(st0, st, s, l, received, Registry.Reading) && st.reg.ledgers[l].owner == Some(s) && st.up[s] == []
    && st.down[s] == [ReplyMsg(ResumeAck(received, Some(st0.serverEpoch), created && st0.ledger.sent > 0))]
  }

  lemma Resume5(st0: State, st: State, s: Sock, l: Registry.LedgerId, received: nat, created: bool)
    requires Resuming(st0, st, s, l, received, Registry.Replying(received, created)) && Asked(st0, st, s)
    requires st.reg.ledgers[l].owner == Some(s)
    ensures var e := Server(Registry.Reply(s));
            Enabled(st, e) && Replied(st0, Next(st, e), s, l, received, created)
  {}

  lemma ResumeRun(st: State, s: Sock, newId: Registry.LedgerId)
    returns (labels: seq<Label>, st': State, l: Registry.LedgerId)
    requires st.link.Offline? && FreshSock(st, s) && Available(st) && newId !in st.reg.ledgers
    ensures Leads(st, labels, st')
    ensures var created := KEY !in st.reg.sessions;
            l == (if created then newId else st.reg.sessions[KEY])
            && Replied(st, st', s, l, if created then 0 else st.reg.ledgers[l].received, created)
  {
    var created := KEY !in st.reg.sessions;
    l := if created then newId else st.reg.sessions[KEY];
    var received := if created then 0 else st.reg.ledgers[l].received;
    OpenAndLookUp(st, s, newId);
    hide Enabled, Next, Resuming, Asked;
    labels, st' := [], st;
    Snoc(st, labels, st', Open(s));
    labels, st' := labels + [Open(s)], Next(st', Open(s));
    var e := Server(Registry.Lookup(s, KEY, newId));
    Snoc(st, labels, st', e);
    labels, st' := labels + [e], Next(st', e);
    Resume2(st, st', s, l, received, created);
    e := Server(Registry.LeaveOld(s));
    Snoc(st, labels, st', e);
    labels, st' := labels + [e], Next(st', e);
    Resume3(st, st', s, l, received, created);
    e := Server(Registry.ReadFence(s));
    Snoc(st, labels, st', e);
    labels, st' := labels + [e], Next(st', e);
    Resume4(st, st', s, l, received, created);
    e := Server(Registry.Take(s));
    Snoc(st, labels, st', e);
    labels, st' := labels + [e], Next(st', e);
    Resume5(st, st', s, l, received, created);
    e := Server(Registry.Reply(s));
    Snoc(st, labels, st', e);
    labels, st' := labels + [e], Next(st', e);
  }

  // ---- forgetting a ledger too early ----

  /** Some guarded continuation from `st` writes a byte a second time. */
  ghost predicate CanRepeat(st: State) {
    exists labels, st' :: Leads(st, labels, st') && !Increasing(st'.pty)
  }

  /** The retransmission a client sends when the reply says nothing was counted and it never saw an ack. */
  lemma RetransmitsAll(st0: State, st: State, s: Sock, l: Registry.LedgerId)
    requires Replied(st0, st, s, l, 0, false)
    requires ClientOk(st0.history, st0.base, st0.ledger, st0.written, st0.serverEpoch)
    requires st0.written > 0 && st0.ledger.acked == 0 && st0.ledger.epoch == Some(st0.serverEpoch)
    ensures Enabled(st, Receive(false)) && Guarded(st, Receive(false))
    ensures var st' := Next(st, Receive(false));
            && st'.reg == st.reg && st'.pty == st.pty && s in st'.up && s in st'.down && st'.up[s] != []
            && st'.up[s][0].InputMsg? && st'.up[s][0].at == st0.base && st'.up[s][0].data != []
  {
    hide Valid;
    var v := st0.ledger;
    assert !EpochChanged(v, ResumeAck(0, Some(st0.serverEpoch), false));
    var frames := FramesOf(false, v.outbox);
    FramesCarryTheOutbox(false, v.outbox);
    assert |Flatten(frames)| > 0;
    assert frames[0] in frames;
  }

  lemma FirstFrameRepeats(st: State, s: Sock, l: Registry.LedgerId, base: nat, written: nat)
    requires Ours(st, s) && st.reg.conns[s] == Registry.Conn(Some(l), false, true, Registry.Reading)
    requires l in st.reg.ledgers && st.reg.ledgers[l].owner == Some(s) && st.reg.ledgers[l].holder == None
    requires st.up[s] != [] && st.up[s][0].InputMsg? && st.up[s][0].at == base && st.up[s][0].data != []
    requires PtyOk(base, written, st.pty) && written > 0
    ensures var e := Server(Registry.Apply(s, st.up[s][0].data));
            Enabled(st, e) && Guarded(st, e) && !Increasing(Next(st, e).pty)
  {
    var data := st.up[s][0].data;
    var e := Server(Registry.Apply(s, data));
    var pty' := st.pty + Range(base, |data|);
    assert Next(st, e).pty == pty';
    var n := |st.pty| - written;
    assert st.pty[n..][written - 1] == base + written - 1 == pty'[|st.pty| - 1];
    assert pty'[|st.pty|] == base;
  }

  /** Drop whatever socket the client has. */
  lemma GoOffline(st: State) returns (labels: seq<Label>, st': State)
    ensures Leads(st, labels, st') && st'.link.Offline? && st' == st.(link := st'.link)
  {
    if st.link.Online? {
      labels, st' := [Drop], Next(st, Drop);
      assert Leads(st', [Drop][1..], st');
    } else {
      labels, st' := [], st;
    }
  }

  /** A ledger that counted input no ack for which ever reached the client is forgotten: the client
      resumes onto a fresh ledger but misses the reply that says so, resumes once more, is told that
      nothing was counted and nothing was lost, and sends again what the old ledger had written. */
  lemma ForgettingUnseenCountRepeats(st: State)
    requires ClientOk(st.history, st.base, st.ledger, st.written, st.serverEpoch) && PtyOk(st.base, st.written, st.pty)
    requires st.written > 0 && st.ledger.acked == 0 && st.ledger.epoch == Some(st.serverEpoch)
    requires KEY !in st.reg.sessions
    ensures CanRepeat(st)
  {
    hide ClientOk, PtyOk, Enabled, Next, Guarded, Leads, Increasing, Resuming;
    var labels, mid := GoOffline(st);
    var s := NewSock(mid);
    var labels1, st1, l := ResumeRun(mid, s, Above(mid.reg.ledgers.Keys));
    LeadsThenLeads(st, labels, mid, labels1, st1);
    SecondResume(st, labels + labels1, mid, st1, s, l);
  }

  lemma SecondResume(st: State, labels: seq<Label>, mid: State, st1: State, s: Sock, l: Registry.LedgerId)
    requires Leads(st, labels, st1) && Replied(mid, st1, s, l, 0, true) && SameData(st, mid)
    requires ClientOk(st.history, st.base, st.ledger, st.written, st.serverEpoch) && PtyOk(st.base, st.written, st.pty)
    requires st.written > 0 && st.ledger.acked == 0 && st.ledger.epoch == Some(st.serverEpoch)
    ensures CanRepeat(st)
  {
    hide ClientOk, PtyOk, Enabled, Next, Guarded, Leads, Increasing;
    var labels2, mid2 := GoOffline(st1);
    LeadsThenLeads(st, labels, st1, labels2, mid2);
    var s2 := NewSock(mid2);
    var labels3, st3, l3 := ResumeRun(mid2, s2, Above(st1.reg.ledgers.Keys));
    LeadsThenLeads(st, labels + labels2, mid2, labels3, st3);
    var run := labels + labels2 + labels3;
    RetransmitsAll(mid2, st3, s2, l);
    Snoc(st, run, st3, Receive(false));
    var st4 := Next(st3, Receive(false));
    FirstFrameRepeats(st4, s2, l, st.base, st.written);
    Snoc(st, run + [Receive(false)], st4, Server(Registry.Apply(s2, st4.up[s2][0].data)));
  }

  lemma {:induction false} GuardedNeverRepeats(st: State, labels: seq<Label>, st': State)
    requires Inv(st) && Leads(st, labels, st')
    ensures Increasing(st'.pty)
    decreases |labels|
  {
    if labels == [] {
      hide ClientOk, KeysOk, SocksOk, LinkOk, CountOk, UnjoinedOk, OwnerOk, CurrentOk, PtyOk;
      PtyIncreases(st.base, st.written, st.pty);
    } else {
      hide Inv, Enabled, Guarded, Next;
      InvStep(st, labels[0]);
      GuardedNeverRepeats(Next(st, labels[0]), labels[1..], st');
    }
  }

  /** When the server may forget an unattached ledger: exactly when the ledger counted nothing or the
      client has seen an ack. Otherwise some later run, itself guarded, writes a byte twice. */
  lemma ForgettingIsSafeIff(st: State)
    requires Inv(st) && Enabled(st, Server(Registry.Reclaim(KEY)))
    requires Unattached(st.reg, st.reg.sessions[KEY])
    ensures SafeToForget(st) <==> !CanRepeat(Next(st, Server(Registry.Reclaim(KEY))))
  {
    var e := Server(Registry.Reclaim(KEY));
    var st' := Next(st, e);
    if SafeToForget(st) {
      InvStep(st, e);
      forall labels, last | Leads(st', labels, last) ensures Increasing(last.pty) {
        GuardedNeverRepeats(st', labels, last);
      }
    } else {
      hide Leads;
      CountedButUnseen(st);
      ForgettingUnseenCountRepeats(st');
    }
  }

  lemma CountedButUnseen(st: State)
    requires Inv(st) && !SafeToForget(st)
    ensures st.written > 0 && st.ledger.acked == 0 && st.ledger.epoch == Some(st.serverEpoch)
    ensures ClientOk(st.history, st.base, st.ledger, st.written, st.serverEpoch) && PtyOk(st.base, st.written, st.pty)
  {}

  // ---- draining a socket ----

  /** The bytes of the input frames of `q`, in order. */
  function Datas(q: seq<Up>): seq<Byte>
    decreases |q|
  {
    if q == [] then [] else (if q[0].InputMsg? then q[0].data else []) + Datas(q[1..])
  }

  lemma {:induction false} DatasConcat(a: seq<Up>, b: seq<Up>)
    ensures Datas(a + b) == Datas(a) + Datas(b)
    decreases |a|
  {
    if a == [] {
      assert a + b == b;
    } else {
      assert (a + b)[1..] == a[1..] + b;
      DatasConcat(a[1..], b);
    }
  }

  lemma {:induction false} DatasOfFrames(at: nat, frames: seq<seq<Byte>>)
    ensures Datas(InputMsgs(at, frames)) == Flatten(frames)
    decreases |frames|
  {
    if frames != [] {
      assert InputMsgs(at, frames)[1..] == InputMsgs(at + |frames[0]|, frames[1..]);
      DatasOfFrames(at + |frames[0]|, frames[1..]);
    }
  }

  predicate AllInput(q: seq<Up>) { forall m :: m in q ==> m.InputMsg? }

  /** `s` owns ledger `l` and is reading. */
  predicate Writing(st: State, s: Sock, l: Registry.LedgerId) {
    && Ours(st, s) && st.reg.conns[s] == Registry.Conn(Some(l), false, true, Registry.Reading)
    && l in st.reg.ledgers && st.reg.ledgers[l].owner == Some(s) && st.reg.ledgers[l].holder == None
    && KEY in st.reg.sessions && st.reg.sessions[KEY] == l
  }

  /** What the client knows is the same. */
  predicate SameClient(st: State, st': State) {
    && st'.history == st.history && st'.base == st.base && st'.ledger == st.ledger && st'.link == st.link
    && st'.heard == st.heard
  }

  lemma WritesHead(st: State, s: Sock, l: Registry.LedgerId)
    requires Writing(st, s, l) && st.up[s] != [] && st.up[s][0].InputMsg?
    ensures var e := Server(Registry.Apply(s, st.up[s][0].data));
            && Enabled(st, e) && Guarded(st, e) && Writing(Next(st, e), s, l) && SameClient(st, Next(st, e))
            && Next(st, e).up[s] == st.up[s][1..] && Next(st, e).out == st.out + st.up[s][0].data
  {}

  /** Left alone, the server writes everything the owning socket has in flight. */
  lemma {:induction false} DrainQueue(st: State, s: Sock, l: Registry.LedgerId) returns (labels: seq<Label>, st': State)
    requires Writing(st, s, l) && AllInput(st.up[s])
    ensures Leads(st, labels, st') && Writing(st', s, l) && SameClient(st, st')
    ensures st'.up[s] == [] && st'.out == st.out + Datas(st.up[s])
    decreases |st.up[s]|
  {
    hide Enabled, Next, Guarded;
    if st.up[s] == [] {
      labels, st' := [], st;
    } else {
      WritesHead(st, s, l);
      var e := Server(Registry.Apply(s, st.up[s][0].data));
      var rest;
      rest, st' := DrainQueue(Next(st, e), s, l);
      labels := [e] + rest;
      assert labels[1..] == rest;
    }
  }

  // ---- input before the resumeAck ----

  /** The chunk as it stands in the outbox is retransmitted whole. */
  lemma ReplyToEarly(data: seq<Byte>, m: ResumeAck)
    requires data != [] && |data| <= MAX_OUTBOX_BYTES && m.received == 0 && m.epoch.Some? && !m.ledgerLost
    ensures SendBinary(NewLedger, data) == (Ledger(|data|, 0, [data], |data|, None, false), true)
    ensures var v := Ledger(|data|, 0, [data], |data|, None, false);
      && !EpochChanged(v, m) && OnResumeAck(v, m).retransmit && OnResumeAck(v, m).ledger.outbox == [data]
      && OnResumeAck(v, m).ledger.acked == 0
    ensures FramesOf(false, [data]) == Framing.InputFrames(false, data)
  {
    hide Framing.InputFrames;
    assert [] + [data] == [data];
    var frames := Framing.InputFrames(false, data);
    assert FramesOf(false, [data]) == frames + FramesOf(false, []) && frames + [] == frames;
  }

  lemma InFlightTwice(st: State, s: Sock, l: Registry.LedgerId, data: seq<Byte>)
    requires Replied(Init, st, s, l, 0, true) && data != [] && |data| <= MAX_OUTBOX_BYTES
    ensures Enabled(st, Type(data)) && !Guarded(st, Type(data)) && Enabled(Next(st, Type(data)), Receive(false))
    ensures var st' := Next(Next(st, Type(data)), Receive(false));
            var q := InputMsgs(0, Framing.InputFrames(false, data));
            && Writing(st', s, l) && st'.out == [] && st'.history == data && st'.up[s] == q + q
  {
    hide Framing.InputFrames, FramesOf, OnResumeAck, SendBinary, InputMsgs;
    ReplyToEarly(data, st.down[s][0].ack);
    var st1 := Next(st, Type(data));
    assert st1.up[s] == InputMsgs(0, Framing.InputFrames(false, data));
  }

  /** Without the first hypothesis the same input reaches the program twice: any chunk the page sends
      on its first socket, between the socket's open and its resumeAck. */
  lemma EarlyInputIsWrittenTwice(data: seq<Byte>) returns (labels: seq<Label>, st': State)
    requires data != [] && |data| <= MAX_OUTBOX_BYTES
    ensures Runs(Init, labels, st') && st'.history == data && st'.out == data + data
  {
    hide Enabled, Next, Guarded, Leads, Increasing, Resuming;
    var labels1, st1, l := ResumeRun(Init, 0, 0);
    InFlightTwice(st1, 0, l, data);
    var st2 := Next(st1, Type(data));
    var st3 := Next(st2, Receive(false));
    var frames := Framing.InputFrames(false, data);
    Framing.InputFramesCarryTheChunk(false, data);
    InputMsgsAreInputs(0, frames);
    DatasOfFrames(0, frames);
    DatasConcat(InputMsgs(0, frames), InputMsgs(0, frames));
    var writes;
    writes, st' := DrainQueue(st3, 0, l);
    LeadsRuns(st3, writes, st');
    var rest := [Type(data), Receive(false)] + writes;
    assert rest[1..][1..] == writes;
    assert Runs(st2, rest[1..], st');
    LeadsThenRuns(Init, labels1, st1, rest, st');
    labels := labels1 + rest;
  }

  lemma LeadsRuns(st: State, labels: seq<Label>, st': State)
    requires Leads(st, labels, st')
    ensures Runs(st, labels, st')
    decreases |labels|
  {
    hide Enabled, Next, Guarded;
    assert [] + labels == labels;
    if labels != [] { LeadsRuns(Next(st, labels[0]), labels[1..], st'); }
  }
}
