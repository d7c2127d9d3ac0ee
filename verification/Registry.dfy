/** The server's table of sockets and input ledgers, as a transition system whose steps are
    the critical sections of the registry mutex and of each ledger's own mutex.

    A ledger counts the input bytes one sender has had written to the PTY. Exactly one socket
    may write through it at a time, its owner. A resume moves ownership in four separate
    sections (look up, leave the old ledger, read the fence, take the new ledger), and any
    other socket may run between two of them. */
module Registry {
  import opened Sequences

  type Sock = nat
  type LedgerId = nat
  type Key = string

  /** Where a socket's read loop stands. */
  datatype Phase =
    | Reading                                                          // about to read a message
    | Swapped(prev: Option<LedgerId>, next: LedgerId, created: bool)   // session pointer moved
    | Left(next: LedgerId, created: bool)                              // old ledger given up
    | Checked(next: LedgerId, created: bool)                           // holds next's mutex, not fenced
    | Replying(ack: nat, created: bool)                                // ledger taken, reply not written
    | Ending                                                           // read loop over
    | Leaving                                                          // unregistered, ownership not yet released
    | Gone

  datatype Conn = Conn(session: Option<LedgerId>, fenced: bool, registered: bool, phase: Phase)

  datatype Write = Write(sock: Sock, byte: Byte)

  /** `log` is what was written to the PTY through the ledger, `received` its count, and
      `taken` the count at the last change of owner. */
  datatype Ledger = Ledger(key: Key, owner: Option<Sock>, holder: Option<Sock>, received: nat,
                           log: seq<Write>, taken: nat)

  datatype State = State(conns: map<Sock, Conn>, sessions: map<Key, LedgerId>, ledgers: map<LedgerId, Ledger>)

  const Empty := State(map[], map[], map[])

  datatype Label =
    | Accept(s: Sock)
    | Lookup(s: Sock, key: Key, newId: LedgerId)
    | LeaveOld(s: Sock)
    | ReadFence(s: Sock)
    | Take(s: Sock)
    | Reply(s: Sock)
    | Apply(s: Sock, data: seq<Byte>)
    | Stop(s: Sock)
    | Unregister(s: Sock)
    | Release(s: Sock)
    | Reclaim(key: Key)

  predicate Free(st: State, l: LedgerId) {
    l in st.ledgers && st.ledgers[l].holder == None
  }

  predicate At(st: State, s: Sock) { s in st.conns }

  predicate Enabled(st: State, e: Label) {
    match e
    case Accept(s) => s !in st.conns
    case Lookup(s, key, newId) => At(st, s) && st.conns[s].phase == Reading && newId !in st.ledgers
    case LeaveOld(s) =>
      && At(st, s) && st.conns[s].phase.Swapped?
      && var p := st.conns[s].phase; (p.prev.Some? && p.prev.value != p.next ==> Free(st, p.prev.value))
    case ReadFence(s) => At(st, s) && st.conns[s].phase.Left? && Free(st, st.conns[s].phase.next)
    case Take(s) => At(st, s) && st.conns[s].phase.Checked? && st.conns[s].phase.next in st.ledgers
    case Reply(s) => At(st, s) && st.conns[s].phase.Replying?
    case Apply(s, data) =>
      && At(st, s) && st.conns[s].phase == Reading
      && (st.conns[s].session.Some? ==> Free(st, st.conns[s].session.value))
    case Stop(s) => At(st, s) && st.conns[s].phase == Reading
    case Unregister(s) => At(st, s) && st.conns[s].phase == Ending
    case Release(s) =>
      && At(st, s) && st.conns[s].phase == Leaving
      && (st.conns[s].session.Some? ==> Free(st, st.conns[s].session.value))
    case Reclaim(key) => key in st.sessions
  }

  function SetConn(st: State, s: Sock, c: Conn): State { st.(conns := st.conns[s := c]) }

  function SetPhase(st: State, s: Sock, p: Phase): State
    requires s in st.conns
  {
    SetConn(st, s, st.conns[s].(phase := p))
  }

  /** Clears the owner of `l` when it is `s`; another socket's ownership stays. */
  function ReleaseOwner(st: State, s: Sock, l: LedgerId): State
    requires l in st.ledgers
  {
    if st.ledgers[l].owner == Some(s)
    then st.(ledgers := st.ledgers[l := st.ledgers[l].(owner := None)])
    else st
  }

  function FenceConn(st: State, s: Sock): State {
    if s in st.conns then SetConn(st, s, st.conns[s].(fenced := true)) else st
  }

  /** The registry-mutex part of a resume: find or create the ledger, swap the session pointer. */
  function LookupSession(st: State, s: Sock, key: Key, newId: LedgerId): State
    requires s in st.conns
  {
    var created := key !in st.sessions;
    var l := if created then newId else st.sessions[key];
    var st1 := if created
               then st.(sessions := st.sessions[key := newId],
                        ledgers := st.ledgers[newId := Ledger(key, None, None, 0, [], 0)])
               else st;
    SetConn(st1, s, st.conns[s].(session := Some(l), phase := Swapped(st.conns[s].session, l, created)))
  }

  /** The ledger-mutex part of a resume that changes the owner, after the fence was read as clear. */
  function TakeLedger(st: State, s: Sock): State
    requires s in st.conns && st.conns[s].phase.Checked? && st.conns[s].phase.next in st.ledgers
  {
    var p := st.conns[s].phase;
    var led := st.ledgers[p.next];
    var st1 := if led.owner.Some? && led.owner != Some(s) then FenceConn(st, led.owner.value) else st;
    var st2 := st1.(ledgers := st1.ledgers[p.next := led.(owner := Some(s), holder := None, taken := led.received)]);
    SetConn(st2, s, st2.conns[s].(phase := Replying(led.received, p.created)))
  }

  function Stamp(s: Sock, data: seq<Byte>): seq<Write> { seq(|data|, i requires 0 <= i < |data| => Write(s, data[i])) }

  /** One input message: written and counted as one step when `s` owns its ledger, refused when
      another socket does. A socket without a ledger writes uncounted. */
  function ApplyInput(st: State, s: Sock, data: seq<Byte>): State
    requires s in st.conns && (st.conns[s].session.Some? ==> st.conns[s].session.value in st.ledgers)
  {
    if st.conns[s].session == None then st
    else
      var l := st.conns[s].session.value;
      var led := st.ledgers[l];
      if led.owner != Some(s) then SetPhase(st, s, Ending)
      else st.(ledgers := st.ledgers[l := led.(received := led.received + |data|, log := led.log + Stamp(s, data))])
  }

  function Next(st: State, e: Label): State
    requires Enabled(st, e)
  {
    match e
    case Accept(s) => SetConn(st, s, Conn(None, false, true, Reading))
    case Lookup(s, key, newId) => LookupSession(st, s, key, newId)
    case LeaveOld(s) =>
      var p := st.conns[s].phase;
      var st1 := if p.prev.Some? && p.prev.value != p.next then ReleaseOwner(st, s, p.prev.value) else st;
      SetPhase(st1, s, Left(p.next, p.created))
    case ReadFence(s) =>
      var p := st.conns[s].phase;
      if st.conns[s].fenced then SetPhase(st, s, Ending)
      else SetPhase(st.(ledgers := st.ledgers[p.next := st.ledgers[p.next].(holder := Some(s))]), s, Checked(p.next, p.created))
    case Take(s) => TakeLedger(st, s)
    case Reply(s) => SetPhase(st, s, if st.conns[s].fenced then Ending else Reading)
    case Apply(s, data) => ApplyInput(st, s, data)
    case Stop(s) => SetPhase(st, s, Ending)
    case Unregister(s) => SetConn(st, s, st.conns[s].(registered := false, phase := Leaving))
    case Release(s) =>
      var st1 := if st.conns[s].session.Some? then ReleaseOwner(st, s, st.conns[s].session.value) else st;
      SetPhase(st1, s, Gone)
    case Reclaim(key) => st.(sessions := st.sessions - {key})
  }

  /** The one ledger a socket can own in its present phase. */
  function Claim(c: Conn): Option<LedgerId> {
    match c.phase
    case Swapped(prev, _, _) => prev
    case Left(next, _) => Some(next)
    case Checked(next, _) => Some(next)
    case Gone => None
    case _ => c.session
  }

  predicate Owns(st: State, s: Sock, l: LedgerId) {
    l in st.ledgers && st.ledgers[l].owner == Some(s)
  }

  /** The ledger the socket's pointers and phase refer to exist. */
  predicate ConnOk(st: State, s: Sock)
    requires s in st.conns
  {
    var c := st.conns[s];
    && (c.session.Some? ==> c.session.value in st.ledgers)
    && (c.fenced ==> c.session.Some?)
    && (c.phase.Swapped? ==> c.session == Some(c.phase.next) && (c.phase.prev.Some? ==> c.phase.prev.value in st.ledgers))
    && (c.phase.Left? ==> c.session == Some(c.phase.next))
    && (c.phase.Checked? ==> c.session == Some(c.phase.next) && st.ledgers[c.phase.next].holder == Some(s) && !c.fenced)
    && (c.phase.Replying? ==> c.session.Some?)
  }

  predicate LedgerOk(st: State, l: LedgerId)
    requires l in st.ledgers
  {
    var led := st.ledgers[l];
    && led.received == |led.log| && led.taken <= led.received
    && (led.holder.Some? ==> led.holder.value in st.conns && st.conns[led.holder.value].phase.Checked?
                             && st.conns[led.holder.value].phase.next == l)
    && (led.owner.Some? ==> led.owner.value in st.conns && Claim(st.conns[led.owner.value]) == Some(l)
                            && !st.conns[led.owner.value].fenced
                            && (forall i :: led.taken <= i < |led.log| ==> led.log[i].sock == led.owner.value))
  }

  ghost predicate Inv(st: State) {
    && (forall s :: s in st.conns ==> ConnOk(st, s))
    && (forall l :: l in st.ledgers ==> LedgerOk(st, l))
    && (forall k :: k in st.sessions ==> st.sessions[k] in st.ledgers && st.ledgers[st.sessions[k]].key == k)
  }

  lemma InvInit()
    ensures Inv(Empty)
  {}

  /** A step that only changes the phase of one socket between two phases claiming the same ledger. */
  lemma InvPhase(st: State, s: Sock, p: Phase)
    requires Inv(st) && s in st.conns
    requires !st.conns[s].phase.Checked? && !p.Swapped? && !p.Left? && !p.Checked?
    requires Claim(st.conns[s].(phase := p)) == Claim(st.conns[s])
    requires p.Replying? ==> st.conns[s].session.Some?
    ensures Inv(SetPhase(st, s, p))
  {
    var st' := SetPhase(st, s, p);
    forall t | t in st'.conns ensures ConnOk(st', t) { assert ConnOk(st, t); }
    forall l | l in st'.ledgers ensures LedgerOk(st', l) { assert LedgerOk(st, l); }
  }

  lemma InvRelease(st: State, s: Sock, l: LedgerId)
    requires Inv(st) && l in st.ledgers
    ensures Inv(ReleaseOwner(st, s, l))
    ensures !Owns(ReleaseOwner(st, s, l), s, l)
  {
    var st' := ReleaseOwner(st, s, l);
    forall t | t in st'.conns ensures ConnOk(st', t) { assert ConnOk(st, t); }
    forall m | m in st'.ledgers ensures LedgerOk(st', m) { assert LedgerOk(st, m); }
  }

  /** A socket that owns nothing may change phase freely, as long as its pointers stay good. */
  lemma InvFreePhase(st: State, s: Sock, c: Conn)
    requires Inv(st) && s in st.conns && !st.conns[s].phase.Checked?
    requires c.session == st.conns[s].session && c.fenced == st.conns[s].fenced
    requires !c.phase.Swapped? && !c.phase.Checked? && !c.phase.Replying?
    requires c.phase.Left? ==> c.session == Some(c.phase.next)
    requires forall l :: l in st.ledgers && Owns(st, s, l) ==> Claim(c) == Some(l)
    ensures Inv(SetConn(st, s, c))
  {
    var st' := SetConn(st, s, c);
    forall t | t in st'.conns ensures ConnOk(st', t) { assert ConnOk(st, t); }
    forall l | l in st'.ledgers ensures LedgerOk(st', l) { assert LedgerOk(st, l); }
  }

  lemma InvLookup(st: State, s: Sock, key: Key, newId: LedgerId)
    requires Inv(st) && Enabled(st, Lookup(s, key, newId))
    ensures Inv(LookupSession(st, s, key, newId))
  {
    var st' := LookupSession(st, s, key, newId);
    assert ConnOk(st, s);
    forall t | t in st'.conns ensures ConnOk(st', t) { assert ConnOk(st, t); }
    forall l | l in st'.ledgers ensures LedgerOk(st', l) {
      if l in st.ledgers { assert LedgerOk(st, l); }
    }
  }

  lemma InvLeaveOld(st: State, s: Sock)
    requires Inv(st) && Enabled(st, LeaveOld(s))
    ensures Inv(Next(st, LeaveOld(s)))
  {
    var p := st.conns[s].phase;
    assert ConnOk(st, s);
    forall l | l in st.ledgers && Owns(st, s, l) ensures p.prev == Some(l) { assert LedgerOk(st, l); }
    if p.prev.Some? && p.prev.value != p.next {
      InvRelease(st, s, p.prev.value);
      InvFreePhase(ReleaseOwner(st, s, p.prev.value), s, st.conns[s].(phase := Left(p.next, p.created)));
    } else {
      InvFreePhase(st, s, st.conns[s].(phase := Left(p.next, p.created)));
    }
  }

  lemma InvReadFence(st: State, s: Sock)
    requires Inv(st) && Enabled(st, ReadFence(s))
    ensures Inv(Next(st, ReadFence(s)))
  {
    var p := st.conns[s].phase;
    var st' := Next(st, ReadFence(s));
    assert ConnOk(st, s);
    forall t | t in st'.conns ensures ConnOk(st', t) { assert ConnOk(st, t); }
    forall l | l in st'.ledgers ensures LedgerOk(st', l) { assert LedgerOk(st, l); }
  }

  lemma InvTake(st: State, s: Sock)
    requires Inv(st) && Enabled(st, Take(s))
    ensures Inv(Next(st, Take(s)))
  {
    var st' := Next(st, Take(s));
    TakeKeepsConns(st, s);
    TakeKeepsLedgers(st, s);
    hide ConnOk, LedgerOk;
    assert forall k :: k in st'.sessions ==> st'.sessions[k] in st'.ledgers;
  }

  lemma TakeKeepsConns(st: State, s: Sock)
    requires Inv(st) && Enabled(st, Take(s))
    ensures var st' := Next(st, Take(s)); forall t :: t in st'.conns ==> ConnOk(st', t)
  {
    var st' := Next(st, Take(s));
    assert ConnOk(st, s) && LedgerOk(st, st.conns[s].phase.next);
    forall t | t in st'.conns ensures ConnOk(st', t) { assert ConnOk(st, t); }
  }

  lemma TakeKeepsLedgers(st: State, s: Sock)
    requires Inv(st) && Enabled(st, Take(s))
    ensures var st' := Next(st, Take(s)); forall l :: l in st'.ledgers ==> LedgerOk(st', l)
  {
    var st' := Next(st, Take(s));
    assert ConnOk(st, s) && LedgerOk(st, st.conns[s].phase.next);
    forall l | l in st'.ledgers ensures LedgerOk(st', l) { assert LedgerOk(st, l); }
  }

  lemma InvApply(st: State, s: Sock, data: seq<Byte>)
    requires Inv(st) && Enabled(st, Apply(s, data))
    ensures Inv(Next(st, Apply(s, data)))
  {
    assert ConnOk(st, s);
    if st.conns[s].session.Some? {
      var l := st.conns[s].session.value;
      assert LedgerOk(st, l);
      if st.ledgers[l].owner != Some(s) {
        InvPhase(st, s, Ending);
      } else {
        var st' := Next(st, Apply(s, data));
        forall t | t in st'.conns ensures ConnOk(st', t) { assert ConnOk(st, t); }
        forall m | m in st'.ledgers ensures LedgerOk(st', m) { assert LedgerOk(st, m); }
      }
    }
  }

  /** Every critical section keeps the ownership invariant. */
  lemma InvStep(st: State, e: Label)
    requires Inv(st) && Enabled(st, e)
    ensures Inv(Next(st, e))
  {
    match e
    case Accept(s) =>
      var st' := Next(st, e);
      forall t | t in st'.conns ensures ConnOk(st', t) { if t != s { assert ConnOk(st, t); } }
      forall l | l in st'.ledgers ensures LedgerOk(st', l) { assert LedgerOk(st, l); }
    case Lookup(s, key, newId) => InvLookup(st, s, key, newId);
    case LeaveOld(s) => InvLeaveOld(st, s);
    case ReadFence(s) => InvReadFence(st, s);
    case Take(s) => InvTake(st, s);
    case Reply(s) => InvPhase(st, s, if st.conns[s].fenced then Ending else Reading);
    case Apply(s, data) => InvApply(st, s, data);
    case Stop(s) => InvPhase(st, s, Ending);
    case Unregister(s) =>
      var st' := Next(st, e);
      forall t | t in st'.conns ensures ConnOk(st', t) { assert ConnOk(st, t); }
      forall l | l in st'.ledgers ensures LedgerOk(st', l) { assert LedgerOk(st, l); }
    case Release(s) =>
      forall l | l in st.ledgers && Owns(st, s, l) ensures st.conns[s].session == Some(l) { assert LedgerOk(st, l); }
      if st.conns[s].session.Some? {
        assert ConnOk(st, s);
        InvRelease(st, s, st.conns[s].session.value);
        InvFreePhase(ReleaseOwner(st, s, st.conns[s].session.value), s, st.conns[s].(phase := Gone));
      } else {
        InvFreePhase(st, s, st.conns[s].(phase := Gone));
      }
    case Reclaim(key) =>
      var st' := Next(st, e);
      forall t | t in st'.conns ensures ConnOk(st', t) { assert ConnOk(st, t); }
      forall l | l in st'.ledgers ensures LedgerOk(st', l) { assert LedgerOk(st, l); }
  }

  /** The server process dies: no socket survives it and no ledger can be found again. */
  function Crash(st: State): State {
    State(map s | s in st.conns :: st.conns[s].(registered := false, phase := Gone),
          map[],
          map l | l in st.ledgers :: st.ledgers[l].(owner := None, holder := None))
  }

  lemma InvCrash(st: State)
    requires Inv(st)
    ensures Inv(Crash(st))
  {
    forall s | s in st.conns ensures ConnOk(Crash(st), s) { assert ConnOk(st, s); }
    forall l | l in st.ledgers ensures LedgerOk(Crash(st), l) { assert LedgerOk(st, l); }
  }

  // ---- whole runs ----

  /** `states` and `labels` form a run: each label was enabled and led to the next state. */
  ghost predicate Run(states: seq<State>, labels: seq<Label>) {
    && |states| == |labels| + 1
    && states[0] == Empty
    && forall i :: 0 <= i < |labels| ==> Enabled(states[i], labels[i]) && states[i + 1] == Next(states[i], labels[i])
  }

  lemma {:induction false} InvRun(states: seq<State>, labels: seq<Label>, k: nat)
    requires Run(states, labels) && k < |states|
    ensures Inv(states[k])
  {
    if k == 0 {
      InvInit();
    } else {
      InvRun(states, labels, k - 1);
      InvStep(states[k - 1], labels[k - 1]);
    }
  }

  /** In every reachable state a socket owns at most one ledger, and a fenced socket owns none. */
  lemma OneOwnedLedger(states: seq<State>, labels: seq<Label>, k: nat, s: Sock, l1: LedgerId, l2: LedgerId)
    requires Run(states, labels) && k < |states|
    requires Owns(states[k], s, l1)
    ensures Owns(states[k], s, l2) ==> l1 == l2
    ensures s in states[k].conns && !states[k].conns[s].fenced
  {
    InvRun(states, labels, k);
    assert LedgerOk(states[k], l1);
    if Owns(states[k], s, l2) {
      assert LedgerOk(states[k], l2);
    }
  }

  predicate Fenced(st: State, s: Sock) { s in st.conns && st.conns[s].fenced }

  /** No log entry at or past position `from` of any ledger is by `s`. */
  ghost predicate SilentSince(st: State, mark: State, s: Sock) {
    forall l :: l in st.ledgers ==>
      var from := if l in mark.ledgers then |mark.ledgers[l].log| else 0;
      forall i :: from <= i < |st.ledgers[l].log| ==> st.ledgers[l].log[i].sock != s
  }

  lemma LogGrows(st: State, e: Label)
    requires Enabled(st, e)
    ensures forall l :: l in st.ledgers ==> l in Next(st, e).ledgers
    ensures forall l :: l in st.ledgers ==> st.ledgers[l].log <= Next(st, e).ledgers[l].log
  {}

  lemma {:induction false} LogGrowsRun(states: seq<State>, labels: seq<Label>, i: nat, j: nat, l: LedgerId)
    requires Run(states, labels) && i <= j < |states| && l in states[i].ledgers
    ensures l in states[j].ledgers && states[i].ledgers[l].log <= states[j].ledgers[l].log
    decreases j
  {
    if i < j {
      LogGrowsRun(states, labels, i, j - 1, l);
      LogGrows(states[j - 1], labels[j - 1]);
    }
  }

  lemma FencedStaysFenced(st: State, e: Label, s: Sock)
    requires Inv(st) && Enabled(st, e) && Fenced(st, s)
    ensures Fenced(Next(st, e), s)
    ensures forall l :: l in Next(st, e).ledgers ==>
      var from := if l in st.ledgers then |st.ledgers[l].log| else 0;
      forall i :: from <= i < |Next(st, e).ledgers[l].log| ==> Next(st, e).ledgers[l].log[i].sock != s
  {
    hide Inv;
    FencedOwnsNothing(st, s);
    FencedWritesNothing(st, e, s);
  }

  lemma FencedWritesNothing(st: State, e: Label, s: Sock)
    requires Enabled(st, e) && Fenced(st, s) && forall l :: l in st.ledgers ==> !Owns(st, s, l)
    ensures forall l :: l in Next(st, e).ledgers ==>
      var from := if l in st.ledgers then |st.ledgers[l].log| else 0;
      forall i :: from <= i < |Next(st, e).ledgers[l].log| ==> Next(st, e).ledgers[l].log[i].sock != s
  {}

  lemma FencedOwnsNothing(st: State, s: Sock)
    requires Inv(st) && Fenced(st, s)
    ensures forall l :: l in st.ledgers ==> !Owns(st, s, l)
  {
    assert ConnOk(st, s);
    forall l | l in st.ledgers ensures !Owns(st, s, l) { assert LedgerOk(st, l); }
  }

  /** Once fenced, a socket never again owns a ledger or writes a byte: it stays fenced for the
      rest of the run, owns nothing at any later state, and no log entry added since is its own.
      This covers a socket superseded in the middle of moving to another ledger. */
  lemma {:induction false} FencedForever(states: seq<State>, labels: seq<Label>, i: nat, j: nat, s: Sock)
    requires Run(states, labels) && i <= j < |states| && Fenced(states[i], s)
    ensures Fenced(states[j], s)
    ensures forall l :: !Owns(states[j], s, l)
    ensures SilentSince(states[j], states[i], s)
    decreases j
  {
    InvRun(states, labels, j);
    if i < j {
      FencedForever(states, labels, i, j - 1, s);
      InvRun(states, labels, j - 1);
      FencedStaysFenced(states[j - 1], labels[j - 1], s);
      LogGrows(states[j - 1], labels[j - 1]);
      forall l | l in states[j].ledgers
        ensures var from := if l in states[i].ledgers then |states[i].ledgers[l].log| else 0;
                forall n :: from <= n < |states[j].ledgers[l].log| ==> states[j].ledgers[l].log[n].sock != s
      {
        if l in states[i].ledgers {
          LogGrowsRun(states, labels, i, j - 1, l);
        }
        if l in states[j - 1].ledgers {
          assert states[j - 1].ledgers[l].log <= states[j].ledgers[l].log;
        }
      }
    }
    forall l | l in states[j].ledgers ensures !Owns(states[j], s, l) {
      var ok := LedgerOk(states[j], l);
    }
  }

  predicate TakesLedger(st: State, e: Label, l: LedgerId) {
    e.Take? && e.s in st.conns && st.conns[e.s].phase.Checked? && st.conns[e.s].phase.next == l
  }

  /** `led` is `ack` bytes of earlier owners followed only by bytes of `s`, and nobody took it since. */
  ghost predicate SplitAt(led: Ledger, before: seq<Write>, ack: nat, s: Sock) {
    && ack == |before| <= |led.log| && led.received == |led.log| && led.taken == ack
    && before <= led.log
    && led.owner in {None, Some(s)}
    && forall n :: ack <= n < |led.log| ==> led.log[n].sock == s
  }

  lemma SplitStep(st: State, e: Label, l: LedgerId, before: seq<Write>, ack: nat, s: Sock)
    requires Inv(st) && Enabled(st, e) && l in st.ledgers
    requires SplitAt(st.ledgers[l], before, ack, s) && !TakesLedger(st, e, l)
    ensures l in Next(st, e).ledgers && SplitAt(Next(st, e).ledgers[l], before, ack, s)
  {
    match e
    case Apply(t, data) =>
      assert ConnOk(st, t);
    case _ =>
  }

  /** The ack a resume returns is the exact split of the ledger's log: everything the earlier
      owners wrote is below it, and until the next change of owner everything at or above it is
      the new owner's. */
  lemma {:induction false} AckSplitsTheLog(states: seq<State>, labels: seq<Label>, i: nat, j: nat, s: Sock, l: LedgerId)
    requires Run(states, labels) && i < j < |states|
    requires labels[i] == Take(s) && TakesLedger(states[i], labels[i], l)
    requires forall n :: i < n < j ==> !TakesLedger(states[n], labels[n], l)
    ensures l in states[i].ledgers && l in states[j].ledgers
    ensures s in states[i + 1].conns && states[i + 1].conns[s].phase.Replying?
    ensures SplitAt(states[j].ledgers[l], states[i].ledgers[l].log, states[i + 1].conns[s].phase.ack, s)
    decreases j
  {
    InvRun(states, labels, j - 1);
    if j == i + 1 {
      assert Enabled(states[i], labels[i]);
      assert ConnOk(states[i], s) && LedgerOk(states[i], l);
    } else {
      AckSplitsTheLog(states, labels, i, j - 1, s, l);
      assert Enabled(states[j - 1], labels[j - 1]);
      SplitStep(states[j - 1], labels[j - 1], l, states[i].ledgers[l].log, states[i + 1].conns[s].phase.ack, s);
    }
  }
}
