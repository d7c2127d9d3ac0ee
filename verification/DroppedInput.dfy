/** Input that a resume discards: which bytes a page sent are never written, and exactly when. */
module DroppedInput {
  import opened Sequences
  import opened Outbox
  import opened InputProtocol
  import opened InputDelivery
  import opened ExactlyOnce
  import opened Hypotheses
  import Registry

  /** Position `p` was sent and is not on the PTY. */
  predicate Unwritten(st: State, p: nat) { st.base + st.written <= p < |st.history| }

  /** No guarded continuation of `st` ever writes position `p`. */
  ghost predicate NeverWritten(st: State, p: nat) {
    forall labels, last :: Leads(st, labels, last) ==> p !in last.pty
  }

  /** Some guarded continuation of `st` writes position `p`. */
  ghost predicate CanBeWritten(st: State, p: nat) {
    exists labels, last :: Leads(st, labels, last) && p in last.pty
  }

  lemma StepWritesFromBase(st: State, e: Label)
    requires Inv(st) && Enabled(st, e) && Guarded(st, e)
    ensures Next(st, e).base >= st.base
    ensures forall p :: p in Next(st, e).pty ==> p in st.pty || p >= st.base
  {
    hide Inv, Registry.Next, Registry.Enabled, WritesNothing, OnResumeAck, EpochChanged;
    assert st.base <= |st.history| by { BaseIsSent(st); }
    if e.Server? && e.e.Apply? && Ours(st, e.e.s) && !WritesNothing(st.reg, e.e) {
      hide Next, Enabled, Chain;
      WritingStep(st, e.e.s, e.e.data);
      WriteChanges(st, e.e.s, e.e.data);
    } else if !e.Type? {
      OtherStepsLeaveOutput(st, e);
    }
  }

  lemma BaseIsSent(st: State)
    requires Inv(st)
    ensures st.base <= |st.history| && st.written <= st.ledger.sent && st.base + st.ledger.sent == |st.history|
    ensures Valid(st.ledger)
  {}

  lemma {:induction false} RunWritesFromBase(st: State, labels: seq<Label>, last: State)
    requires Inv(st) && Leads(st, labels, last)
    ensures Inv(last) && last.base >= st.base
    ensures forall p :: p in last.pty ==> p in st.pty || p >= st.base
    decreases |labels|
  {
    hide Inv, Enabled, Guarded, Next;
    if labels != [] {
      InvStep(st, labels[0]);
      StepWritesFromBase(st, labels[0]);
      RunWritesFromBase(Next(st, labels[0]), labels[1..], last);
    }
  }

  /** A position that the counters were reset past, unwritten, stays unwritten for good. */
  lemma ResetPastIsNeverWritten(st: State, p: nat)
    requires Inv(st) && p < st.base && p !in st.pty
    ensures NeverWritten(st, p)
  {
    hide Inv, Leads;
    forall labels, last | Leads(st, labels, last) ensures p !in last.pty {
      RunWritesFromBase(st, labels, last);
    }
  }

  lemma PtyIsBelow(base: nat, written: nat, pty: seq<nat>)
    requires PtyOk(base, written, pty)
    ensures forall q :: q in pty ==> q < base + written
  {
    var n := |pty| - written;
    forall i | 0 <= i < |pty| ensures pty[i] < base + written {
      if i >= n { assert pty[n..][i - n] == pty[i]; }
    }
  }

  lemma PtyOfInv(st: State)
    requires Inv(st)
    ensures forall q :: q in st.pty ==> q < st.base + st.written
  {
    PtyIsBelow(st.base, st.written, st.pty);
  }

  /** The `written` positions from `base` on are on the PTY. */
  lemma WrittenIsOnThePty(st: State, p: nat)
    requires Inv(st) && st.base <= p < st.base + st.written
    ensures p in st.pty
  {
    hide ClientOk, KeysOk, SocksOk, LinkOk, CountOk, UnjoinedOk, OwnerOk, CurrentOk;
    assert st.pty[|st.pty| - st.written..][p - st.base] == p;
  }

  // ---- what one undisturbed resume does ----

  /** The resumeAck the server answers this page with. */
  function Answer(st: State): ResumeAck {
    var received := if KEY in st.reg.sessions && st.reg.sessions[KEY] in st.reg.ledgers
                    then st.reg.ledgers[st.reg.sessions[KEY]].received else 0;
    ResumeAck(received, Some(st.serverEpoch), KEY !in st.reg.sessions && st.ledger.sent > 0)
  }

  /** A resume from here discards input: something sent is not written, and the server either has no ledger for
      the page, or is another process than the one the page knows, or counted nothing where the page saw acks. */
  predicate Discards(st: State) {
    && st.ledger.sent > st.written
    && (|| KEY !in st.reg.sessions
        || (st.ledger.epoch.Some? && st.ledger.epoch.value != st.serverEpoch)
        || (Answer(st).received == 0 && st.ledger.acked > 0))
  }

  /** An undisturbed resume: the socket's own steps to the resumeAck, and the page reading it. */
  lemma UndisturbedResume(st: State, s: Sock, newId: Registry.LedgerId, v4: bool)
    returns (labels: seq<Label>, st': State, l: Registry.LedgerId)
    requires Inv(st) && st.link.Offline? && FreshSock(st, s) && Available(st) && newId !in st.reg.ledgers
    ensures Leads(st, labels, st') && Inv(st') && Writing(st', s, l)
    ensures st'.history == st.history && st'.pty == st.pty && st'.link == Online(s, v4, st.serverEpoch) && s in st'.heard
    ensures st'.ledger == OnResumeAck(st.ledger, Answer(st)).ledger
    ensures if Resets(st.ledger, Answer(st)) then st'.base == |st.history| && st'.written == 0
            else st'.base == st.base && st'.written == st.written
  {
    hide Inv, Leads, Resuming, Enabled, Next, Guarded;
    assert KEY in st.reg.sessions ==> st.reg.sessions[KEY] in st.reg.ledgers;
    labels, st', l := ResumeRun(st, s, newId);
    ReadsAnswer(st, st', s, l, v4);
    Snoc(st, labels, st', Receive(v4));
    labels, st' := labels + [Receive(v4)], Next(st', Receive(v4));
    RunWritesFromBase(st, labels, st');
  }

  lemma ReadsAnswer(st0: State, st: State, s: Sock, l: Registry.LedgerId, v4: bool)
    requires KEY in st0.reg.sessions ==> st0.reg.sessions[KEY] in st0.reg.ledgers
    requires Replied(st0, st, s, l, Answer(st0).received, KEY !in st0.reg.sessions)
    ensures Enabled(st, Receive(v4)) && Guarded(st, Receive(v4))
    ensures var st', m := Next(st, Receive(v4)), Answer(st0);
      && st'.history == st0.history && st'.pty == st0.pty && st'.link == Online(s, v4, st0.serverEpoch) && s in st'.heard
      && st'.ledger == OnResumeAck(st0.ledger, m).ledger && Writing(st', s, l)
      && st'.base == (if Resets(st0.ledger, m) then |st0.history| else st0.base)
      && st'.written == (if Resets(st0.ledger, m) then 0 else st0.written)
  {
    hide OnResumeAck, FramesOf;
  }

  lemma ResetsIff(st: State)
    requires Inv(st) && st.ledger.sent > st.written
    ensures Discards(st) <==> Resets(st.ledger, Answer(st))
  {
    assert st.serverEpoch > 0;
  }

  /** The user is told of every resume that discards unwritten input, and of no other while some is unwritten. */
  lemma DiscardIsReported(st: State)
    requires Inv(st) && st.ledger.sent > st.written
    ensures Discards(st) <==> OnResumeAck(st.ledger, Answer(st)).notices == 1
  {
    BaseIsSent(st);
    AckedIsWritten(st);
    ResetsIff(st);
    hide Inv, KeepLast;
    NoticeIff(st.ledger, Answer(st));
  }

  lemma AckedIsWritten(st: State)
    requires Inv(st)
    ensures st.ledger.acked <= st.written
  {}

  /** Exactly when a resume loses input, for every state a page can resume from: when the page sent something that
      is not written and its counters are reset. Then none of it is ever written, by any continuation; otherwise
      all of it can be, by the server alone. A page that typed before its first connection is one such state. */
  lemma ResumeDiscardsIff(st: State, s: Sock, newId: Registry.LedgerId, v4: bool)
    returns (labels: seq<Label>, st': State)
    requires Inv(st) && st.link.Offline? && FreshSock(st, s) && Available(st) && newId !in st.reg.ledgers
    ensures Leads(st, labels, st') && st'.history == st.history && st'.pty == st.pty
    ensures Discards(st) <==> exists p :: Unwritten(st, p) && NeverWritten(st', p)
    ensures Discards(st) ==> st'.base == |st.history| && Flatten(st'.ledger.outbox) == []
    ensures Discards(st) ==> forall p :: Unwritten(st, p) ==> NeverWritten(st', p)
    ensures !Discards(st) ==> forall p :: Unwritten(st, p) ==> CanBeWritten(st', p)
    ensures st'.ledger == OnResumeAck(st.ledger, Answer(st)).ledger
    ensures st.ledger.sent > st.written ==> (Discards(st) <==> OnResumeAck(st.ledger, Answer(st)).notices == 1)
  {
    hide Inv, Leads, Writing, Resets, Enabled, Next, Guarded;
    var l;
    labels, st', l := UndisturbedResume(st, s, newId, v4);
    BaseIsSent(st);
    if st.ledger.sent > st.written {
      ResetsIff(st);
      DiscardIsReported(st);
      if Discards(st) {
        ResetEmpties(st.ledger, Answer(st));
        assert forall q :: q in st.pty ==> q < st.base + st.written by { PtyOfInv(st); }
        forall p | Unwritten(st, p) ensures NeverWritten(st', p) {
          ResetPastIsNeverWritten(st', p);
        }
        assert Unwritten(st, st.base + st.written);
      } else {
        RestCanBeWritten(st', s, l);
        forall p | Unwritten(st, p) ensures CanBeWritten(st', p) && !NeverWritten(st', p) {
          assert Unwritten(st', p);
        }
      }
    }
  }

  lemma ResetEmpties(v: Ledger, m: ResumeAck)
    requires Resets(v, m) && m.epoch.Some? && Valid(v)
    ensures Flatten(OnResumeAck(v, m).ledger.outbox) == []
  {
    TotalIsLength(OnResumeAck(v, m).ledger.outbox);
  }

  /** After the resumeAck, everything unwritten is on the socket, and the server alone can write all of it. */
  lemma RestCanBeWritten(st: State, s: Sock, l: Registry.LedgerId)
    requires Inv(st) && Writing(st, s, l) && s in st.heard && st.link.Online? && st.link.sock == s
    ensures forall p :: Unwritten(st, p) ==> CanBeWritten(st, p)
  {
    assert AllInput(st.up[s]);
    hide Inv, Leads, CanBeWritten;
    var labels, last := DrainQueue(st, s, l);
    RunWritesFromBase(st, labels, last);
    NothingLeft(last, s, l);
    forall p | Unwritten(st, p) ensures CanBeWritten(st, p) {
      WrittenIsOnThePty(last, p);
      CanReach(st, labels, last, p);
    }
  }

  lemma CanReach(st: State, labels: seq<Label>, last: State, p: nat)
    requires Leads(st, labels, last) && p in last.pty
    ensures CanBeWritten(st, p)
  {}

  lemma NothingLeft(st: State, s: Sock, l: Registry.LedgerId)
    requires Inv(st) && Writing(st, s, l) && s in st.heard && st.link.Online? && st.link.sock == s && st.up[s] == []
    ensures st.base + st.written == |st.history|
  {}

  /** The shortest such run: a page types before it ever connects, connects, and loses what it typed. */
  lemma OfflineInputIsDropped(data: seq<Byte>) returns (labels: seq<Label>, st': State)
    requires data != [] && |data| <= MAX_OUTBOX_BYTES
    ensures Leads(Init, labels, st') && st'.history == data && st'.base == |data| && st'.pty == []
    ensures Flatten(st'.ledger.outbox) == [] && forall p: nat :: p < |data| ==> NeverWritten(st', p)
  {
    TypedOffline(data);
    InvInit();
    InvStep(Init, Type(data));
    hide Inv, Next, Guarded, NeverWritten, Enabled, Leads, Discards, FreshSock, Available;
    labels, st' := NeverReached(Next(Init, Type(data)), data);
    Cons(Init, Type(data), labels, st');
    labels := [Type(data)] + labels;
  }

  lemma NeverReached(st: State, data: seq<Byte>) returns (labels: seq<Label>, st': State)
    requires Inv(st) && st.link.Offline? && st.history == data && st.pty == [] && st.written == 0 && st.base == 0
    requires st.reg == Registry.Empty && FreshSock(st, 0) && Available(st) && Discards(st)
    ensures Leads(st, labels, st') && st'.history == data && st'.base == |data| && st'.pty == []
    ensures Flatten(st'.ledger.outbox) == [] && forall p: nat :: p < |data| ==> NeverWritten(st', p)
  {
    hide Inv, NeverWritten, Leads, Discards, FreshSock, Available;
    labels, st' := ResumeDiscardsIff(st, 0, 0, false);
    assert forall p: nat :: p < |data| ==> Unwritten(st, p);
  }

  lemma Cons(st: State, e: Label, labels: seq<Label>, st': State)
    requires Enabled(st, e) && Guarded(st, e) && Leads(Next(st, e), labels, st')
    ensures Leads(st, [e] + labels, st')
  {
    hide Enabled, Guarded, Next;
    assert ([e] + labels)[1..] == labels;
  }

  lemma TypedOffline(data: seq<Byte>)
    requires data != [] && |data| <= MAX_OUTBOX_BYTES
    ensures Enabled(Init, Type(data)) && Guarded(Init, Type(data))
    ensures var st := Next(Init, Type(data));
      && st.history == data && st.link.Offline? && st.pty == [] && st.written == 0 && st.base == 0
      && st.reg == Registry.Empty && FreshSock(st, 0) && Available(st) && Discards(st)
  {
    assert [] + data == data;
  }
}
