/** What the delivery invariant says about whole runs, and why its two hypotheses are needed. */
module ExactlyOnce {
  import opened Sequences
  import opened Outbox
  import opened InputProtocol
  import opened InputDelivery
  import Registry

  /** `labels` lead from `st` to `st'` by enabled, guarded steps. */
  ghost predicate Leads(st: State, labels: seq<Label>, st': State)
    decreases |labels|
  {
    if labels == [] then st' == st
    else Enabled(st, labels[0]) && Guarded(st, labels[0]) && Leads(Next(st, labels[0]), labels[1..], st')
  }

  /** Every byte on the PTY is the byte the page sent from the position recorded for it. */
  ghost predicate OutOk(history: seq<Byte>, pty: seq<nat>, out: seq<Byte>) {
    |out| == |pty| && forall i :: 0 <= i < |pty| ==> pty[i] < |history| && out[i] == history[pty[i]]
  }

  lemma OutGrows(history: seq<Byte>, pty: seq<nat>, out: seq<Byte>, at: nat, data: seq<Byte>)
    requires OutOk(history, pty, out) && at + |data| <= |history| && history[at..][..|data|] == data
    ensures OutOk(history, pty + Range(at, |data|), out + data)
  {}

  /** Only input the page sends and frames the server writes touch the history and the PTY. */
  lemma OtherStepsLeaveOutput(st: State, e: Label)
    requires Enabled(st, e) && !e.Type?
    requires e.Server? && e.e.Apply? ==> !Ours(st, e.e.s) || WritesNothing(st.reg, e.e)
    ensures Next(st, e).history == st.history && Next(st, e).pty == st.pty && Next(st, e).out == st.out
  {
    hide Registry.Next, OnResumeAck, EpochChanged;
  }

  lemma OutStep(st: State, e: Label)
    requires Inv(st) && Enabled(st, e) && Guarded(st, e) && OutOk(st.history, st.pty, st.out)
    ensures OutOk(Next(st, e).history, Next(st, e).pty, Next(st, e).out)
  {
    hide Inv, Registry.Next, Registry.Enabled, WritesNothing;
    if e.Type? {
    } else if e.Server? && e.e.Apply? && Ours(st, e.e.s) && !WritesNothing(st.reg, e.e) {
      hide OutOk, Next, Enabled, Chain;
      WritingStep(st, e.e.s, e.e.data);
      WriteChanges(st, e.e.s, e.e.data);
      OutGrows(st.history, st.pty, st.out, st.base + st.written, e.e.data);
    } else {
      hide OutOk, Next;
      OtherStepsLeaveOutput(st, e);
    }
  }

  lemma {:induction false} RunKeepsInv(st: State, labels: seq<Label>, st': State)
    requires Inv(st) && OutOk(st.history, st.pty, st.out) && Leads(st, labels, st')
    ensures Inv(st') && OutOk(st'.history, st'.pty, st'.out)
    decreases |labels|
  {
    hide Inv, OutOk, Enabled, Guarded, Next;
    if labels != [] {
      InvStep(st, labels[0]);
      OutStep(st, labels[0]);
      RunKeepsInv(Next(st, labels[0]), labels[1..], st');
    }
  }

  lemma ReachableInv(labels: seq<Label>, st: State)
    requires Leads(Init, labels, st)
    ensures Inv(st) && OutOk(st.history, st.pty, st.out)
  {
    hide Inv;
    InvInit();
    RunKeepsInv(Init, labels, st);
  }

  lemma PtyIncreases(base: nat, written: nat, pty: seq<nat>)
    requires PtyOk(base, written, pty)
    ensures Increasing(pty)
  {}

  /** In every guarded run of the page, its sockets old and new, and the server: each byte on the PTY
      is one the page sent, none is written twice, and they come in the order they were sent. */
  lemma DeliveredInOrderAtMostOnce(labels: seq<Label>, st: State)
    requires Leads(Init, labels, st)
    ensures |st.out| == |st.pty| && Increasing(st.pty)
    ensures forall i :: 0 <= i < |st.out| ==> st.pty[i] < |st.history| && st.out[i] == st.history[st.pty[i]]
  {
    hide ClientOk, KeysOk, SocksOk, LinkOk, CountOk, UnjoinedOk, OwnerOk, CurrentOk, PtyOk;
    ReachableInv(labels, st);
    PtyIncreases(st.base, st.written, st.pty);
  }

  /** The counters mean what they say: since their last reset the PTY got exactly the first `written`
      bytes of what was sent, the outbox is what was sent and not acked, an ack never runs ahead of the
      PTY, and the server's count is exactly what was written. */
  lemma CountersAgree(labels: seq<Label>, st: State)
    requires Leads(Init, labels, st)
    ensures st.base + st.ledger.sent == |st.history| && st.ledger.acked <= st.written <= st.ledger.sent
    ensures Flatten(st.ledger.outbox) == st.history[st.base + st.ledger.acked..]
    ensures st.written <= |st.out| && st.out[|st.out| - st.written..] == st.history[st.base..st.base + st.written]
    ensures st.joined ==> Counted(st.reg) == Some(st.written)
  {
    hide KeysOk, SocksOk, LinkOk, UnjoinedOk, OwnerOk, CurrentOk, Counted;
    ReachableInv(labels, st);
    var n := |st.pty| - st.written;
    forall k | n <= k < |st.out| ensures st.out[k] == st.history[st.base + (k - n)] {
      assert st.pty[n..][k - n] == st.pty[k];
    }
  }

  lemma OldestIsOld(base: nat, written: nat, pty: seq<nat>)
    requires PtyOk(base, written, pty)
    ensures |pty| > written ==> pty[0] < base
  {}

  lemma FromTheStart(history: seq<Byte>, written: nat, pty: seq<nat>, out: seq<Byte>)
    requires PtyOk(0, written, pty) && OutOk(history, pty, out)
    ensures written <= |history| && out == history[..written]
  {
    OldestIsOld(0, written, pty);
    assert pty[0..] == pty;
    if written > 0 { assert pty[written - 1] == written - 1; }
  }

  /** As long as the counters were never reset, nothing is missing either. */
  lemma UninterruptedPrefix(labels: seq<Label>, st: State)
    requires Leads(Init, labels, st) && st.base == 0
    ensures st.written <= |st.history| && st.out == st.history[..st.written]
  {
    hide ClientOk, KeysOk, SocksOk, LinkOk, CountOk, UnjoinedOk, OwnerOk, CurrentOk, PtyOk, OutOk, Leads, Registry.Inv;
    ReachableInv(labels, st);
    FromTheStart(st.history, st.written, st.pty, st.out);
  }

  /** When the current socket owns the ledger and has nothing left in flight, everything sent since the
      last reset is on the PTY. */
  lemma DrainedMeansDelivered(labels: seq<Label>, st: State)
    requires Leads(Init, labels, st)
    requires st.link.Online? && st.link.sock in st.heard && Writer(st.reg) == Some(st.link.sock)
    requires st.link.sock in st.up && st.up[st.link.sock] == []
    ensures st.written == st.ledger.sent
    ensures st.base == 0 ==> st.out == st.history
  {
    hide KeysOk, SocksOk, LinkOk, UnjoinedOk, CurrentOk, PtyOk, Writer;
    ReachableInv(labels, st);
    if st.base == 0 { UninterruptedPrefix(labels, st); }
  }
}
