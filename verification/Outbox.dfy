/** The browser's half of reliable input: the byte counters and the outbox of one session, as
    kept by the connection's ResumeState, and what each server message does to them. */
module Outbox {
  import opened Sequences
  import Framing

  const MAX_OUTBOX_BYTES: nat := 0x10_0000

  /** The fields of one session's resume state that input delivery depends on. */
  datatype Ledger = Ledger(sent: nat, acked: nat, outbox: seq<seq<Byte>>, outboxBytes: nat,
                           epoch: Option<nat>, seeded: bool)

  const NewLedger := Ledger(0, 0, [], 0, None, false)

  function Total(chunks: seq<seq<Byte>>): nat {
    if chunks == [] then 0 else |chunks[0]| + Total(chunks[1..])
  }

  predicate Valid(v: Ledger) {
    v.outboxBytes == Total(v.outbox) && v.acked <= v.sent && v.outboxBytes == v.sent - v.acked
  }

  lemma {:induction false} TotalIsLength(chunks: seq<seq<Byte>>)
    ensures |Flatten(chunks)| == Total(chunks)
  {
    if chunks != [] { TotalIsLength(chunks[1..]); }
  }

  /** Accepted input is queued and counted; input that would overflow the outbox changes nothing. */
  function SendBinary(v: Ledger, data: seq<Byte>): (r: (Ledger, bool)) {
    if v.outboxBytes + |data| > MAX_OUTBOX_BYTES then (v, false)
    else (v.(outbox := v.outbox + [data], outboxBytes := v.outboxBytes + |data|, sent := v.sent + |data|), true)
  }

  /** The outbox with bytes dropped from the front until `keep` are left, splitting the chunk the
      boundary falls in. */
  function KeepLast(chunks: seq<seq<Byte>>, keep: nat): seq<seq<Byte>> {
    var total := Total(chunks);
    if chunks == [] || total <= keep then chunks
    else if |chunks[0]| <= total - keep then KeepLast(chunks[1..], keep)
    else [chunks[0][total - keep..]] + chunks[1..]
  }

  lemma {:induction false} KeepLastIsSuffix(chunks: seq<seq<Byte>>, keep: nat)
    requires keep <= Total(chunks)
    ensures |Flatten(chunks)| == Total(chunks)
    ensures Flatten(KeepLast(chunks, keep)) == Flatten(chunks)[Total(chunks) - keep..]
    ensures Total(KeepLast(chunks, keep)) == keep
  {
    var total := Total(chunks);
    TotalIsLength(chunks);
    if chunks == [] || total <= keep {
    } else if |chunks[0]| <= total - keep {
      KeepLastIsSuffix(chunks[1..], keep);
    } else {
      var cut := chunks[0][total - keep..];
      assert ([cut] + chunks[1..])[1..] == chunks[1..];
    }
  }

  function ResetLedger(v: Ledger): Ledger {
    v.(sent := 0, acked := 0, outbox := [], outboxBytes := 0)
  }

  function ApplyAck(v: Ledger, received: nat): Ledger {
    if received <= v.acked then v
    else
      var acked := Min(received, v.sent);
      var outbox := KeepLast(v.outbox, if acked <= v.sent then v.sent - acked else 0);
      v.(acked := acked, outbox := outbox, outboxBytes := Total(outbox))
  }

  /** An ack trims exactly the bytes it newly confirms, from the front, and never more than were sent. */
  lemma ApplyAckTrims(v: Ledger, received: nat)
    requires Valid(v)
    ensures Valid(ApplyAck(v, received))
    ensures ApplyAck(v, received).acked == Max(v.acked, Min(received, v.sent))
    ensures |Flatten(v.outbox)| == v.sent - v.acked
    ensures Flatten(ApplyAck(v, received).outbox) == Flatten(v.outbox)[ApplyAck(v, received).acked - v.acked..]
  {
    TotalIsLength(v.outbox);
    if received > v.acked {
      KeepLastIsSuffix(v.outbox, v.sent - Min(received, v.sent));
    }
  }

  /** The part of a resumeAck that concerns the ledger. */
  datatype ResumeAck = ResumeAck(received: nat, epoch: Option<nat>, ledgerLost: bool)

  predicate ReportsEpoch(m: ResumeAck) { m.epoch.Some? && m.epoch.value != 0 }

  /** The server is not the process the counters were kept against, or cannot confirm a seeded claim. */
  predicate EpochChanged(v: Ledger, m: ResumeAck) {
    if ReportsEpoch(m) then v.epoch.Some? && v.epoch != m.epoch else v.seeded
  }

  function NoteEpoch(v: Ledger, m: ResumeAck): Ledger {
    if ReportsEpoch(m) then v.(epoch := m.epoch, seeded := false)
    else if v.seeded then v.(epoch := None, seeded := false)
    else v
  }

  datatype Outcome = Outcome(ledger: Ledger, retransmit: bool, notices: nat)

  /** What a resumeAck does: an epoch change resets the counters; a lost ledger resets them and sends
      nothing; otherwise the outbox is trimmed to the ack and what is left is sent again. */
  function OnResumeAck(v: Ledger, m: ResumeAck): Outcome {
    var changed := EpochChanged(v, m);
    var v1 := NoteEpoch(if changed then ResetLedger(v) else v, m);
    var notices := if changed then 1 else 0;
    if m.ledgerLost || (m.received == 0 && v1.acked > 0)
    then Outcome(ResetLedger(v1), false, notices + if v1.sent > v1.acked then 1 else 0)
    else Outcome(ApplyAck(v1, m.received), true, notices)
  }

  /** The server has restarted as far as the page can tell: it reports another epoch than the one known, or none at all
      to a page that took its epoch from storage. */
  predicate SeesRestart(v: Ledger, m: ResumeAck) {
    var reported := m.epoch.Some? && m.epoch.value != 0;
    (reported && v.epoch.Some? && v.epoch.value != m.epoch.value) || (!reported && v.seeded)
  }

  /** When the user is told that input may be lost, and that it is told once: when the page sees a restart, or when
      bytes never acked are thrown away with the counters. Input that was acked, or is sent again, is not reported. */
  lemma NoticeIff(v: Ledger, m: ResumeAck)
    requires Valid(v)
    ensures var o := OnResumeAck(v, m);
      && o.notices <= 1
      && (o.notices == 1 <==> SeesRestart(v, m) || (v.sent > v.acked && o.ledger.sent == 0))
      && (v.sent > v.acked && o.ledger.sent == 0 ==> o.notices == 1 && o.ledger.outbox == [])
      && (o.ledger.sent != 0 ==> o.ledger.sent == v.sent && o.notices == 0)
  {}

  /** A persisted epoch is adopted only by a session that knows none. */
  function AdoptEpoch(v: Ledger, epoch: nat): Ledger {
    if epoch == 0 || v.epoch.Some? then v else v.(epoch := Some(epoch), seeded := true)
  }

  function FramesOf(upgraded: bool, chunks: seq<seq<Byte>>): seq<seq<Byte>> {
    if chunks == [] then [] else Framing.InputFrames(upgraded, chunks[0]) + FramesOf(upgraded, chunks[1..])
  }

  lemma {:induction false} FramesCarryTheOutbox(upgraded: bool, chunks: seq<seq<Byte>>)
    ensures Flatten(FramesOf(upgraded, chunks)) == Flatten(chunks)
    ensures forall f :: f in FramesOf(upgraded, chunks) ==> f != []
  {
    if chunks != [] {
      Framing.InputFramesCarryTheChunk(upgraded, chunks[0]);
      FramesCarryTheOutbox(upgraded, chunks[1..]);
      FlattenConcat(Framing.InputFrames(upgraded, chunks[0]), FramesOf(upgraded, chunks[1..]));
    }
  }

  /** A chunk sent between the socket's open and its resumeAck goes out twice: the bytes that reach
      the socket after the ack are the unacked suffix of the stream exactly when nothing was sent early. */
  lemma RetransmitIsExactIffNothingSentEarly(v: Ledger, m: ResumeAck, early: seq<Byte>, stream: seq<Byte>, upgraded: bool)
    requires Valid(v) && |stream| == v.sent && Flatten(v.outbox) == stream[v.acked..]
    requires OnResumeAck(v, m).retransmit && !EpochChanged(v, m) && v.acked <= m.received <= v.sent
    ensures early + Flatten(FramesOf(upgraded, OnResumeAck(v, m).ledger.outbox)) == stream[m.received..] <==> early == []
  {
    RetransmitCarriesTheRest(v, m, stream, upgraded);
    hide OnResumeAck, FramesOf;
    assert |early + stream[m.received..]| == |early| + |stream[m.received..]|;
    assert early == [] ==> early + stream[m.received..] == stream[m.received..];
  }

  lemma RetransmitCarriesTheRest(v: Ledger, m: ResumeAck, stream: seq<Byte>, upgraded: bool)
    requires Valid(v) && |stream| == v.sent && Flatten(v.outbox) == stream[v.acked..]
    requires OnResumeAck(v, m).retransmit && !EpochChanged(v, m) && v.acked <= m.received <= v.sent
    ensures Flatten(FramesOf(upgraded, OnResumeAck(v, m).ledger.outbox)) == stream[m.received..]
  {
    hide FramesOf, ApplyAck, Flatten, Total;
    var v1 := NoteEpoch(v, m);
    assert Valid(v1) && v1.outbox == v.outbox by { NoteKeepsTheOutbox(v, m); }
    ApplyAckTrims(v1, m.received);
    assert OnResumeAck(v, m).ledger.outbox == ApplyAck(v1, m.received).outbox;
    assert stream[v.acked..][m.received - v.acked..] == stream[m.received..];
    FramesCarryTheOutbox(upgraded, OnResumeAck(v, m).ledger.outbox);
  }

  lemma NoteKeepsTheOutbox(v: Ledger, m: ResumeAck)
    requires Valid(v)
    ensures var v1 := NoteEpoch(v, m); Valid(v1) && v1.outbox == v.outbox && v1.acked == v.acked && v1.sent == v.sent
  {}

  /** The same state held in mutable fields and updated in place, as the connection does. */
  class ResumeState {
    var bytesSent: nat
    var bytesAcked: nat
    var outbox: seq<seq<Byte>>
    var outboxBytes: nat
    var lastServerEpoch: Option<nat>
    var epochSeeded: bool

    function View(): Ledger reads this {
      Ledger(bytesSent, bytesAcked, outbox, outboxBytes, lastServerEpoch, epochSeeded)
    }

    constructor ()
      ensures View() == NewLedger && Valid(View())
    {
      bytesSent, bytesAcked, outbox, outboxBytes := 0, 0, [], 0;
      lastServerEpoch, epochSeeded := None, false;
    }

    method Send(data: seq<Byte>) returns (accepted: bool)
      requires Valid(View())
      modifies this
      ensures Valid(View())
      ensures (View(), accepted) == SendBinary(old(View()), data)
      ensures accepted <==> old(outboxBytes) + |data| <= MAX_OUTBOX_BYTES
      ensures Flatten(outbox) == old(Flatten(outbox)) + if accepted then data else []
    {
      if outboxBytes + |data| > MAX_OUTBOX_BYTES {
        return false;
      }
      FlattenAppend(outbox, data);
      TotalIsLength(outbox);
      TotalIsLength(outbox + [data]);
      outbox := outbox + [data];
      outboxBytes := outboxBytes + |data|;
      bytesSent := bytesSent + |data|;
      return true;
    }

    method Reset()
      modifies this
      ensures View() == ResetLedger(old(View())) && Valid(View())
    {
      bytesSent := 0;
      bytesAcked := 0;
      outbox := [];
      outboxBytes := 0;
    }

    /** Trims the outbox from the front, whole chunks first, until it holds what is still unacked. */
    method Acknowledge(received: nat)
      requires Valid(View())
      modifies this
      ensures View() == ApplyAck(old(View()), received) && Valid(View())
    {
      ApplyAckTrims(View(), received);
      if received <= bytesAcked {
        return;
      }
      bytesAcked := Min(received, bytesSent);
      var targetUnacked := bytesSent - bytesAcked;
      ghost var goal := KeepLast(outbox, targetUnacked);
      while |outbox| > 0 && outboxBytes > targetUnacked
        invariant outboxBytes == Total(outbox) && targetUnacked <= Total(outbox)
        invariant KeepLast(outbox, targetUnacked) == goal
        invariant bytesSent == old(bytesSent) && bytesAcked == Min(received, bytesSent)
        invariant lastServerEpoch == old(lastServerEpoch) && epochSeeded == old(epochSeeded)
        decreases |outbox|
      {
        var head := outbox[0];
        var dropFromHead := outboxBytes - targetUnacked;
        if |head| <= dropFromHead {
          outbox := outbox[1..];
          outboxBytes := outboxBytes - |head|;
        } else {
          KeepLastIsSuffix(outbox, targetUnacked);
          outbox := [head[dropFromHead..]] + outbox[1..];
          outboxBytes := outboxBytes - dropFromHead;
          break;
        }
      }
      assert outbox == goal;
    }

    method Retransmit(upgraded: bool) returns (frames: seq<seq<Byte>>)
      ensures frames == FramesOf(upgraded, outbox)
    {
      frames := [];
      var i := 0;
      while i < |outbox|
        invariant 0 <= i <= |outbox|
        invariant frames + FramesOf(upgraded, outbox[i..]) == FramesOf(upgraded, outbox)
      {
        var some := Framing.SendInputFrames(upgraded, outbox[i]);
        assert outbox[i..][1..] == outbox[i + 1..];
        frames := frames + some;
        i := i + 1;
      }
      assert outbox[i..] == [];
    }

    /** The epoch half of a resumeAck; reports whether the server restarted. */
    method ObserveEpoch(m: ResumeAck) returns (restarted: bool)
      requires Valid(View())
      modifies this
      ensures Valid(View()) && restarted == EpochChanged(old(View()), m)
      ensures View() == NoteEpoch(if restarted then ResetLedger(old(View())) else old(View()), m)
    {
      restarted := false;
      if ReportsEpoch(m) {
        if lastServerEpoch.Some? && lastServerEpoch != m.epoch {
          Reset();
          restarted := true;
        }
        lastServerEpoch := m.epoch;
        epochSeeded := false;
      } else if epochSeeded {
        Reset();
        restarted := true;
        lastServerEpoch := None;
        epochSeeded := false;
      }
    }

    method HandleResumeAck(m: ResumeAck, upgraded: bool) returns (frames: seq<seq<Byte>>, notices: nat)
      requires Valid(View())
      modifies this
      ensures Valid(View())
      ensures var o := OnResumeAck(old(View()), m);
              View() == o.ledger && notices == o.notices
              && frames == (if o.retransmit then FramesOf(upgraded, o.ledger.outbox) else [])
      ensures notices == 1 <==> old(SeesRestart(View(), m)) || (old(bytesSent > bytesAcked) && bytesSent == 0)
      ensures notices <= 1
    {
      NoticeIff(View(), m);
      frames := [];
      var restarted := ObserveEpoch(m);
      notices := if restarted then 1 else 0;
      if m.ledgerLost || (m.received == 0 && bytesAcked > 0) {
        var lostUnacked := bytesSent > bytesAcked;
        Reset();
        if lostUnacked {
          notices := notices + 1;
        }
      } else {
        Acknowledge(m.received);
        frames := Retransmit(upgraded);
      }
    }
  }
}
