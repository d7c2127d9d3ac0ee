/** Demand-paged history: the reply the server gives to a page request, and what the client
    concludes from it. */
module Paging {
  import opened Sequences
  import opened Wire
  import opened Scrollback

  const MAX_SAFE_INTEGER: nat := 0x1F_FFFF_FFFF_FFFF
  const HISTORY_PAGE_SIZE: nat := 1000
  const HISTORY_MIN_PAGE: nat := 125
  const MAX_REPLAY_LINES: nat := 2000

  // ---- the byte budget ----

  /** The size of a scroll frame carrying `rows`. */
  function PageSize(utf8: Utf8, rows: seq<Row>): nat {
    if rows == [] then SCROLL_HEADER_SIZE
    else PageSize(utf8, rows[..|rows| - 1]) + EncodedRowSize(utf8, CapRow(utf8, rows[|rows| - 1]))
  }

  lemma {:induction false} LinesBytesAppend(utf8: Utf8, rows: seq<Row>, last: Row)
    ensures LinesBytes(utf8, rows + [last]) == LinesBytes(utf8, rows) + RowBytes(utf8, last)
  {
    hide RowBytes;
    if rows == [] {
      assert (rows + [last])[1..] == [];
      assert LinesBytes(utf8, [last]) == RowBytes(utf8, last) + LinesBytes(utf8, []);
    } else {
      assert (rows + [last])[1..] == rows[1..] + [last];
      LinesBytesAppend(utf8, rows[1..], last);
    }
  }

  /** The budget is spent in bytes actually written. */
  lemma {:induction false} PageSizeIsExact(utf8: Utf8, ack: nat, firstIndex: nat, rows: seq<Row>)
    ensures |ScrollBytes(utf8, ack, firstIndex, rows)| == PageSize(utf8, rows)
  {
    hide RowBytes, Le;
    if rows != [] {
      var init, last := rows[..|rows| - 1], rows[|rows| - 1];
      PageSizeIsExact(utf8, ack, firstIndex, init);
      assert rows == init + [last];
      LinesBytesAppend(utf8, init, last);
      RowSizeIsExact(utf8, last);
    }
  }

  lemma {:induction false} PageSizeGrows(utf8: Utf8, rows: seq<Row>, n: nat)
    requires n <= |rows|
    ensures PageSize(utf8, rows[..n]) <= PageSize(utf8, rows)
    decreases |rows|
  {
    if n == |rows| {
      assert rows[..n] == rows;
    } else {
      assert rows[..|rows| - 1][..n] == rows[..n];
      PageSizeGrows(utf8, rows[..|rows| - 1], n);
    }
  }

  /** Each row alone fits a reply, as CappedRowFits shows of every row of a screen. */
  ghost predicate EachFits(utf8: Utf8, rows: seq<Row>) {
    forall i :: 0 <= i < |rows| ==> EncodedRowSize(utf8, CapRow(utf8, rows[i])) <= ROW_BYTE_CEILING
  }

  /** How many leading rows fit: the most that do, and at least one. */
  method ShrinkToBudget(utf8: Utf8, rows: seq<Row>) returns (n: nat)
    requires EachFits(utf8, rows)
    ensures n <= |rows| && (rows != [] ==> n > 0)
    ensures PageSize(utf8, rows[..n]) <= PAGE_BYTE_BUDGET
    ensures forall k :: n < k <= |rows| ==> PageSize(utf8, rows[..k]) > PAGE_BYTE_BUDGET
  {
    hide EncodedRowSize;
    assert rows[..0] == [];
    var size := SCROLL_HEADER_SIZE;
    var i := 0;
    while i < |rows|
      invariant 0 <= i <= |rows|
      invariant size == PageSize(utf8, rows[..i]) <= PAGE_BYTE_BUDGET
    {
      assert rows[..i + 1][..i] == rows[..i];
      size := size + EncodedRowSize(utf8, CapRow(utf8, rows[i]));
      if size > PAGE_BYTE_BUDGET {
        forall k | i < k <= |rows| ensures PageSize(utf8, rows[..k]) > PAGE_BYTE_BUDGET {
          assert rows[..k][..i + 1] == rows[..i + 1];
          PageSizeGrows(utf8, rows[..k], i + 1);
        }
        return Max(i, 1);
      }
      i := i + 1;
    }
    assert rows[..i] == rows;
    return |rows|;
  }

  // ---- the server's reply ----

  datatype Reply = Reply(firstIndex: nat, lines: seq<Row>)

  predicate ValidRequest(fromAbs: int, maxLines: int) {
    1 <= maxLines <= HISTORY_PAGE_SIZE && 0 <= fromAbs <= MAX_SAFE_INTEGER - maxLines
  }

  /** `i` is an index both asked for and still retained. */
  predicate Servable(i: nat, fromAbs: nat, end: nat, oldest: nat, committed: nat) {
    fromAbs <= i < end && oldest <= i < committed
  }

  /** `r` is a right answer to the request for [fromAbs, end): nothing exactly when nothing asked for is
      retained, and otherwise the first lines that are, from the first, all that fit the byte budget. */
  ghost predicate Answers(utf8: Utf8, r: Reply, fromAbs: nat, end: nat, oldest: nat, log: seq<Line>)
    requires oldest <= |log|
  {
    && (r.lines == [] <==> forall i: nat :: !Servable(i, fromAbs, end, oldest, |log|))
    && (r.lines == [] ==> r.firstIndex == fromAbs)
    && PageSize(utf8, r.lines) <= PAGE_BYTE_BUDGET
    && (r.lines != [] ==> r.firstIndex == Max(fromAbs, oldest) && LongestFit(utf8, r, Min(end, |log|), log))
  }

  /** `r` carries the log's lines from its first index on, and one more line below `lim` would not fit. */
  ghost predicate LongestFit(utf8: Utf8, r: Reply, lim: nat, log: seq<Line>) {
    && r.firstIndex + |r.lines| <= lim <= |log|
    && r.lines == RowsOf(log[r.firstIndex..r.firstIndex + |r.lines|])
    && forall n: nat :: r.firstIndex + |r.lines| < n <= lim ==> PageSize(utf8, RowsOf(log[r.firstIndex..n])) > PAGE_BYTE_BUDGET
  }

  lemma ServableIff(fromAbs: nat, end: nat, oldest: nat, committed: nat)
    ensures (exists i: nat :: Servable(i, fromAbs, end, oldest, committed)) <==> Max(fromAbs, oldest) < Min(end, committed)
  {
    if Max(fromAbs, oldest) < Min(end, committed) {
      assert Servable(Max(fromAbs, oldest), fromAbs, end, oldest, committed);
    }
  }

  /** A page request, served from the ring. Nothing is said to a socket that has not resumed, by a server that
      does not declare paging, to an invalid request, or past the pacing. */
  method HistoryControl(ring: ScrollbackRing, utf8: Utf8, attached: bool, pagingDeclared: bool, token: bool,
                        fromAbs: int, maxLines: int)
    returns (reply: Option<Reply>)
    requires ring.Valid() && EachFits(utf8, RowsOf(ring.log))
    ensures reply.Some? <==> attached && pagingDeclared && ValidRequest(fromAbs, maxLines) && token
    ensures reply.Some? ==> Answers(utf8, reply.value, fromAbs, fromAbs + maxLines, ring.OldestIndex(), ring.log)
  {
    hide Answers, EachFits, RowsOf;
    if !attached || !pagingDeclared {
      return None;
    }
    if maxLines < 1 || maxLines > HISTORY_PAGE_SIZE {
      return None;
    }
    if fromAbs < 0 || fromAbs > MAX_SAFE_INTEGER - maxLines {
      return None;
    }
    if !token {
      return None;
    }
    var r := AnswerRequest(ring, utf8, fromAbs, fromAbs + maxLines);
    return Some(r);
  }

  method AnswerRequest(ring: ScrollbackRing, utf8: Utf8, fromAbs: nat, end: nat) returns (r: Reply)
    requires ring.Valid() && EachFits(utf8, RowsOf(ring.log)) && fromAbs < end
    ensures Answers(utf8, r, fromAbs, end, ring.OldestIndex(), ring.log)
  {
    hide Answers, EachFits, PageSize, LongestFit, RowsOf;
    var oldest, committed := ring.OldestIndex(), ring.committed;
    var start, lim := Max(fromAbs, oldest), Min(end, committed);
    if start >= lim {
      NothingToAnswer(utf8, fromAbs, end, oldest, ring.log);
      return Reply(fromAbs, []);
    }
    r := ServePage(ring, utf8, start, lim);
    PageAnswers(utf8, r, fromAbs, end, oldest, ring.log);
  }

  /** The longest page of retained lines from `start` that fits the byte budget. */
  method ServePage(ring: ScrollbackRing, utf8: Utf8, start: nat, lim: nat) returns (r: Reply)
    requires ring.Valid() && EachFits(utf8, RowsOf(ring.log))
    requires ring.OldestIndex() <= start < lim <= ring.committed
    ensures r.firstIndex == start && r.lines != [] && PageSize(utf8, r.lines) <= PAGE_BYTE_BUDGET
    ensures LongestFit(utf8, r, lim, ring.log)
  {
    hide PageSize, LongestFit, EachFits;
    var _, page := ring.LinesRange(start, lim - start);
    assert page == RowsOf(ring.log[start..lim]);
    FitsWithin(utf8, ring.log, start, lim);
    var n := ShrinkToBudget(utf8, page);
    PrefixAnswers(utf8, ring.log, start, lim, n);
    r := Reply(start, page[..n]);
  }

  lemma NothingToAnswer(utf8: Utf8, fromAbs: nat, end: nat, oldest: nat, log: seq<Line>)
    requires oldest <= |log| && Max(fromAbs, oldest) >= Min(end, |log|)
    ensures Answers(utf8, Reply(fromAbs, []), fromAbs, end, oldest, log)
  {}

  lemma PageAnswers(utf8: Utf8, r: Reply, fromAbs: nat, end: nat, oldest: nat, log: seq<Line>)
    requires oldest <= |log| && Max(fromAbs, oldest) < Min(end, |log|)
    requires r.firstIndex == Max(fromAbs, oldest) && r.lines != [] && PageSize(utf8, r.lines) <= PAGE_BYTE_BUDGET
    requires LongestFit(utf8, r, Min(end, |log|), log)
    ensures Answers(utf8, r, fromAbs, end, oldest, log)
  {
    hide PageSize, LongestFit;
    ServableIff(fromAbs, end, oldest, |log|);
  }

  lemma PrefixAnswers(utf8: Utf8, log: seq<Line>, start: nat, lim: nat, n: nat)
    requires start + n <= lim <= |log|
    requires forall k :: n < k <= lim - start ==> PageSize(utf8, RowsOf(log[start..lim])[..k]) > PAGE_BYTE_BUDGET
    ensures LongestFit(utf8, Reply(start, RowsOf(log[start..lim])[..n]), lim, log)
  {
    hide PageSize;
    forall k: nat | start <= k <= lim ensures RowsOf(log[start..lim])[..k - start] == RowsOf(log[start..k]) {}
  }

  lemma FitsWithin(utf8: Utf8, log: seq<Line>, from: nat, to: nat)
    requires from <= to <= |log| && EachFits(utf8, RowsOf(log))
    ensures EachFits(utf8, RowsOf(log[from..to]))
  {}

  // ---- the client's conclusion ----

  datatype Request = Request(fromAbs: nat, end: nat)

  datatype Verdict = Verdict(correlated: bool, raiseFloorTo: Option<nat>, contained: bool)

  /** The client's fetch state for one socket, and the floor, which outlives it. `effMax` is the page size it asks
      for, `budgetCeiling` the size it may climb back to, `floor` the index below which it believes history gone;
      `paging` and `acked` come with the socket's resumeAck. */
  datatype Pager = Pager(inFlight: Option<Request>, effMax: nat, budgetCeiling: nat, floor: nat, paging: bool, acked: bool)

  predicate PagerOk(p: Pager) {
    && HISTORY_MIN_PAGE <= p.effMax <= p.budgetCeiling <= HISTORY_PAGE_SIZE
    && (p.inFlight.Some? ==>
          p.inFlight.value.fromAbs < p.inFlight.value.end <= p.inFlight.value.fromAbs + p.effMax && p.acked)
  }

  function NewSocket(floor: nat): Pager { Pager(None, HISTORY_PAGE_SIZE, HISTORY_PAGE_SIZE, floor, false, false) }

  /** A request can leave: the server declared paging, none is in flight, the socket is upgraded and the pacing
      allows it. */
  predicate MayAsk(p: Pager, upgraded: bool, token: bool, fromAbs: int, maxLines: int) {
    && p.paging && p.acked && p.inFlight.None? && upgraded && token
    && maxLines >= 1 && 0 <= fromAbs <= MAX_SAFE_INTEGER - maxLines
  }

  /** The request has timed out: its socket stays, and so does what the server has yet to answer on it. */
  function TimedOut(p: Pager): Pager {
    if p.inFlight.None? then p
    else
      var size := p.inFlight.value.end - p.inFlight.value.fromAbs;
      p.(inFlight := None, effMax := HISTORY_MIN_PAGE, budgetCeiling := Max(HISTORY_MIN_PAGE, size / 2))
  }

  /** The state after a scroll frame of `count` lines from `first`. */
  function Correlated(p: Pager, first: nat, count: nat): Pager {
    var v := JudgeFrame(p.inFlight, first, count);
    var settled := if v.contained then p.(inFlight := None, effMax := Min(p.effMax * 2, p.budgetCeiling)) else p;
    if v.raiseFloorTo.Some? then settled.(floor := Max(p.floor, v.raiseFloorTo.value)) else settled
  }

  class HistoryPager {
    var inFlight: Option<Request>
    var effMax: nat
    var budgetCeiling: nat
    var floor: nat
    var paging: bool
    var acked: bool

    function View(): Pager reads this { Pager(inFlight, effMax, budgetCeiling, floor, paging, acked) }

    constructor ()
      ensures View() == NewSocket(0)
    {
      inFlight, effMax, budgetCeiling, floor := None, HISTORY_PAGE_SIZE, HISTORY_PAGE_SIZE, 0;
      paging, acked := false, false;
    }

    method ResetForNewSocket()
      modifies this
      ensures View() == NewSocket(old(floor))
    {
      inFlight, effMax, budgetCeiling, paging, acked := None, HISTORY_PAGE_SIZE, HISTORY_PAGE_SIZE, false, false;
    }

    method NoteResumeAck(historyPaging: bool)
      modifies this`paging, this`acked
      ensures View() == old(View()).(paging := historyPaging, acked := true)
    {
      paging, acked := historyPaging, true;
    }

    /** Whatever is sent meets the server's own test. */
    method RequestHistory(fromAbs: int, maxLines: int, upgraded: bool, token: bool) returns (sent: bool)
      requires PagerOk(View())
      modifies this
      ensures PagerOk(View()) && sent == MayAsk(old(View()), upgraded, token, fromAbs, maxLines)
      ensures View() == if sent then old(View()).(inFlight := Some(Request(fromAbs, fromAbs + Min(maxLines, effMax)))) else old(View())
      ensures sent ==> ValidRequest(fromAbs, inFlight.value.end - fromAbs)
    {
      if !paging || !acked || inFlight.Some? {
        return false;
      }
      if fromAbs < 0 || maxLines < 1 || fromAbs > MAX_SAFE_INTEGER - maxLines {
        return false;
      }
      if !upgraded || !token {
        return false;
      }
      inFlight := Some(Request(fromAbs, fromAbs + Min(maxLines, effMax)));
      return true;
    }

    /** Half the failed size becomes the ceiling, and the size starts again from the smallest page. */
    method OnDataTimeout()
      requires PagerOk(View())
      modifies this
      ensures PagerOk(View()) && View() == TimedOut(old(View()))
    {
      if inFlight.Some? {
        var size := inFlight.value.end - inFlight.value.fromAbs;
        budgetCeiling := Max(HISTORY_MIN_PAGE, size / 2);
        effMax := HISTORY_MIN_PAGE;
      }
      inFlight := None;
    }

    /** Decides whether a scroll frame answers the request in flight, and what it proves to be gone. */
    method CorrelateHistoryReply(msg: Reply) returns (v: Verdict)
      requires PagerOk(View())
      modifies this
      ensures PagerOk(View()) && v == JudgeFrame(old(inFlight), msg.firstIndex, |msg.lines|)
      ensures View() == Correlated(old(View()), msg.firstIndex, |msg.lines|)
    {
      if inFlight.None? {
        return Verdict(false, None, false);
      }
      var req := inFlight.value;
      if msg.firstIndex < req.fromAbs || msg.firstIndex >= req.end {
        return Verdict(false, None, false);
      }
      var count := |msg.lines|;
      var raise: Option<nat> := None;
      if count == 0 {
        raise := Some(req.end);
      } else if msg.firstIndex > req.fromAbs {
        raise := Some(msg.firstIndex);
      }
      var contained := msg.firstIndex + count <= req.end;
      if contained {
        inFlight := None;
        effMax := Min(effMax * 2, budgetCeiling);
      }
      if raise.Some? {
        floor := Max(floor, raise.value);
      }
      return Verdict(true, raise, contained);
    }
  }

  /** A frame answers the request in flight when it starts inside its window; an empty one condemns the whole
      window, one that starts late condemns what it skipped. */
  function JudgeFrame(inFlight: Option<Request>, first: nat, count: nat): Verdict {
    if inFlight.None? || first < inFlight.value.fromAbs || first >= inFlight.value.end
    then Verdict(false, None, false)
    else Verdict(true,
                 if count == 0 then Some(inFlight.value.end)
                 else if first > inFlight.value.fromAbs then Some(first)
                 else None,
                 first + count <= inFlight.value.end)
  }

  predicate Retained(i: nat, oldest: nat, committed: nat) { oldest <= i < committed }

  /** A raised floor declares some line gone that is still retained. */
  ghost predicate CoversRetained(raise: Option<nat>, oldest: nat, committed: nat) {
    raise.Some? && exists i: nat :: Retained(i, oldest, committed) && i < raise.value
  }

  /** Which answers make the client give up a line that is still retained. `r` answers some request [f0, e0) the
      client made on this socket; the one in flight now is [f, e), the same one, or a later one after a timeout.
      A reply with lines does exactly when it starts past the window's start at the first line asked for rather than
      the first retained; an empty one exactly when it falls in the window and the window reaches retained lines.
      For the request it answers, that is when the whole request lay at or past a window of retained lines. */
  lemma FloorIsSafeIff(utf8: Utf8, r: Reply, f0: nat, e0: nat, f: nat, e: nat, oldest: nat, log: seq<Line>)
    requires f0 < e0 && f < e && oldest <= |log| && Answers(utf8, r, f0, e0, oldest, log)
    ensures var v := JudgeFrame(Some(Request(f, e)), r.firstIndex, |r.lines|);
            CoversRetained(v.raiseFloorTo, oldest, |log|) <==>
              if r.lines != [] then f < f0 < e && oldest < f0 else f <= f0 < e && oldest < Min(e, |log|)
    ensures f0 == f && e0 == e ==>
      var v := JudgeFrame(Some(Request(f, e)), r.firstIndex, |r.lines|);
      && v.correlated && v.contained
      && (CoversRetained(v.raiseFloorTo, oldest, |log|) <==> oldest < |log| <= f)
      && (e <= |log| && v.raiseFloorTo.Some? ==> v.raiseFloorTo.value <= oldest)
  {
    hide PageSize, LongestFit;
    ServableIff(f0, e0, oldest, |log|);
    assert r.lines != [] ==> r.firstIndex < Min(e0, |log|) && r.firstIndex + |r.lines| <= e0 by { LongestIsWithin(utf8, r, Min(e0, |log|), log); }
    var v := JudgeFrame(Some(Request(f, e)), r.firstIndex, |r.lines|);
    if oldest < |log| && v.raiseFloorTo.Some? && oldest < v.raiseFloorTo.value {
      assert Retained(oldest, oldest, |log|);
    }
  }

  lemma LongestIsWithin(utf8: Utf8, r: Reply, lim: nat, log: seq<Line>)
    ensures LongestFit(utf8, r, lim, log) ==> r.firstIndex + |r.lines| <= lim
  {}

  // ---- the replay of a resume ----

  /** The first line a resume replays; `replayMax` is what the client asked for, already at most the cap. */
  function ReplayStart(committed: nat, haveThrough: int, replayMax: Option<nat>): nat {
    var from: nat := if haveThrough >= 0 then haveThrough + 1 else 0;
    var bound: nat := if replayMax.Some? then Min(MAX_REPLAY_LINES, replayMax.value) else MAX_REPLAY_LINES;
    if committed > bound then Max(from, committed - bound) else from
  }

  /** What a resume replays: exactly the retained lines that the client is missing and that are among the
      newest `bound`, in order, so never more than `bound` of them. */
  lemma ReplayIsTheMissingTail(oldest: nat, committed: nat, haveThrough: int, replayMax: Option<nat>, i: nat)
    requires oldest <= committed
    ensures var bound := if replayMax.Some? then Min(MAX_REPLAY_LINES, replayMax.value) else MAX_REPLAY_LINES;
            var firstAbs := Min(Max(ReplayStart(committed, haveThrough, replayMax), oldest), committed);
            && (firstAbs <= i < committed <==> oldest <= i < committed && i > haveThrough && i >= committed - bound)
            && committed - firstAbs <= bound
  {}
}
