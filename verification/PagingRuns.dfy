/** Runs of history paging over one client's sockets: requests, timeouts, retries, answers that come late, and
    scroll frames that answer nothing. Which of them make the client give up lines that are still there. */
module PagingRuns {
  import opened Sequences
  import opened Wire
  import opened Scrollback
  import opened Paging

  /** A scroll frame on its way: an answer to `asked`, or a replayed or live chunk, sent when the server
      retained the lines from `oldest` up to `committed`. */
  datatype Frame = Frame(first: nat, count: nat, asked: Option<Request>, oldest: nat, committed: nat)

  /** `up` and `down` are the socket's two queues. */
  datatype State = State(pager: Pager, up: seq<Request>, down: seq<Frame>, oldest: nat, committed: nat)

  const Init := State(NewSocket(0), [], [], 0, 0)

  datatype Event =
    | Ack(paging: bool)                                         // the socket's resumeAck is processed
    | Ask(fromAbs: int, maxLines: int, upgraded: bool, token: bool)
    | Timeout
    | Serve(count: nat)                                         // the server answers, with `count` lines
    | Drop                                                      // or is throttled, and says nothing
    | Chunk(first: nat, count: nat)                             // a resume's replay, or a live flush
    | Grow(oldest: nat, committed: nat)                         // lines are committed, evicted or cleared
    | Deliver                                                   // the client reads the next scroll frame
    | Reconnect

  /** The frame is what the server could say: an answer is empty, at the request's own start, exactly when nothing
      asked for was retained, and otherwise starts at the first line that was. A chunk is of committed lines, which a
      burst longer than the ring may have evicted already. */
  predicate FrameOk(f: Frame) {
    && f.oldest <= f.committed
    && match f.asked
       case None => f.count > 0 && f.first + f.count <= f.committed
       case Some(q) =>
         var start, lim := Max(q.fromAbs, f.oldest), Min(q.end, f.committed);
         && q.fromAbs < q.end
         && (if start < lim then f.count > 0 && f.first == start && f.first + f.count <= lim
             else f.count == 0 && f.first == q.fromAbs)
  }

  /** Every answer of HistoryControl is such a frame. */
  lemma AnswersAreFrames(utf8: Utf8, r: Reply, q: Request, oldest: nat, log: seq<Line>)
    requires q.fromAbs < q.end && oldest <= |log| && Answers(utf8, r, q.fromAbs, q.end, oldest, log)
    ensures FrameOk(Frame(r.firstIndex, |r.lines|, Some(q), oldest, |log|))
  {
    hide PageSize, LongestFit;
    ServableIff(q.fromAbs, q.end, oldest, |log|);
    LongestIsWithin(utf8, r, Min(q.end, |log|), log);
  }

  function Answer(q: Request, count: nat, oldest: nat, committed: nat): Frame {
    var start, lim := Max(q.fromAbs, oldest), Min(q.end, committed);
    Frame(if start < lim then start else q.fromAbs, count, Some(q), oldest, committed)
  }

  predicate Enabled(st: State, e: Event) {
    match e
    case Serve(count) => st.up != [] && FrameOk(Answer(st.up[0], count, st.oldest, st.committed))
    case Drop => st.up != []
    case Chunk(first, count) => FrameOk(Frame(first, count, None, st.oldest, st.committed))
    case Grow(oldest, committed) => st.oldest <= oldest <= committed && st.committed <= committed
    case Deliver => st.down != []
    case _ => true
  }

  function Next(st: State, e: Event): State
    requires Enabled(st, e)
  {
    match e
    case Ack(paging) => st.(pager := st.pager.(paging := paging, acked := true))
    case Ask(fromAbs, maxLines, upgraded, token) =>
      if !MayAsk(st.pager, upgraded, token, fromAbs, maxLines) then st
      else
        var q := Request(fromAbs, fromAbs + Min(maxLines, st.pager.effMax));
        st.(pager := st.pager.(inFlight := Some(q)), up := st.up + [q])
    case Timeout => st.(pager := TimedOut(st.pager))
    case Serve(count) => st.(up := st.up[1..], down := st.down + [Answer(st.up[0], count, st.oldest, st.committed)])
    case Drop => st.(up := st.up[1..])
    case Chunk(first, count) => st.(down := st.down + [Frame(first, count, None, st.oldest, st.committed)])
    case Grow(oldest, committed) => st.(oldest := oldest, committed := committed)
    case Deliver =>
      var f := st.down[0];
      st.(down := st.down[1..], pager := if st.pager.acked then Correlated(st.pager, f.first, f.count) else st.pager)
    case Reconnect => State(NewSocket(st.pager.floor), [], [], st.oldest, st.committed)
  }

  predicate QueuesOk(st: State) {
    && PagerOk(st.pager) && st.oldest <= st.committed
    && (forall q :: q in st.up ==> q.fromAbs < q.end)
    && forall f :: f in st.down ==> FrameOk(f) && f.oldest <= st.oldest && f.committed <= st.committed
  }

  lemma QueuesStep(st: State, e: Event)
    requires QueuesOk(st) && Enabled(st, e)
    ensures QueuesOk(Next(st, e))
    ensures st.oldest <= Next(st, e).oldest
    ensures !e.Deliver? ==> Next(st, e).pager.floor == st.pager.floor
  {}

  // ---- one delivery ----

  /** The delivery raises the floor past a line the server still retains or will yet commit. */
  predicate Overclaims(st: State) { st.pager.floor > st.oldest }

  /** What the client can see of the frame it reads, next to what the server still has: with lines, the frame starts
      inside the open window but not at its start, past the oldest line retained; without, it starts anywhere in an
      open window that reaches past that line. */
  predicate Condemns(st: State)
    requires st.down != []
  {
    && st.pager.inFlight.Some?
    && var f, q := st.down[0], st.pager.inFlight.value;
       if f.count > 0 then q.fromAbs < f.first < q.end && st.oldest < f.first
       else q.fromAbs <= f.first < q.end && st.oldest < q.end
  }

  /** For an answer, in terms of the request it answers: a late answer to an earlier request condemns retained lines
      when that request started inside the open window, past its start and past the oldest line retained. */
  lemma CondemnsByRequest(st: State)
    requires QueuesOk(st) && st.down != [] && st.down[0].asked.Some? && st.pager.inFlight.Some?
    ensures var f, q0, q := st.down[0], st.down[0].asked.value, st.pager.inFlight.value;
            Condemns(st) <==> if f.count > 0 then q.fromAbs < q0.fromAbs < q.end && st.oldest < q0.fromAbs
                              else q.fromAbs <= q0.fromAbs < q.end && st.oldest < q.end
  {
    assert st.down[0] in st.down;
  }

  lemma DeliverCondemnsIff(st: State)
    requires QueuesOk(st) && Enabled(st, Deliver) && !Overclaims(st)
    ensures Overclaims(Next(st, Deliver)) <==> Condemns(st)
  {}

  /** And the lines given up include one retained now exactly when, besides, the server retains any below the mark. */
  lemma DeliverCoversIff(st: State)
    requires QueuesOk(st) && Enabled(st, Deliver) && st.pager.acked
    ensures var v := JudgeFrame(st.pager.inFlight, st.down[0].first, st.down[0].count);
            CoversRetained(v.raiseFloorTo, st.oldest, st.committed) <==> Condemns(st) && st.oldest < st.committed
  {
    var v := JudgeFrame(st.pager.inFlight, st.down[0].first, st.down[0].count);
    if v.raiseFloorTo.Some? && st.oldest < v.raiseFloorTo.value && st.oldest < st.committed {
      assert Retained(st.oldest, st.oldest, st.committed);
    }
  }

  // ---- runs ----

  ghost predicate Run(states: seq<State>, events: seq<Event>) {
    && |states| == |events| + 1 && states[0] == Init
    && forall i :: 0 <= i < |events| ==> Enabled(states[i], events[i]) && states[i + 1] == Next(states[i], events[i])
  }

  lemma {:induction false} RunQueues(states: seq<State>, events: seq<Event>, k: nat)
    requires Run(states, events) && k < |states|
    ensures QueuesOk(states[k])
  {
    if k > 0 {
      RunQueues(states, events, k - 1);
      QueuesStep(states[k - 1], events[k - 1]);
    }
  }

  ghost predicate CondemnsAt(states: seq<State>, events: seq<Event>, i: nat)
    requires Run(states, events)
  {
    i < |events| && events[i].Deliver? && Condemns(states[i])
  }

  ghost predicate NeverCondemns(states: seq<State>, events: seq<Event>, k: nat)
    requires Run(states, events)
  {
    forall i :: 0 <= i < k ==> !CondemnsAt(states, events, i)
  }

  /** Over every run of requests, timeouts, retries, late answers, chunks and reconnects, the client's floor stays at
      or below the oldest line retained, for as long as no delivery condemns, and no longer. */
  lemma {:induction false} FloorIsSafeUntil(states: seq<State>, events: seq<Event>, k: nat)
    requires Run(states, events) && k < |states|
    ensures (forall i :: 0 <= i <= k ==> !Overclaims(states[i])) <==> NeverCondemns(states, events, k)
    decreases k
  {
    if k > 0 {
      FloorIsSafeUntil(states, events, k - 1);
      RunQueues(states, events, k - 1);
      QueuesStep(states[k - 1], events[k - 1]);
      assert NeverCondemns(states, events, k) <==> NeverCondemns(states, events, k - 1) && !CondemnsAt(states, events, k - 1);
      if NeverCondemns(states, events, k - 1) {
        assert !Overclaims(states[k - 1]);
        if events[k - 1].Deliver? { DeliverCondemnsIff(states[k - 1]); }
        assert Overclaims(states[k]) <==> CondemnsAt(states, events, k - 1);
      }
    }
  }

  // ---- discipline that is enough ----

  /** What a client can check: it asks only below what is committed, and not while an earlier request is still
      unanswered on the socket; and no chunk is read that starts past the start of an open window. */
  predicate Careful(st: State, e: Event) {
    match e
    case Ask(fromAbs, maxLines, upgraded, token) =>
      MayAsk(st.pager, upgraded, token, fromAbs, maxLines) ==>
        && fromAbs + Min(maxLines, st.pager.effMax) <= st.committed
        && st.up == [] && forall f :: f in st.down ==> f.asked.None?
    case Deliver =>
      st.down != [] && st.down[0].asked.None? && st.pager.inFlight.Some? ==>
        !(st.pager.inFlight.value.fromAbs < st.down[0].first < st.pager.inFlight.value.end)
    case _ => true
  }

  /** While a request is open, everything unanswered or undelivered is that request, and it was committed. */
  predicate OnlyTheOpenOne(st: State) {
    && st.pager.inFlight.Some? ==>
      var q := st.pager.inFlight.value;
      && q.end <= st.committed
      && (forall r :: r in st.up ==> r == q)
      && forall f :: f in st.down && f.asked.Some? ==> f.asked.value == q && q.end <= f.committed
  }

  lemma CarefulStep(st: State, e: Event)
    requires QueuesOk(st) && Enabled(st, e) && OnlyTheOpenOne(st) && Careful(st, e)
    ensures OnlyTheOpenOne(Next(st, e))
    ensures e.Deliver? ==> !Condemns(st)
  {
    if e.Serve? || e.Drop? {
      assert st.up[0] in st.up;
      forall r | r in st.up[1..] ensures r in st.up {}
    } else if e.Deliver? {
      assert st.down[0] in st.down;
      if st.pager.inFlight.Some? && st.down[0].asked.Some? { CondemnsByRequest(st); }
    }
  }

  /** A run that keeps to it never gives up a retained line. */
  lemma {:induction false} CarefulIsSafe(states: seq<State>, events: seq<Event>, k: nat)
    requires Run(states, events) && k < |states| && forall i :: 0 <= i < |events| ==> Careful(states[i], events[i])
    ensures !Overclaims(states[k]) && OnlyTheOpenOne(states[k])
    decreases k
  {
    if k > 0 {
      CarefulIsSafe(states, events, k - 1);
      RunQueues(states, events, k - 1);
      QueuesStep(states[k - 1], events[k - 1]);
      CarefulStep(states[k - 1], events[k - 1]);
      if events[k - 1].Deliver? { DeliverCondemnsIff(states[k - 1]); }
    }
  }

  // ---- the run that breaks it ----

  ghost predicate Reaches(st: State, events: seq<Event>, last: State)
    decreases |events|
  {
    if events == [] then last == st else Enabled(st, events[0]) && Reaches(Next(st, events[0]), events[1..], last)
  }

  lemma ReachesCons(st: State, e: Event, rest: seq<Event>, last: State)
    requires Enabled(st, e) && Reaches(Next(st, e), rest, last)
    ensures Reaches(st, [e] + rest, last)
  {
    hide Enabled, Next;
    assert ([e] + rest)[1..] == rest;
  }

  /** A page of everything from 0 to 2000, on a socket that has asked and timed out once. */
  lemma AskedTwice() returns (st: State, events: seq<Event>)
    ensures events == [Grow(0, 2000), Ack(true), Ask(500, 1000, true, true), Timeout, Ask(400, 125, true, true)]
    ensures Reaches(Init, events, st) && st.up == [Request(500, 1500), Request(400, 525)] && st.down == []
    ensures st.oldest == 0 && st.committed == 2000 && st.pager.floor == 0 && st.pager.acked
    ensures st.pager.inFlight == Some(Request(400, 525))
  {
    var st1 := Next(Init, Grow(0, 2000));
    var st2 := Next(st1, Ack(true));
    var st3 := Next(st2, Ask(500, 1000, true, true));
    var st4 := Next(st3, Timeout);
    st := Next(st4, Ask(400, 125, true, true));
    hide Enabled, Next;
    events := [Ask(400, 125, true, true)];
    assert Reaches(st4, events, st) by { assert events[1..] == []; }
    ReachesCons(st3, Timeout, events, st);
    ReachesCons(st2, Ask(500, 1000, true, true), [Timeout] + events, st);
    ReachesCons(st1, Ack(true), [Ask(500, 1000, true, true)] + ([Timeout] + events), st);
    ReachesCons(Init, Grow(0, 2000), [Ack(true)] + ([Ask(500, 1000, true, true)] + ([Timeout] + events)), st);
    events := [Grow(0, 2000)] + ([Ack(true)] + ([Ask(500, 1000, true, true)] + ([Timeout] + events)));
  }

  lemma {:induction false} ReachesOn(st: State, events: seq<Event>, mid: State, e: Event)
    requires Reaches(st, events, mid) && Enabled(mid, e)
    ensures Reaches(st, events + [e], Next(mid, e))
    decreases |events|
  {
    hide Enabled, Next;
    if events == [] {
      assert ([] + [e])[1..] == [] && events + [e] == [e];
    } else {
      ReachesOn(Next(st, events[0]), events[1..], mid, e);
      assert (events + [e])[1..] == events[1..] + [e];
    }
  }

  /** A request for [500, 1500) times out, the reader moves up and [400, 525) is asked for; the first request's
      answer then raises the floor to 500, with every line from 0 on retained and both requests below the count. */
  lemma LateAnswerCondemns() returns (events: seq<Event>, last: State)
    ensures Reaches(Init, events, last) && last.pager.floor == 500 && last.oldest == 0 && last.committed == 2000
    ensures last.pager.inFlight == Some(Request(400, 525))
  {
    hide Reaches;
    var st;
    st, events := AskedTwice();
    var mid := Next(st, Serve(500));
    assert mid.down == [Frame(500, 500, Some(Request(500, 1500)), 0, 2000)];
    ReachesOn(Init, events, st, Serve(500));
    ReachesOn(Init, events + [Serve(500)], mid, Deliver);
    events, last := events + [Serve(500)] + [Deliver], Next(mid, Deliver);
  }
}
