/** Reliable input end to end: one browser session, its sockets, the server's ledgers, and any
    number of other clients of the same server.

    Every byte the session ever accepted has a position in `history`; `out` is this session's bytes
    in the order they were written to the PTY, and `pty` the positions they were sent from. A socket is two
    FIFO queues that outlive the client's interest in it, so an old socket can still deliver. */
module InputProtocol {
  import opened Sequences
  import opened Outbox
  import Framing
  import Registry

  type Sock = Registry.Sock

  /** The resume key: routing id plus page instance, so no other page uses it. */
  const KEY: Registry.Key := "session#page"

  datatype Up = ResumeMsg(sentBytes: nat) | InputMsg(at: nat, data: seq<Byte>)
  datatype Down = ReplyMsg(ack: ResumeAck) | AckMsg(received: nat)

  /** `born` is the server process the socket was opened to. */
  datatype Link = Offline | Online(sock: Sock, upgraded: bool, born: nat)

  /** `base` is the position at which the current counters start (their last reset), `written` how
      many positions from there on have been written, `heard` the sockets whose resumeAck was
      processed, and `joined` whether one of those reached the ledger the server holds now. */
  datatype State = State(
    history: seq<Byte>, base: nat, ledger: Ledger, link: Link,
    up: map<Sock, seq<Up>>, down: map<Sock, seq<Down>>,
    reg: Registry.State, serverEpoch: nat,
    written: nat, pty: seq<nat>, out: seq<Byte>, joined: bool, heard: set<Sock>)

  const Init := State([], 0, NewLedger, Offline, map[], map[], Registry.Empty, 1, 0, [], [], false, {})

  datatype Label =
    | Type(data: seq<Byte>)            // the page sends input
    | Seed(epoch: nat)                 // the page adopts a persisted epoch
    | Open(s: Sock)                    // a socket opens and sends its resume
    | Drop                             // the client gives its socket up
    | Receive(v4: bool)                // the client reads one server message; v4: the server speaks v4
    | FlushAck(s: Sock, received: nat) // a content or ack-only frame carries an ack
    | Restart(epoch: nat)              // the server process is replaced
    | Server(e: Registry.Label)        // one critical section of the server, for any client

  function Range(from: nat, count: nat): (r: seq<nat>)
    ensures |r| == count && forall i :: 0 <= i < count ==> r[i] == from + i
  {
    seq(count, i requires 0 <= i => from + i)
  }

  function InputMsgs(at: nat, frames: seq<seq<Byte>>): seq<Up>
    decreases |frames|
  {
    if frames == [] then [] else [InputMsg(at, frames[0])] + InputMsgs(at + |frames[0]|, frames[1..])
  }

  predicate Ours(st: State, s: Sock) { s in st.up && s in st.down && s in st.reg.conns }

  predicate HeadIsResume(q: seq<Up>) { q != [] && q[0].ResumeMsg? }

  predicate HeadIsInput(q: seq<Up>, data: seq<Byte>) { q != [] && q[0].InputMsg? && q[0].data == data }

  function ReceivedAt(st: State, s: Sock): nat {
    if s in st.reg.conns && st.reg.conns[s].session.Some? && st.reg.conns[s].session.value in st.reg.ledgers
    then st.reg.ledgers[st.reg.conns[s].session.value].received else 0
  }

  predicate Enabled(st: State, e: Label) {
    match e
    case Type(data) => st.link.Online? ==> Ours(st, st.link.sock)
    case Seed(epoch) => true
    case Open(s) => st.link.Offline? && s !in st.reg.conns && s !in st.up && s !in st.down
    case Drop => st.link.Online?
    case Receive(v4) => st.link.Online? && Ours(st, st.link.sock) && st.down[st.link.sock] != []
    case FlushAck(s, received) => Ours(st, s) && st.reg.conns[s].registered && received <= ReceivedAt(st, s)
    case Restart(epoch) => epoch > st.serverEpoch
    case Server(e) =>
      && Registry.Enabled(st.reg, e)
      && match e
         case Accept(s) => s !in st.up && s !in st.down
         case Lookup(s, key, newId) => if Ours(st, s) then key == KEY && HeadIsResume(st.up[s]) else key != KEY
         case Apply(s, data) => Ours(st, s) ==> HeadIsInput(st.up[s], data)
         case Reply(s) => Ours(st, s) ==> HeadIsResume(st.up[s])
         case _ => true
  }

  function Push(st: State, s: Sock, ms: seq<Up>): State
    requires s in st.up
  {
    st.(up := st.up[s := st.up[s] + ms])
  }

  function DoType(st: State, data: seq<Byte>): State
    requires Enabled(st, Type(data))
  {
    var (ledger, accepted) := SendBinary(st.ledger, data);
    if !accepted then st
    else
      var st1 := st.(ledger := ledger, history := st.history + data);
      if st.link.Offline? then st1
      else Push(st1, st.link.sock, InputMsgs(|st.history|, Framing.InputFrames(st.link.upgraded, data)))
  }

  function DoReply(st: State, m: ResumeAck, v4: bool): State
    requires st.link.Online? && st.link.sock in st.up
  {
    var c := st.link.sock;
    var o := OnResumeAck(st.ledger, m);
    var reset := EpochChanged(st.ledger, m) || !o.retransmit;
    var st1 := st.(ledger := o.ledger, base := if reset then |st.history| else st.base,
                   written := if reset then 0 else st.written,
                   link := st.link.(upgraded := st.link.upgraded || v4),
                   heard := st.heard + {c},
                   joined := st.joined || (c in st.reg.conns && st.reg.conns[c].registered));
    if o.retransmit
    then Push(st1, c, InputMsgs(st1.base + o.ledger.acked, FramesOf(st1.link.upgraded, o.ledger.outbox)))
    else st1
  }

  function DoReceive(st: State, v4: bool): State
    requires Enabled(st, Receive(v4))
  {
    var c := st.link.sock;
    var st1 := st.(down := st.down[c := st.down[c][1..]]);
    match st.down[c][0]
    case AckMsg(received) => st1.(ledger := ApplyAck(st.ledger, received))
    case ReplyMsg(m) => DoReply(st1, m, v4)
  }

  function DoServer(st: State, e: Registry.Label): State
    requires Enabled(st, Server(e))
  {
    var st1 := st.(reg := Registry.Next(st.reg, e));
    match e
    case Lookup(s, key, newId) =>
      if key == KEY && KEY !in st.reg.sessions then st1.(joined := false) else st1
    case Reclaim(key) => if key == KEY then st1.(joined := false) else st1
    case Reply(s) =>
      if !Ours(st, s) || st.reg.conns[s].fenced then st1
      else
        var p := st.reg.conns[s].phase;
        var m := ResumeAck(p.ack, Some(st.serverEpoch), p.created && st.up[s][0].sentBytes > 0);
        st1.(up := st.up[s := st.up[s][1..]], down := st.down[s := st.down[s] + [ReplyMsg(m)]])
    case Apply(s, data) =>
      if !Ours(st, s) then st1
      else
        var session := st.reg.conns[s].session;
        var st2 := st1.(up := st.up[s := st.up[s][1..]]);
        if session.Some? && !Registry.Owns(st.reg, s, session.value) then st2
        else st2.(written := st.written + |data|, pty := st.pty + Range(st.up[s][0].at, |data|), out := st.out + data)
    case _ => st1
  }

  function Next(st: State, e: Label): State
    requires Enabled(st, e)
  {
    match e
    case Type(data) => DoType(st, data)
    case Seed(epoch) => st.(ledger := AdoptEpoch(st.ledger, epoch))
    case Open(s) =>
      st.(link := Online(s, false, st.serverEpoch),
          up := st.up[s := [ResumeMsg(st.ledger.sent)]], down := st.down[s := []],
          reg := Registry.Next(st.reg, Registry.Accept(s)))
    case Drop => st.(link := Offline)
    case Receive(v4) => DoReceive(st, v4)
    case FlushAck(s, received) => st.(down := st.down[s := st.down[s] + [AckMsg(received)]])
    case Restart(epoch) => st.(reg := Registry.Crash(st.reg), serverEpoch := epoch, joined := false)
    case Server(e) => DoServer(st, e)
  }

  // ---- the two conditions exactly-once delivery rests on ----

  ghost predicate Unattached(reg: Registry.State, l: Registry.LedgerId) {
    forall s :: s in reg.conns && reg.conns[s].registered ==> reg.conns[s].session != Some(l)
  }

  /** A ledger is safe to forget when it counted nothing, or when the client has seen an ack for
      part of what it counted and so will recognize the count of zero that replaces it. */
  predicate SafeToForget(st: State) {
    KEY in st.reg.sessions && st.reg.sessions[KEY] in st.reg.ledgers ==>
      st.reg.ledgers[st.reg.sessions[KEY]].received == 0 || st.ledger.acked > 0
  }

  /** No input between a socket's open and its resumeAck; no ledger forgotten while a connected
      socket holds it, nor while it is unsafe to. */
  ghost predicate Guarded(st: State, e: Label) {
    match e
    case Type(data) => st.link.Online? ==> st.link.sock in st.heard
    case Server(Reclaim(key)) =>
      key == KEY && KEY in st.reg.sessions ==> Unattached(st.reg, st.reg.sessions[KEY]) && SafeToForget(st)
    case _ => true
  }
}
