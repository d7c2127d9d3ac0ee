/** Client-to-server framing over one FIFO socket: the v3 sentinel form, the v4 typed form, and
    the upgrade between them.

    A v3 binary message that starts with 0x00 may be a control; every other binary message is
    input. After the upgrade latches, binary is always input and text is always a control. */
module Framing {
  import opened Sequences

  datatype Control =
    | Resume(version: nat)
    | Resize(cols: int, rows: int)
    | Ping
    | History(fromAbs: int, maxLines: int)
    | Focus(focused: bool)
    | EphemeralInput(data: string)
    | Upgrade
    | Unknown(kind: string)

  datatype Message = Binary(bytes: seq<Byte>) | Text(bytes: seq<Byte>)

  /** The JSON library, as far as framing depends on it. */
  datatype Json = Json(parse: seq<Byte> -> Option<Control>, show: Control -> seq<Byte>, utf8: seq<Byte> -> bool)

  /** The empty payload is not JSON, and printed controls are valid UTF-8 that parses back. */
  ghost predicate Faithful(j: Json) {
    j.parse([]) == None && forall c :: j.parse(j.show(c)) == Some(c) && j.utf8(j.show(c))
  }

  const TYPED_FRAMING_MIN_VERSION := 4
  const WIRE_PROTOCOL_VERSION := 4
  const MIN_SUPPORTED_CLIENT_VERSION := 3

  // ---- the client's encoders ----

  /** The messages one input chunk becomes: verbatim when upgraded, else one message per leading NUL
      and one for the rest. */
  function InputFrames(upgraded: bool, chunk: seq<Byte>): (frames: seq<seq<Byte>>)
    decreases |chunk|
  {
    if chunk == [] then []
    else if !upgraded && chunk[0] == 0 then [[0]] + InputFrames(upgraded, chunk[1..])
    else [chunk]
  }

  /** Splitting changes how many messages there are, never the bytes or their order, and on a socket
      that is not upgraded no message but a lone NUL starts with NUL. */
  lemma {:induction false} InputFramesCarryTheChunk(upgraded: bool, chunk: seq<Byte>)
    ensures Flatten(InputFrames(upgraded, chunk)) == chunk
    ensures forall f :: f in InputFrames(upgraded, chunk) ==> f != [] && (!upgraded && f[0] == 0 ==> f == [0])
    decreases |chunk|
  {
    if chunk != [] {
      if !upgraded && chunk[0] == 0 {
        InputFramesCarryTheChunk(upgraded, chunk[1..]);
        assert Flatten([[0 as Byte]] + InputFrames(upgraded, chunk[1..])) == [0] + Flatten(InputFrames(upgraded, chunk[1..])) by {
          assert ([[0 as Byte]] + InputFrames(upgraded, chunk[1..]))[1..] == InputFrames(upgraded, chunk[1..]);
        }
      } else {
        FlattenSingleton(chunk);
      }
    }
  }

  method SendInputFrames(upgraded: bool, chunk: seq<Byte>) returns (frames: seq<seq<Byte>>)
    ensures frames == InputFrames(upgraded, chunk)
  {
    frames := [];
    var rest := chunk;
    if !upgraded {
      while |rest| > 0 && rest[0] == 0
        invariant frames + InputFrames(upgraded, rest) == InputFrames(upgraded, chunk)
        decreases |rest|
      {
        frames := frames + [[0]];
        rest := rest[1..];
      }
    }
    if |rest| > 0 {
      frames := frames + [rest];
    }
  }

  function ControlMessage(j: Json, upgraded: bool, c: Control): Message {
    if upgraded then Text(j.show(c)) else Binary([0] + j.show(c))
  }

  // ---- the server's read loop ----

  /** The read loop's framing flags, and what reached the PTY and the control dispatcher so far. */
  datatype Server = Server(armed: bool, latched: bool, closed: bool, pty: seq<Byte>, controls: seq<Control>)

  const Opened := Server(false, false, false, [], [])

  datatype Disposition = Disposition(parsed: bool, known: bool, armsV4: bool, closed: bool)

  function Dispatch(j: Json, payload: seq<Byte>): Disposition {
    match j.parse(payload)
    case None => Disposition(false, false, false, false)
    case Some(Resume(v)) =>
      if v != 0 && v < MIN_SUPPORTED_CLIENT_VERSION then Disposition(true, true, false, true)
      else Disposition(true, true, v >= TYPED_FRAMING_MIN_VERSION, false)
    case Some(Unknown(_)) => Disposition(true, false, false, false)
    case Some(_) => Disposition(true, true, false, false)
  }

  function NoteControl(j: Json, sv: Server, payload: seq<Byte>): Server {
    match j.parse(payload) case None => sv case Some(c) => sv.(controls := sv.controls + [c])
  }

  function HandleBinary(j: Json, sv: Server, msg: seq<Byte>): Server
    requires msg != []
  {
    var d := if !sv.latched && msg[0] == 0 then Dispatch(j, msg[1..]) else Disposition(false, false, false, false);
    if d.parsed then NoteControl(j, sv, msg[1..]).(armed := sv.armed || d.armsV4, closed := d.closed)
    else sv.(pty := sv.pty + msg)
  }

  function HandleText(j: Json, sv: Server, msg: seq<Byte>): Server {
    if !j.utf8(msg) || msg == [] || !sv.armed then sv.(closed := true)
    else
      var d := Dispatch(j, msg);
      var sv1 := NoteControl(j, sv, msg);
      if d.closed || !d.parsed then sv1.(closed := true)
      else if d.known then sv1.(latched := true, armed := sv.armed || d.armsV4)
      else if !sv.latched then sv1.(closed := true)
      else sv1
  }

  function Read(j: Json, sv: Server, m: Message): Server {
    if sv.closed then sv
    else match m
      case Text(bytes) => HandleText(j, sv, bytes)
      case Binary(bytes) => if bytes == [] then sv else HandleBinary(j, sv, bytes)
  }

  function ReadAll(j: Json, sv: Server, ms: seq<Message>): Server
    decreases |ms|
  {
    if ms == [] then sv else ReadAll(j, Read(j, sv, ms[0]), ms[1..])
  }

  lemma {:induction false} ReadAllConcat(j: Json, sv: Server, a: seq<Message>, b: seq<Message>)
    ensures ReadAll(j, sv, a + b) == ReadAll(j, ReadAll(j, sv, a), b)
    decreases |a|
  {
    if a == [] {
      assert a + b == b;
    } else {
      assert (a + b)[0] == a[0] && (a + b)[1..] == a[1..] + b;
      ReadAllConcat(j, Read(j, sv, a[0]), a[1..], b);
    }
  }

  // ---- a v4 client's socket ----

  /** What happens on the client's side of one socket after its resume went out. */
  datatype Event = Input(chunk: seq<Byte>) | SendControl(control: Control) | ResumeAck(serverVersion: Option<nat>)

  /** The client sends one resume per socket and sends the upgrade only from its resumeAck handler. */
  predicate ClientSends(c: Control) { !c.Resume? && !c.Upgrade? && !c.Unknown? }

  predicate EventOk(e: Event) { e.SendControl? ==> ClientSends(e.control) }

  ghost predicate EventsOk(events: seq<Event>) { forall e :: e in events ==> EventOk(e) }

  function AsBinary(frames: seq<seq<Byte>>): (ms: seq<Message>)
    ensures |ms| == |frames| && forall i :: 0 <= i < |ms| ==> ms[i] == Binary(frames[i])
  {
    seq(|frames|, i requires 0 <= i < |frames| => Binary(frames[i]))
  }

  predicate Upgrades(upgraded: bool, e: Event) {
    e.ResumeAck? && e.serverVersion.Some? && e.serverVersion.value >= TYPED_FRAMING_MIN_VERSION && !upgraded
  }

  function Sent(j: Json, upgraded: bool, e: Event): seq<Message> {
    match e
    case Input(chunk) => AsBinary(InputFrames(upgraded, chunk))
    case SendControl(c) => [ControlMessage(j, upgraded, c)]
    case ResumeAck(_) => if Upgrades(upgraded, e) then [Text(j.show(Upgrade))] else []
  }

  function WireFrom(j: Json, upgraded: bool, events: seq<Event>): seq<Message>
    decreases |events|
  {
    if events == [] then []
    else Sent(j, upgraded, events[0]) + WireFrom(j, upgraded || Upgrades(upgraded, events[0]), events[1..])
  }

  /** What opens a socket: the size when it is known, then the resume. */
  function Opening(size: Option<(int, int)>): seq<Control> {
    (if size.Some? then [Resize(size.value.0, size.value.1)] else []) + [Resume(WIRE_PROTOCOL_VERSION)]
  }

  function Sentinels(j: Json, cs: seq<Control>): (ms: seq<Message>)
    ensures |ms| == |cs| && forall i :: 0 <= i < |ms| ==> ms[i] == ControlMessage(j, false, cs[i])
  {
    seq(|cs|, i requires 0 <= i < |cs| => ControlMessage(j, false, cs[i]))
  }

  /** Everything the client puts on the socket: its opening in sentinel form first. */
  function Wire(j: Json, size: Option<(int, int)>, events: seq<Event>): seq<Message> {
    Sentinels(j, Opening(size)) + WireFrom(j, false, events)
  }

  function Inputs(events: seq<Event>): seq<Byte> {
    if events == [] then []
    else (if events[0].Input? then events[0].chunk else []) + Inputs(events[1..])
  }

  function Controls(upgraded: bool, events: seq<Event>): seq<Control>
    decreases |events|
  {
    if events == [] then []
    else (match events[0]
          case Input(_) => []
          case SendControl(c) => [c]
          case ResumeAck(_) => if Upgrades(upgraded, events[0]) then [Upgrade] else [])
         + Controls(upgraded || Upgrades(upgraded, events[0]), events[1..])
  }

  function UpgradedAfter(upgraded: bool, events: seq<Event>): bool
    decreases |events|
  {
    if events == [] then upgraded else UpgradedAfter(upgraded || Upgrades(upgraded, events[0]), events[1..])
  }

  lemma {:induction false} ReadInputFrames(j: Json, sv: Server, frames: seq<seq<Byte>>)
    requires Faithful(j) && !sv.closed
    requires forall f :: f in frames ==> f != [] && (!sv.latched && f[0] == 0 ==> f == [0])
    ensures ReadAll(j, sv, AsBinary(frames)) == sv.(pty := sv.pty + Flatten(frames))
    decreases |frames|
  {
    if frames == [] {
      assert sv.pty + Flatten(frames) == sv.pty;
    } else {
      var f := frames[0];
      assert f in frames;
      assert f[0] == 0 && !sv.latched ==> f[1..] == [];
      var sv1 := Read(j, sv, Binary(f));
      assert sv1 == sv.(pty := sv.pty + f);
      assert AsBinary(frames)[1..] == AsBinary(frames[1..]);
      forall g | g in frames[1..] ensures g in frames {}
      ReadInputFrames(j, sv1, frames[1..]);
      assert sv.pty + f + Flatten(frames[1..]) == sv.pty + (f + Flatten(frames[1..]));
    }
  }

  lemma ReadEvent(j: Json, sv: Server, e: Event)
    requires Faithful(j) && EventOk(e) && sv.armed && !sv.closed
    ensures ReadAll(j, sv, Sent(j, sv.latched, e)) ==
            sv.(latched := sv.latched || Upgrades(sv.latched, e),
                pty := sv.pty + Inputs([e]), controls := sv.controls + Controls(sv.latched, [e]))
  {
    match e
    case Input(chunk) =>
      InputFramesCarryTheChunk(sv.latched, chunk);
      ReadInputFrames(j, sv, InputFrames(sv.latched, chunk));
    case SendControl(c) =>
      var m := ControlMessage(j, sv.latched, c);
      assert ([0] + j.show(c))[1..] == j.show(c);
      assert j.show(c) != [];
      assert ReadAll(j, sv, [m]) == ReadAll(j, Read(j, sv, m), []);
    case ResumeAck(_) =>
      if Upgrades(sv.latched, e) {
        var m := Text(j.show(Upgrade));
        assert j.show(Upgrade) != [];
        assert ReadAll(j, sv, [m]) == ReadAll(j, Read(j, sv, m), []);
      }
  }

  lemma SplitFirst(upgraded: bool, events: seq<Event>)
    requires events != []
    ensures Inputs(events) == Inputs([events[0]]) + Inputs(events[1..])
    ensures Controls(upgraded, events)
         == Controls(upgraded, [events[0]]) + Controls(upgraded || Upgrades(upgraded, events[0]), events[1..])
  {}

  lemma {:induction false} ReadWireFrom(j: Json, sv: Server, events: seq<Event>)
    requires Faithful(j) && EventsOk(events) && sv.armed && !sv.closed
    ensures ReadAll(j, sv, WireFrom(j, sv.latched, events)) ==
            sv.(latched := UpgradedAfter(sv.latched, events),
                pty := sv.pty + Inputs(events), controls := sv.controls + Controls(sv.latched, events))
    decreases |events|
  {
    if events == [] {
      assert sv.pty + Inputs(events) == sv.pty && sv.controls + Controls(sv.latched, events) == sv.controls;
    } else {
      var e, rest := events[0], events[1..];
      var up := sv.latched || Upgrades(sv.latched, e);
      assert e in events;
      forall x | x in rest ensures x in events {}
      ReadEvent(j, sv, e);
      var sv1 := ReadAll(j, sv, Sent(j, sv.latched, e));
      ReadAllConcat(j, sv, Sent(j, sv.latched, e), WireFrom(j, up, rest));
      ReadWireFrom(j, sv1, rest);
      SplitFirst(sv.latched, events);
      Regroup(sv.pty, Inputs([e]), Inputs(rest));
      Regroup(sv.controls, Controls(sv.latched, [e]), Controls(up, rest));
    }
  }

  lemma Regroup<T>(a: seq<T>, b: seq<T>, c: seq<T>)
    ensures (a + b) + c == a + (b + c)
  {}

  /** A sentinel control of a socket not latched is dispatched. */
  lemma ReadSentinel(j: Json, sv: Server, c: Control)
    requires Faithful(j) && !sv.closed && !sv.latched && (c.Resize? || c == Resume(WIRE_PROTOCOL_VERSION))
    ensures Read(j, sv, ControlMessage(j, false, c)) == sv.(armed := sv.armed || c.Resume?, controls := sv.controls + [c])
  {
    assert ([0] + j.show(c))[1..] == j.show(c);
  }

  lemma ReadOpening(j: Json, size: Option<(int, int)>)
    requires Faithful(j)
    ensures ReadAll(j, Opened, Sentinels(j, Opening(size))) == Server(true, false, false, [], Opening(size))
  {
    var cs := Opening(size);
    var ms := Sentinels(j, cs);
    ReadSentinel(j, Opened, cs[0]);
    var sv := Read(j, Opened, ms[0]);
    assert ReadAll(j, Opened, ms) == ReadAll(j, sv, ms[1..]);
    assert [] + [cs[0]] == [cs[0]];
    if size.Some? {
      ReadSentinel(j, sv, cs[1]);
      assert ReadAll(j, sv, ms[1..]) == ReadAll(j, Read(j, sv, ms[1]), ms[1..][1..]);
      assert [cs[0]] + [cs[1]] == cs;
    }
  }

  /** Framing is transparent: whatever a v4 client does on a socket, with a size known or not, and wherever the upgrade
      falls, the PTY gets exactly the input bytes, the dispatcher exactly the controls, and the server never closes the
      socket over framing. */
  lemma FramingIsTransparent(j: Json, size: Option<(int, int)>, events: seq<Event>)
    requires Faithful(j) && EventsOk(events)
    ensures ReadAll(j, Opened, Wire(j, size, events)) ==
            Server(true, UpgradedAfter(false, events), false, Inputs(events), Opening(size) + Controls(false, events))
  {
    var opening := Sentinels(j, Opening(size));
    ReadOpening(j, size);
    var sv := ReadAll(j, Opened, opening);
    ReadAllConcat(j, Opened, opening, WireFrom(j, false, events));
    ReadWireFrom(j, sv, events);
    assert [] + Inputs(events) == Inputs(events);
  }

  /** Input that looks like a sentinel control would be swallowed if it were sent unsplit before the
      upgrade: this is what splitting leading NULs is for. */
  lemma UnsplitSentinelIsSwallowed(j: Json, sv: Server, c: Control)
    requires Faithful(j) && !sv.closed && !sv.latched
    ensures Read(j, sv, Binary([0] + j.show(c))).pty == sv.pty
    ensures Flatten(InputFrames(false, [0] + j.show(c))) == [0] + j.show(c)
  {
    assert ([0] + j.show(c))[1..] == j.show(c);
    InputFramesCarryTheChunk(false, [0] + j.show(c));
  }

  /** A sentinel control sent after the latch is typed into the program instead of dispatched. */
  lemma LatchedSentinelIsTyped(j: Json, sv: Server, c: Control)
    requires !sv.closed && sv.latched
    ensures Read(j, sv, ControlMessage(j, false, c)) == sv.(pty := sv.pty + [0] + j.show(c))
  {}
}
