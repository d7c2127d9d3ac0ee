/** The byte parser: the table, the parameter array and the pen together, what each byte dispatches, and the round
    trip of a style through all of it. */
module Parser {
  import opened Sequences
  import opened Params
  import opened ParserTable
  import opened Sgr
  import opened SgrRoundTrip

  const ESC: Byte := 0x1B
  const BEL: Byte := 0x07

  /** The final bytes of an escape sequence, which introduce nothing. */
  predicate EndsEscape(b: Byte) {
    0x30 <= b < 0x7F && b != 0x50 && b != 0x58 && b != 0x5B && b != 0x5D && b != 0x5E && b != 0x5F
  }

  /** How many bytes a character has that begins with `b`. */
  function SequenceLength(b: Byte): nat { if b < 0xE0 then 2 else if b < 0xF0 then 3 else 4 }

  /** The intermediate bytes that consume a control sequence whatever its final byte; after any other
      the final byte is dispatched as if there were no intermediate. */
  predicate ConsumesSequence(b: Byte) {
    b == 0x20 || b == 0x21 || b == 0x22 || b == 0x24 || b == 0x27 || b == 0x2A
  }

  /** The longest operating-system command kept. */
  const MAX_OSC_LEN: nat := 4096

  const REPLACEMENT: nat := 0xFFFD

  /** What one byte gives the screen to carry out. */
  datatype Report =
    | Ascii(b: Byte)
    | Rune(r: nat)
    | Control(b: Byte)
    | Escape(interm: Option<Byte>, final: Byte)
    | Csi(marker: Byte, interm: Option<Byte>, final: Byte)
    | Osc(payload: seq<Byte>)

  function Continuation(b: Byte): nat { b % 64 }

  /** The character of a whole UTF-8 sequence; an overlong form, a surrogate, a value past U+10FFFF and U+FFFF are
      replaced. */
  function DecodeUtf8(buf: seq<Byte>): (r: nat)
    ensures r <= 0x10FFFF && !(0xD800 <= r <= 0xDFFF) && r != 0xFFFF
  {
    var (r, least) :=
      if |buf| == 2 then (buf[0] % 32 * 64 + Continuation(buf[1]), 0x80)
      else if |buf| == 3 then (buf[0] % 16 * 4096 + Continuation(buf[1]) * 64 + Continuation(buf[2]), 0x800)
      else if |buf| == 4 then
        (buf[0] % 8 * 262144 + Continuation(buf[1]) * 4096 + Continuation(buf[2]) * 64 + Continuation(buf[3]), 0x10000)
      else (REPLACEMENT, 0);
    if r < least || r > 0x10FFFF || 0xD800 <= r <= 0xDFFF || r == 0xFFFF then REPLACEMENT else r
  }

  /** The actions inside a sequence, after which the parameters still stand for the text read. */
  predicate InSequence(act: Action) {
    act == Nothing || act == Param || act == Subparam || act == Marker || act == Execute || act == Collect
  }

  class Parser {
    const table: seq<seq<Transition>>
    const params: ParserState
    const pen: Pen
    var state: PState
    var utf8Len: nat
    var utf8Got: nat
    var privateMarker: Byte
    var numInterm: nat
    var firstInterm: Byte
    var utf8Buf: seq<Byte>
    var oscBuf: seq<Byte>
    var oscOverflow: bool

    /** What the last byte gave the screen to carry out. */
    var out: seq<Report>

    /** The parameter text read since the parameters were last cleared. */
    ghost var text: string

    ghost predicate Valid()
      reads this, params, params.params, params.groupLen
    {
      && TableOk(table) && params.Valid()
      && (state == CSI_ENTRY || state == CSI_PARAM || state == CSI_INTERMEDIATE ==> params.Tracks(text))
      && (state == CSI_ENTRY ==> text == "" && privateMarker == 0 && numInterm == 0) && (state == ESCAPE ==> numInterm == 0)
      && (utf8Len > 0 ==> state == GROUND && 2 <= utf8Len <= 4 && 1 <= utf8Got == |utf8Buf| < utf8Len)
    }

    constructor ()
      ensures Valid() && state == GROUND && utf8Len == 0 && fresh(params) && fresh(params.params) && fresh(params.groupLen) && fresh(pen)
    {
      var t := BuildTable();
      var ps := new ParserState();
      var p := new Pen(PLAIN);
      table, params, pen := t, ps, p;
      state, utf8Len, utf8Got, privateMarker, numInterm, firstInterm, text := GROUND, 0, 0, 0, 0, 0, "";
      utf8Buf, oscBuf, oscOverflow, out := [], [], false, [];
    }

    /** A sequence that ends in `m` now sets the pen: it has no private marker, and no intermediate byte
        that takes it elsewhere. */
    predicate SetsPen() reads this`privateMarker, this`numInterm, this`firstInterm {
      privateMarker == 0 && !(numInterm > 0 && ConsumesSequence(firstInterm))
    }

    function Interm(): Option<Byte> reads this`numInterm, this`firstInterm { if numInterm > 0 then Some(firstInterm) else None }

    /** What an action gives the screen to carry out. */
    function Reported(act: Action, b: Byte): seq<Report>
      reads this`privateMarker, this`numInterm, this`firstInterm, this`oscBuf, this`oscOverflow
    {
      match act
      case Print => if b < 0x80 then [Ascii(b)] else if 0xC0 <= b < 0xF8 then [] else [Rune(REPLACEMENT)]
      case Execute => [Control(b)]
      case EscDispatch => [Escape(Interm(), b)]
      case CsiDispatch => [Csi(privateMarker, Interm(), b)]
      case OscEnd => if oscOverflow then [] else [Osc(oscBuf)]
      case _ => []
    }

    /** What a byte's transition gives the screen: the string it ends unless it cancels it, and its own action. */
    ghost function TransitionReports(b: Byte): seq<Report>
      reads this`state, this`privateMarker, this`numInterm, this`firstInterm, this`oscBuf, this`oscOverflow
    {
      var t := Meaning(state, b);
      if t == Unset then [] else
      (if t.next != state && b != 0x18 && b != 0x1A then Reported(ExitAction(state), b) else []) + Reported(t.act, b)
    }

    /** What one byte gives the screen: the end of a UTF-8 character, or the replacement of one it cuts short and then
        what its transition gives. */
    ghost function Reports(b: Byte): seq<Report>
      reads this
    {
      if utf8Len > 0 && 0x80 <= b < 0xC0 then if utf8Got + 1 == utf8Len then [Rune(DecodeUtf8(utf8Buf + [b]))] else []
      else (if utf8Len > 0 then [Rune(REPLACEMENT)] else []) + TransitionReports(b)
    }

    /** Carries out one action: on the parameters, the pen, the collected strings, or by a report to the screen. */
    method DoAction(act: Action, b: Byte)
      requires params.Valid()
      requires act == Param ==> 0x30 <= b <= 0x39 || b == 0x3B
      modifies this`privateMarker, this`numInterm, this`firstInterm, this`utf8Len, this`utf8Got, this`utf8Buf, this`oscBuf, this`oscOverflow
      modifies this`out, params, params.params, params.groupLen, pen
      ensures params.Valid() && out == old(out) + old(Reported(act, b))
      ensures act != Print ==> utf8Len == old(utf8Len) && utf8Got == old(utf8Got) && utf8Buf == old(utf8Buf)
      ensures act == Print && old(utf8Len) == 0 ==> if 0xC0 <= b < 0xF8 then utf8Len == SequenceLength(b) && utf8Got == 1 && utf8Buf == [b] else utf8Len == 0
      ensures act !in {OscStart, OscPut, OscEnd} ==> oscBuf == old(oscBuf) && oscOverflow == old(oscOverflow)
      ensures act == OscStart ==> oscBuf == [] && !oscOverflow
      ensures act == OscPut && |old(oscBuf)| < MAX_OSC_LEN ==> oscBuf == old(oscBuf) + [b] && oscOverflow == old(oscOverflow)
      ensures act == CsiDispatch ==> forall t :: old(params.Tracks(t)) ==> params.groups == Keep(GroupsOf(t), MAX_PARAMS)
      ensures act == Clear ==> params.Tracks("") && privateMarker == 0 && numInterm == 0
      ensures act != Clear ==> privateMarker == if act == Marker then b else old(privateMarker)
      ensures act != Clear && act != Collect ==> numInterm == old(numInterm) && firstInterm == old(firstInterm)
      ensures act == Collect && old(numInterm) == 0 ==> numInterm == 1 && firstInterm == b
      ensures act == Param ==> forall t :: old(params.Tracks(t)) ==> params.Tracks(t + [b as char])
      ensures act == Subparam ==> forall t :: old(params.Tracks(t)) ==> params.Tracks(t + [':'])
      ensures act != Clear && act != Param && act != Subparam && act != CsiDispatch && act != Hook ==>
        forall t :: old(params.Tracks(t)) ==> params.Tracks(t)
      ensures act == CsiDispatch && b == 'm' as int && old(SetsPen()) ==>
        forall t :: old(params.Tracks(t)) ==> pen.style == Apply(Clipped(Keep(GroupsOf(t), MAX_PARAMS)), old(pen.style))
      ensures act == CsiDispatch && !(b == 'm' as int && old(SetsPen())) ==> pen.style == old(pen.style)
      ensures act != CsiDispatch ==> pen.style == old(pen.style)
    {
      hide GroupsOf, Keep, Clipped, Reported, Apply, ParserState.Valid, ParserState.Tracks, SetsPen;
      var report := Reported(act, b);
      if act in {Param, Subparam, CsiDispatch, Hook} {
        OnParams(act, b);
      } else if act == Clear {
        HasRoom();
        params.ParserClear();
        privateMarker, numInterm := 0, 0;
      } else {
        Gather(act, b);
      }
      out := out + report;
    }

    lemma HasRoom()
      requires params.Valid()
      ensures params.params.Length == params.groupLen.Length == MAX_PARAMS && params.params != params.groupLen
    {}

    /** The actions that read the parameters, or act on them. */
    method OnParams(act: Action, b: Byte)
      requires params.Valid()
      requires act == Param ==> 0x30 <= b <= 0x39 || b == 0x3B
      modifies params, params.params, params.groupLen, pen
      ensures params.Valid()
      ensures act == Param ==> forall t :: old(params.Tracks(t)) ==> params.Tracks(t + [b as char])
      ensures act == Subparam ==> forall t :: old(params.Tracks(t)) ==> params.Tracks(t + [':'])
      ensures act == CsiDispatch ==> forall t :: old(params.Tracks(t)) ==> params.groups == Keep(GroupsOf(t), MAX_PARAMS)
      ensures act == CsiDispatch && b == 'm' as int && SetsPen() ==>
        forall t :: old(params.Tracks(t)) ==> pen.style == Apply(Clipped(Keep(GroupsOf(t), MAX_PARAMS)), old(pen.style))
      ensures act != CsiDispatch || b != 'm' as int || !SetsPen() ==> pen.style == old(pen.style)
    {
      hide GroupsOf, Keep, Clipped, Apply, ParserState.Valid, ParserState.Tracks, SetsPen;
      match act
      case Param => params.HandleParam(b as char);
      case Subparam => params.HandleSubparam();
      case CsiDispatch =>
        params.FinalizeParams();
        if b == 'm' as int && SetsPen() {
          pen.ApplySGR(params);
        }
      case Hook => params.FinalizeParams();
      case _ =>
    }

    /** The actions that collect an intermediate, a marker, a character or a string. */
    method Gather(act: Action, b: Byte)
      modifies this`privateMarker, this`numInterm, this`firstInterm, this`utf8Len, this`utf8Got, this`utf8Buf, this`oscBuf, this`oscOverflow
      ensures act != Print ==> utf8Len == old(utf8Len) && utf8Got == old(utf8Got) && utf8Buf == old(utf8Buf)
      ensures act == Print && old(utf8Len) == 0 ==> if 0xC0 <= b < 0xF8 then utf8Len == SequenceLength(b) && utf8Got == 1 && utf8Buf == [b] else utf8Len == 0
      ensures act !in {OscStart, OscPut, OscEnd} ==> oscBuf == old(oscBuf) && oscOverflow == old(oscOverflow)
      ensures act == OscStart ==> oscBuf == [] && !oscOverflow
      ensures act == OscPut && |old(oscBuf)| < MAX_OSC_LEN ==> oscBuf == old(oscBuf) + [b] && oscOverflow == old(oscOverflow)
      ensures privateMarker == if act == Marker then b else old(privateMarker)
      ensures act != Collect ==> numInterm == old(numInterm) && firstInterm == old(firstInterm)
      ensures act == Collect ==> numInterm == Min(old(numInterm) + 1, Max(old(numInterm), 2))
                                 && firstInterm == if old(numInterm) == 0 then b else old(firstInterm)
    {
      match act
      case Collect =>
        if numInterm < 2 {
          if numInterm == 0 {
            firstInterm := b;
          }
          numInterm := numInterm + 1;
        }
      case Marker => privateMarker := b;
      case Print =>
        if 0xC0 <= b < 0xF8 {
          utf8Len := SequenceLength(b);
          utf8Got, utf8Buf := 1, [b];
        }
      case OscStart => oscBuf, oscOverflow := [], false;
      case OscPut => if |oscBuf| < MAX_OSC_LEN { oscBuf := oscBuf + [b]; } else { oscOverflow := true; }
      case OscEnd => oscBuf := [];
      case _ =>
    }

    /** How a byte moves the parser through a character of several bytes. */
    twostate predicate CharacterFollows(b: Byte)
      reads this
    {
      && (old(state) == GROUND && old(utf8Len) == 0 && 0xC0 <= b < 0xF8 ==>
            state == GROUND && utf8Len == SequenceLength(b) && utf8Got == 1 && utf8Buf == [b])
      && (old(utf8Len) > 0 && 0x80 <= b < 0xC0 ==>
            && state == old(state)
            && if old(utf8Got) + 1 == old(utf8Len) then utf8Len == 0
               else utf8Len == old(utf8Len) && utf8Got == old(utf8Got) + 1 && utf8Buf == old(utf8Buf) + [b])
    }

    /** How a byte below 0x80 moves the parser where a sequence is introduced, read or dispatched. */
    twostate predicate Follows(b: Byte)
      reads this, params
    {
      && (b == ESC ==> state == ESCAPE)
      && (b == 0x5B && old(state) == ESCAPE ==> state == CSI_ENTRY)
      && (b != ESC && old(state) == GROUND ==> state == GROUND)
      && (b == '?' as int && old(state) == CSI_ENTRY ==> state == CSI_PARAM && privateMarker == b && text == "" && numInterm == 0)
      && (0x30 <= b <= 0x3B && (old(state) == CSI_ENTRY || old(state) == CSI_PARAM) ==>
            && state == CSI_PARAM && text == old(text) + [b as char]
            && privateMarker == old(privateMarker) && numInterm == old(numInterm))
      && (0x20 <= b < 0x30 && (old(state) == CSI_ENTRY || old(state) == CSI_PARAM) ==>
            && state == CSI_INTERMEDIATE && text == old(text) && privateMarker == old(privateMarker)
            && (old(numInterm) == 0 ==> numInterm == 1 && firstInterm == b))
      && (0x40 <= b < 0x7F && (old(state) == CSI_ENTRY || old(state) == CSI_PARAM || old(state) == CSI_INTERMEDIATE) ==>
            state == GROUND && params.groups == Keep(GroupsOf(old(text)), MAX_PARAMS))
    }

    /** How it moves the parser through an escape sequence or a string. */
    twostate predicate EscapeFollows(b: Byte)
      reads this
    {
      && (old(state) == ESCAPE && EndsEscape(b) ==> state == GROUND)
      && (old(state) == ESCAPE && 0x20 <= b < 0x30 ==> state == ESCAPE_INTERMEDIATE && numInterm == 1 && firstInterm == b)
      && (old(state) == ESCAPE_INTERMEDIATE && 0x30 <= b < 0x7F ==> state == GROUND)
      && (old(state) == ESCAPE && b == 0x5D ==> state == OSC_STRING && oscBuf == [] && !oscOverflow)
      && (old(state) == OSC_STRING && 0x20 <= b < 0x80 && |old(oscBuf)| < MAX_OSC_LEN ==>
            state == OSC_STRING && oscBuf == old(oscBuf) + [b] && oscOverflow == old(oscOverflow))
      && (old(state) == OSC_STRING && b == BEL ==> state == GROUND)
    }

    /** What such a byte does to the pen. */
    twostate predicate PenFollows(b: Byte)
      reads this, pen
    {
      && (b == ESC || (b == 0x5B && old(state) == ESCAPE) ==> pen.style == old(pen.style))
      && (0x30 <= b <= 0x3B && (old(state) == CSI_ENTRY || old(state) == CSI_PARAM) ==> pen.style == old(pen.style))
      && (b == 'm' as int && (old(state) == CSI_ENTRY || old(state) == CSI_PARAM) ==>
            pen.style == if old(SetsPen()) then Apply(Clipped(Keep(GroupsOf(old(text)), MAX_PARAMS)), old(pen.style)) else old(pen.style))
    }

    /** One byte. A pending UTF-8 character takes its continuation bytes first; any other byte cuts it short and is
        read as usual. */
    method Feed(b: Byte)
      requires Valid()
      modifies this, params, params.params, params.groupLen, pen
      ensures Valid() && Follows(b) && EscapeFollows(b) && CharacterFollows(b) && PenFollows(b) && out == old(Reports(b))
      ensures b < 0x80 ==> utf8Len == 0
    {
      hide GroupsOf, Keep, Clipped, Apply, DecodeUtf8, Meaning, Reported, ParserState.Tracks, ParserState.Valid, TableOk;
      out := [];
      if utf8Len > 0 {
        if 0x80 <= b < 0xC0 {
          utf8Got, utf8Buf := utf8Got + 1, utf8Buf + [b];
          if utf8Got == utf8Len {
            utf8Len := 0;
            out := [Rune(DecodeUtf8(utf8Buf))];
          }
          return;
        }
        utf8Len := 0;
        out := [Rune(REPLACEMENT)];
      }
      Transit(b);
    }

    /** What the bytes that introduce and read a control sequence report, and printable ones. */
    lemma WhatIsReported(b: Byte)
      requires utf8Len == 0
      ensures state == GROUND && 0x20 <= b < 0x7F ==> Reports(b) == [Ascii(b)]
      ensures state == GROUND && b < 0x20 && b != ESC ==> Reports(b) == [Control(b)]
      ensures b == ESC ==> Reports(b) == [] || (|Reports(b)| == 1 && Reports(b)[0].Osc?)
      ensures b == ESC && state == GROUND ==> Reports(b) == []
      ensures b == 0x5B && state == ESCAPE ==> Reports(b) == []
      ensures (state == CSI_ENTRY || state == CSI_PARAM) && 0x20 <= b <= 0x3B ==> Reports(b) == []
      ensures (state == CSI_ENTRY || state == CSI_PARAM || state == CSI_INTERMEDIATE) && 0x40 <= b < 0x7F ==>
        Reports(b) == [Csi(privateMarker, Interm(), b)]
      ensures state == CSI_ENTRY && b == '?' as int ==> Reports(b) == []
      ensures state == ESCAPE && EndsEscape(b) ==> Reports(b) == [Escape(Interm(), b)]
      ensures state == ESCAPE && (0x20 <= b < 0x30 || b == 0x5D) ==> Reports(b) == []
      ensures state == ESCAPE_INTERMEDIATE && 0x30 <= b < 0x7F ==> Reports(b) == [Escape(Interm(), b)]
      ensures state == OSC_STRING && 0x20 <= b < 0x80 ==> Reports(b) == []
      ensures state == OSC_STRING && b == BEL ==> Reports(b) == if oscOverflow then [] else [Osc(oscBuf)]
      ensures state == GROUND && 0xC0 <= b < 0xF8 ==> Reports(b) == []
      ensures state == GROUND && (0x80 <= b < 0xC0 || 0xF8 <= b) ==> Reports(b) == [Rune(REPLACEMENT)]
    {
      MeaningOf(state, b);
    }

    /** Text and its controls: without ESC nothing but characters and controls is ever reported from the ground state. */
    lemma TextIsReported(b: Byte)
      requires state == GROUND && b != ESC
      ensures forall r :: r in Reports(b) ==> r.Ascii? || r.Rune? || r.Control?
    {
      MeaningOf(state, b);
    }

    /** The start of a sequence cuts a pending character short. */
    lemma CutShort(b: Byte)
      requires state == GROUND && utf8Len > 0
      ensures b == ESC ==> Reports(b) == [Rune(REPLACEMENT)]
    {
      MeaningOf(state, b);
    }

    function LookUp(b: Byte): (t: Transition)
      requires TableOk(table)
      reads this`state
      ensures t == Meaning(state, b)
    {
      table[state][b]
    }

    /** One byte through the table: exit action, action, entry action. */
    method Transit(b: Byte)
      requires Valid() && utf8Len == 0
      modifies this, params, params.params, params.groupLen, pen
      ensures Valid() && Follows(b) && EscapeFollows(b) && CharacterFollows(b) && PenFollows(b) && out == old(out) + old(TransitionReports(b))
      ensures b < 0x80 ==> utf8Len == 0
    {
      hide GroupsOf, Keep, Clipped, Meaning, Apply, Reported, ParserState.Tracks, ParserState.Valid, SetsPen, TransitionReports, Interm, TableOk;
      MeaningOf(state, b);
      var t := LookUp(b);
      LeaveAndAct(b, t);
      if t.next != state {
        state := t.next;
        Enter(b);
      }
    }

    method LeaveAndAct(b: Byte, t: Transition)
      requires params.Valid() && utf8Len == 0 && t == Meaning(state, b) && t != Unset
      requires t.act == Param ==> 0x30 <= b <= 0x39 || b == 0x3B
      requires t.act == Subparam ==> b == 0x3A
      requires t.act != OscEnd
      modifies this`privateMarker, this`numInterm, this`firstInterm, this`utf8Len, this`utf8Got, this`utf8Buf, this`oscBuf, this`oscOverflow
      modifies this`out, this`text, params, params.params, params.groupLen, pen
      ensures params.Valid() && out == old(out) + old(TransitionReports(b))
      ensures if t.act == Print && 0xC0 <= b < 0xF8 then utf8Len == SequenceLength(b) && utf8Got == 1 && utf8Buf == [b] else utf8Len == 0
      ensures text == old(text) + if t.act == Param || t.act == Subparam then [b as char] else []
      ensures InSequence(t.act) && old(params.Tracks(text)) ==> params.Tracks(text)
      ensures t.act == Collect ==> privateMarker == old(privateMarker) && (old(numInterm) == 0 ==> numInterm == 1 && firstInterm == b)
      ensures InSequence(t.act) && t.act != Marker && t.act != Collect ==>
        privateMarker == old(privateMarker) && numInterm == old(numInterm) && firstInterm == old(firstInterm)
      ensures t.act == Marker ==> privateMarker == b && numInterm == old(numInterm)
      ensures t == To(OscPut, state) && |old(oscBuf)| < MAX_OSC_LEN ==> oscBuf == old(oscBuf) + [b] && oscOverflow == old(oscOverflow)
      ensures t.act == CsiDispatch && old(params.Tracks(text)) ==> params.groups == Keep(GroupsOf(old(text)), MAX_PARAMS)
      ensures t.act == CsiDispatch && b == 'm' as int && old(params.Tracks(text)) && old(SetsPen()) ==>
        pen.style == Apply(Clipped(Keep(GroupsOf(old(text)), MAX_PARAMS)), old(pen.style))
      ensures t.act != CsiDispatch || b != 'm' as int || !old(SetsPen()) ==> pen.style == old(pen.style)
    {
      hide GroupsOf, Keep, Clipped, Meaning, Apply, ParserState.Tracks, ParserState.Valid, TableOk, Reported, SetsPen, InSequence;
      Leave(b, t);
      Act(t.act, b);
    }

    /** The exit action of the present state, unless it stays or is cancelled. */
    method Leave(b: Byte, t: Transition)
      requires params.Valid() && t != Unset
      modifies this`privateMarker, this`numInterm, this`firstInterm, this`utf8Len, this`utf8Got, this`utf8Buf, this`oscBuf, this`oscOverflow
      modifies this`out, params, params.params, params.groupLen, pen
      ensures out == old(out) + if t.next != state && b != 0x18 && b != 0x1A then old(Reported(ExitAction(state), b)) else []
      ensures t.act != OscEnd ==> Reported(t.act, b) == old(Reported(t.act, b))
      ensures utf8Len == old(utf8Len) && utf8Got == old(utf8Got) && utf8Buf == old(utf8Buf)
      ensures params.Valid() && forall t :: old(params.Tracks(t)) ==> params.Tracks(t)
      ensures privateMarker == old(privateMarker) && numInterm == old(numInterm) && firstInterm == old(firstInterm)
      ensures pen.style == old(pen.style) && (t.next == state ==> oscBuf == old(oscBuf) && oscOverflow == old(oscOverflow))
    {
      var leaving := if t.next != state && b != 0x18 && b != 0x1A then ExitAction(state) else Nothing;
      if leaving != Nothing {
        DoAction(leaving, b);
      }
    }

    /** The action of a transition, which reads parameter characters into `text`. */
    method Act(act: Action, b: Byte)
      requires params.Valid()
      requires act == Param ==> 0x30 <= b <= 0x39 || b == 0x3B
      requires act == Subparam ==> b == 0x3A
      modifies this`privateMarker, this`numInterm, this`firstInterm, this`utf8Len, this`utf8Got, this`utf8Buf, this`oscBuf, this`oscOverflow
      modifies this`out, this`text, params, params.params, params.groupLen, pen
      ensures params.Valid() && out == old(out) + old(Reported(act, b))
      ensures act != Print ==> utf8Len == old(utf8Len) && utf8Got == old(utf8Got) && utf8Buf == old(utf8Buf)
      ensures act == Print && old(utf8Len) == 0 ==> if 0xC0 <= b < 0xF8 then utf8Len == SequenceLength(b) && utf8Got == 1 && utf8Buf == [b] else utf8Len == 0
      ensures act == Marker ==> privateMarker == b && numInterm == old(numInterm)
      ensures act == OscPut && |old(oscBuf)| < MAX_OSC_LEN ==> oscBuf == old(oscBuf) + [b] && oscOverflow == old(oscOverflow)
      ensures act == CsiDispatch && old(params.Tracks(text)) ==> params.groups == Keep(GroupsOf(old(text)), MAX_PARAMS)
      ensures text == old(text) + if act == Param || act == Subparam then [b as char] else []
      ensures InSequence(act) && old(params.Tracks(text)) ==> params.Tracks(text)
      ensures act == Collect ==> privateMarker == old(privateMarker) && (old(numInterm) == 0 ==> numInterm == 1 && firstInterm == b)
      ensures InSequence(act) && act != Marker && act != Collect ==>
        privateMarker == old(privateMarker) && numInterm == old(numInterm) && firstInterm == old(firstInterm)
      ensures act == CsiDispatch && b == 'm' as int && old(params.Tracks(text)) && old(SetsPen()) ==>
        pen.style == Apply(Clipped(Keep(GroupsOf(old(text)), MAX_PARAMS)), old(pen.style))
      ensures act != CsiDispatch || b != 'm' as int || !old(SetsPen()) ==> pen.style == old(pen.style)
    {
      hide GroupsOf, Keep, Clipped, Apply, ParserState.Tracks, ParserState.Valid, SetsPen;
      if act != Nothing {
        DoAction(act, b);
        if act == Param || act == Subparam {
          text := text + [b as char];
        }
      }
    }

    /** The entry action of the state just reached; clearing the parameters starts a new text. */
    method Enter(b: Byte)
      requires params.Valid()
      modifies this`privateMarker, this`numInterm, this`firstInterm, this`utf8Len, this`utf8Got, this`utf8Buf, this`oscBuf, this`oscOverflow
      modifies this`out, this`text, params, params.params, params.groupLen, pen
      ensures params.Valid() && pen.style == old(pen.style) && out == old(out)
      ensures utf8Len == old(utf8Len) && utf8Got == old(utf8Got) && utf8Buf == old(utf8Buf)
      ensures EntryAction(state) == Clear ==> text == "" && params.Tracks("") && privateMarker == 0 && numInterm == 0
      ensures EntryAction(state) == OscStart ==> oscBuf == [] && !oscOverflow
      ensures EntryAction(state) == Nothing ==>
        && text == old(text) && params.groups == old(params.groups) && (forall t :: old(params.Tracks(t)) ==> params.Tracks(t))
        && privateMarker == old(privateMarker) && numInterm == old(numInterm) && firstInterm == old(firstInterm)
    {
      var entering := EntryAction(state);
      if entering != Nothing {
        DoAction(entering, b);
        if entering == Clear {
          text := "";
        }
      }
    }
  }

  lemma MeaningOf(s: PState, b: Byte)
    ensures Meaning(s, b) != Unset
    ensures b == ESC ==> Meaning(s, b) == To(Nothing, ESCAPE)
    ensures Meaning(s, b).act == Print ==> s == GROUND && Meaning(s, b).next == GROUND
    ensures Meaning(s, b).act != OscEnd
    ensures s == GROUND && b != ESC ==> Meaning(s, b).next == GROUND && (Meaning(s, b).act == Print || Meaning(s, b).act == Execute)
    ensures 0x20 <= b < 0x30 && (s == CSI_ENTRY || s == CSI_PARAM) ==> Meaning(s, b) == To(Collect, CSI_INTERMEDIATE)
    ensures Meaning(s, b).next == CSI_INTERMEDIATE ==>
      && (s == CSI_ENTRY || s == CSI_PARAM || s == CSI_INTERMEDIATE) && Meaning(s, b).act in {Nothing, Execute, Collect}
    ensures s == CSI_ENTRY && b == '?' as int ==> Meaning(s, b) == To(Marker, CSI_PARAM)
    ensures 0x40 <= b < 0x7F && (s == CSI_ENTRY || s == CSI_PARAM || s == CSI_INTERMEDIATE) ==> Meaning(s, b) == To(CsiDispatch, GROUND)
    ensures s == ESCAPE && b == 0x5B ==> Meaning(s, b) == To(Nothing, CSI_ENTRY)
    ensures Meaning(s, b).act == Param ==> 0x30 <= b <= 0x39 || b == 0x3B
    ensures Meaning(s, b).act == Subparam ==> b == 0x3A
    ensures s == CSI_ENTRY || s == CSI_PARAM ==>
      && (0x30 <= b <= 0x3B ==> Meaning(s, b) == To(if b == 0x3A then Subparam else Param, CSI_PARAM))
      && (b == 'm' as int ==> Meaning(s, b) == To(CsiDispatch, GROUND))
    ensures Meaning(s, b).next == CSI_PARAM ==>
      (s == CSI_ENTRY && Meaning(s, b).act in {Param, Subparam, Marker})
      || (s == CSI_PARAM && Meaning(s, b).act in {Param, Subparam, Nothing, Execute})
    ensures Meaning(s, b).next == CSI_ENTRY && s == CSI_ENTRY ==> Meaning(s, b).act in {Nothing, Execute}
    ensures Meaning(s, b).next == ESCAPE && s == ESCAPE ==> Meaning(s, b).act in {Nothing, Execute}
    ensures s == ESCAPE ==>
      && (EndsEscape(b) ==> Meaning(s, b) == To(EscDispatch, GROUND)) && (0x20 <= b < 0x30 ==> Meaning(s, b) == To(Collect, ESCAPE_INTERMEDIATE))
      && (b == 0x5D ==> Meaning(s, b) == To(Nothing, OSC_STRING))
    ensures s == ESCAPE_INTERMEDIATE && 0x30 <= b < 0x7F ==> Meaning(s, b) == To(EscDispatch, GROUND)
    ensures s == OSC_STRING && 0x20 <= b < 0x80 ==> Meaning(s, b) == To(OscPut, OSC_STRING)
    ensures s == OSC_STRING && b == BEL ==> Meaning(s, b) == To(Nothing, GROUND)
    ensures s == GROUND && b >= 0x80 ==> Meaning(s, b) == To(Print, GROUND)
  {}

  /** The printed style is parameter characters only. */
  lemma PrintedText(ns: seq<nat>)
    requires ns != []
    ensures forall i :: 0 <= i < |Join(Strings(ns))| ==> 0x30 <= Join(Strings(ns))[i] as int <= 0x3B
    decreases |ns|
  {
    hide Itoa;
    var last := ns[|ns| - 1];
    ItoaReadsBack(last);
    if |ns| == 1 {
      assert Strings(ns) == [Itoa(last)];
    } else {
      var front := ns[..|ns| - 1];
      assert Strings(ns)[..|ns| - 1] == Strings(front);
      PrintedText(front);
    }
  }

  /** What the printed text does to a pen. */
  lemma PrintedTextSets(st: Style, pen: Style)
    ensures Apply(Clipped(Keep(GroupsOf(Join(Strings(Numbers(st)))), MAX_PARAMS)), pen) == st <==> Canonical(st)
  {
    PrintedIsHeld(st);
    hide GroupsOf, Keep, Clipped, Apply, Numbers, Join, Strings, Singles, Canonical;
    SgrRoundTripIff(st, pen);
  }

  predicate InParameters(p: Parser) reads p { p.state == CSI_ENTRY || p.state == CSI_PARAM }

  method FeedParameter(p: Parser, c: char)
    requires p.Valid() && InParameters(p) && 0x30 <= c as int <= 0x3B
    modifies p, p.params, p.params.params, p.params.groupLen, p.pen
    ensures p.Valid() && InParameters(p) && p.text == old(p.text) + [c] && p.pen.style == old(p.pen.style)
    ensures p.privateMarker == old(p.privateMarker) && p.numInterm == old(p.numInterm)
  {
    hide GroupsOf, Keep, Clipped, Apply, Parser.Valid;
    p.Feed(c as int);
  }

  method FeedText(p: Parser, s: string)
    requires p.Valid() && p.state == CSI_ENTRY
    requires forall i :: 0 <= i < |s| ==> 0x30 <= s[i] as int <= 0x3B
    modifies p, p.params, p.params.params, p.params.groupLen, p.pen
    ensures p.Valid() && InParameters(p) && p.text == s && p.pen.style == old(p.pen.style)
    ensures p.privateMarker == 0 && p.numInterm == 0
  {
    assert p.text == "" && p.privateMarker == 0 && p.numInterm == 0 && InParameters(p);
    hide *;
    for i := 0 to |s|
      invariant p.Valid() && InParameters(p) && p.text == s[..i] && p.pen.style == old(p.pen.style)
      invariant p.privateMarker == 0 && p.numInterm == 0
    {
      FeedParameter(p, s[i]);
      assert s[..i + 1] == s[..i] + [s[i]];
    }
    assert s[..|s|] == s;
  }

  /** The round trip through every layer: from any state of the parser and any pen, the bytes
      ESC [ params m printed for a style leave exactly that style if and only if it is canonical. */
  method FeedPrintedStyle(p: Parser, st: Style)
    requires p.Valid()
    modifies p, p.params, p.params.params, p.params.groupLen, p.pen
    ensures p.Valid() && p.state == GROUND
    ensures p.pen.style == st <==> Canonical(st)
  {
    hide GroupsOf, Keep, Clipped, Apply, ParserState.Tracks, ParserState.Valid, TableOk, Numbers, Join, Strings, Canonical;
    var s := SgrParamsString(st);
    PrintedText(Numbers(st));
    p.Feed(ESC);
    p.Feed(0x5B);
    PrintedTextSets(st, p.pen.style);
    FeedText(p, s);
    p.Feed('m' as int);
  }
}
