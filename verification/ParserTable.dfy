/** The byte parser's transition table: fourteen states by 256 bytes, filled range by range and then
    overridden by the transitions that apply anywhere. */
module ParserTable {
  import opened Sequences

  type PState = s: nat | s < 14

  const GROUND: PState := 0
  const ESCAPE: PState := 1
  const ESCAPE_INTERMEDIATE: PState := 2
  const CSI_ENTRY: PState := 3
  const CSI_PARAM: PState := 4
  const CSI_INTERMEDIATE: PState := 5
  const CSI_IGNORE: PState := 6
  const DCS_ENTRY: PState := 7
  const DCS_PARAM: PState := 8
  const DCS_INTERMEDIATE: PState := 9
  const DCS_PASSTHROUGH: PState := 10
  const DCS_IGNORE: PState := 11
  const OSC_STRING: PState := 12
  const SOS_PM_APC: PState := 13

  datatype Action =
    | Nothing | Print | Execute | Clear | Collect | Param | Subparam | EscDispatch | CsiDispatch | Hook | Put | Unhook
    | OscStart | OscPut | OscEnd | Marker

  datatype Transition = Unset | To(act: Action, next: PState)

  function EntryAction(s: PState): Action {
    if s == ESCAPE || s == CSI_ENTRY || s == DCS_ENTRY then Clear
    else if s == OSC_STRING then OscStart
    else if s == DCS_PASSTHROUGH then Hook
    else Nothing
  }

  function ExitAction(s: PState): Action {
    if s == OSC_STRING then OscEnd else if s == DCS_PASSTHROUGH then Unhook else Nothing
  }

  // ---- what the table means ----

  /** The states that collect a string payload. */
  predicate StringState(s: PState) { s == DCS_PASSTHROUGH || s == DCS_IGNORE || s == OSC_STRING || s == SOS_PM_APC }

  predicate C0(b: Byte) { b <= 0x17 || b == 0x19 || 0x1C <= b <= 0x1F }

  /** A C1 control, where it is one: not where a byte from 0x80 up is UTF-8. */
  function C1Target(b: Byte): Transition
    requires 0x80 <= b <= 0x9F
  {
    if b == 0x90 then To(Nothing, DCS_ENTRY)
    else if b == 0x98 || b == 0x9E || b == 0x9F then To(Nothing, SOS_PM_APC)
    else if b == 0x9B then To(Nothing, CSI_ENTRY)
    else if b == 0x9C then To(Nothing, GROUND)
    else if b == 0x9D then To(Nothing, OSC_STRING)
    else To(Execute, GROUND)
  }

  /** The transitions a state has of its own. */
  function Own(s: PState, b: Byte): Transition {
    if s == GROUND then
      if b == 0x1B then To(Nothing, ESCAPE) else if b < 0x20 then To(Execute, s) else To(Print, s)
    else if s == SOS_PM_APC || s == DCS_IGNORE then
      if b == 0x18 || b == 0x1A || b == 0x1B then Unset else To(Nothing, s)
    else if s == OSC_STRING then
      if b == 0x07 then To(Nothing, GROUND) else if b == 0x18 || b == 0x1A || b == 0x1B then Unset else To(OscPut, s)
    else if s == DCS_PASSTHROUGH then
      if b == 0x7F then To(Nothing, s) else if b == 0x18 || b == 0x1A || b == 0x1B then Unset else To(Put, s)
    else if b == 0x18 || b == 0x1A || b == 0x1B then Unset
    else if b < 0x20 then To(if s == DCS_ENTRY || s == DCS_PARAM || s == DCS_INTERMEDIATE then Nothing else Execute, s)
    else if b >= 0x7F then To(Nothing, s)
    else if s == ESCAPE then EscapeOwn(b)
    else if s == ESCAPE_INTERMEDIATE then if b < 0x30 then To(Collect, s) else To(EscDispatch, GROUND)
    else if s == CSI_IGNORE then if b < 0x40 then To(Nothing, s) else To(Nothing, GROUND)
    else ControlOwn(s, b)
  }

  function EscapeOwn(b: Byte): Transition
    requires 0x20 <= b < 0x7F
  {
    if b < 0x30 then To(Collect, ESCAPE_INTERMEDIATE)
    else if b == 0x5B then To(Nothing, CSI_ENTRY)
    else if b == 0x5D then To(Nothing, OSC_STRING)
    else if b == 0x50 then To(Nothing, DCS_ENTRY)
    else if b == 0x58 || b == 0x5E || b == 0x5F then To(Nothing, SOS_PM_APC)
    else To(EscDispatch, GROUND)
  }

  /** The control-sequence states and their device-control twins. */
  function ControlOwn(s: PState, b: Byte): Transition
    requires CSI_ENTRY <= s <= CSI_INTERMEDIATE || DCS_ENTRY <= s <= DCS_INTERMEDIATE
    requires 0x20 <= b < 0x7F
  {
    var dcs := s >= DCS_ENTRY;
    var entry := s == CSI_ENTRY || s == DCS_ENTRY;
    var param := if dcs then DCS_PARAM else CSI_PARAM;
    var middle := if dcs then DCS_INTERMEDIATE else CSI_INTERMEDIATE;
    if b >= 0x40 then if dcs then To(Nothing, DCS_PASSTHROUGH) else To(CsiDispatch, GROUND)
    else if b < 0x30 then To(Collect, middle)
    else if s == middle then To(Nothing, if dcs then DCS_IGNORE else CSI_IGNORE)
    else if b == 0x3A then To(Subparam, param)
    else if b <= 0x3B then To(Param, param)
    else if entry then To(Marker, param)
    else To(Nothing, if dcs then DCS_IGNORE else CSI_IGNORE)
  }

  /** The whole table. */
  function Meaning(s: PState, b: Byte): Transition {
    if b == 0x18 || b == 0x1A then To(Execute, GROUND)
    else if b == 0x1B then To(Nothing, ESCAPE)
    else if 0x80 <= b <= 0x9F && s != GROUND && !StringState(s) then C1Target(b)
    else Own(s, b)
  }

  /** Bytes from 0x80 up are text and payload where those are read, and controls elsewhere. */
  lemma HighBytes(b: Byte)
    requires 0x80 <= b <= 0x9F
    ensures Meaning(GROUND, b) == To(Print, GROUND) && Meaning(OSC_STRING, b) == To(OscPut, OSC_STRING)
    ensures Meaning(DCS_PASSTHROUGH, b) == To(Put, DCS_PASSTHROUGH) && Meaning(SOS_PM_APC, b) == To(Nothing, SOS_PM_APC)
    ensures forall s: PState :: s in {ESCAPE, ESCAPE_INTERMEDIATE, CSI_ENTRY, CSI_PARAM, CSI_INTERMEDIATE, CSI_IGNORE, DCS_ENTRY, DCS_PARAM,
                                      DCS_INTERMEDIATE} ==>
      Meaning(s, b) == match b
                       case 0x90 => To(Nothing, DCS_ENTRY)
                       case 0x9B => To(Nothing, CSI_ENTRY)
                       case 0x9C => To(Nothing, GROUND)
                       case 0x9D => To(Nothing, OSC_STRING)
                       case _ => if b == 0x98 || b == 0x9E || b == 0x9F then To(Nothing, SOS_PM_APC) else To(Execute, GROUND)
  {}

  // ---- building it ----

  ghost predicate RowIs(row: array<Transition>, s: PState) reads row {
    row.Length == 256 && forall b: Byte :: row[b] == Own(s, b)
  }

  ghost predicate Blank(row: array<Transition>) reads row {
    row.Length == 256 && forall b: Byte :: row[b] == Unset
  }

  method SetRange(row: array<Transition>, lo: Byte, hi: Byte, x: Transition)
    requires row.Length == 256 && lo <= hi
    modifies row
    ensures forall b :: 0 <= b < 256 ==> row[b] == if lo <= b <= hi then x else old(row[b])
  {
    var b: int := lo;
    while b <= hi
      invariant lo <= b <= hi + 1
      invariant forall c :: 0 <= c < 256 ==> row[c] == if lo <= c < b then x else old(row[c])
    {
      row[b] := x;
      b := b + 1;
    }
  }

  method SetC0(row: array<Transition>, x: Transition)
    requires row.Length == 256
    modifies row
    ensures forall b :: 0 <= b < 256 ==> row[b] == if C0(b) then x else old(row[b])
  {
    SetRange(row, 0x00, 0x17, x);
    row[0x19] := x;
    SetRange(row, 0x1C, 0x1F, x);
  }

  method BuildGround(row: array<Transition>)
    requires Blank(row)
    modifies row
    ensures RowIs(row, GROUND)
  {
    var s := GROUND;
    SetC0(row, To(Execute, s));
    row[0x18] := To(Execute, s);
    row[0x1A] := To(Execute, s);
    row[0x1B] := To(Nothing, ESCAPE);
    SetRange(row, 0x20, 0x7F, To(Print, s));
    SetRange(row, 0x80, 0x9F, To(Print, s));
    SetRange(row, 0xA0, 0xFF, To(Print, s));
  }

  /** The bytes that end an escape sequence by dispatching it. */
  predicate EscapeFinal(b: Byte) {
    0x30 <= b <= 0x4F || 0x51 <= b <= 0x57 || b == 0x59 || b == 0x5A || b == 0x5C || 0x60 <= b <= 0x7E
  }

  method EscapeFinals(row: array<Transition>, x: Transition)
    requires row.Length == 256
    modifies row
    ensures forall b :: 0 <= b < 256 ==> row[b] == if EscapeFinal(b) then x else old(row[b])
  {
    SetRange(row, 0x30, 0x4F, x);
    SetRange(row, 0x51, 0x57, x);
    row[0x59] := x;
    row[0x5A] := x;
    row[0x5C] := x;
    SetRange(row, 0x60, 0x7E, x);
  }

  /** The bytes after ESC that introduce a longer sequence. */
  predicate EscapeIntroducer(b: Byte) { b == 0x5B || b == 0x5D || b == 0x50 || b == 0x58 || b == 0x5E || b == 0x5F }

  method EscapeIntroducers(row: array<Transition>)
    requires row.Length == 256
    modifies row
    ensures forall b :: 0 <= b < 256 ==> row[b] == if EscapeIntroducer(b) then EscapeOwn(b) else old(row[b])
  {
    row[0x5B] := To(Nothing, CSI_ENTRY);
    row[0x5D] := To(Nothing, OSC_STRING);
    row[0x50] := To(Nothing, DCS_ENTRY);
    row[0x58] := To(Nothing, SOS_PM_APC);
    row[0x5E] := To(Nothing, SOS_PM_APC);
    row[0x5F] := To(Nothing, SOS_PM_APC);
  }

  method BuildEscape(row: array<Transition>)
    requires Blank(row)
    modifies row
    ensures RowIs(row, ESCAPE)
  {
    SetC0(row, To(Execute, ESCAPE));
    SetRange(row, 0x20, 0x2F, To(Collect, ESCAPE_INTERMEDIATE));
    EscapeFinals(row, To(EscDispatch, GROUND));
    EscapeIntroducers(row);
    row[0x7F] := To(Nothing, ESCAPE);
    SetRange(row, 0x80, 0xFF, To(Nothing, ESCAPE));
  }

  method BuildEscapeIntermediate(row: array<Transition>)
    requires Blank(row)
    modifies row
    ensures RowIs(row, ESCAPE_INTERMEDIATE)
  {
    var s := ESCAPE_INTERMEDIATE;
    SetC0(row, To(Execute, s));
    SetRange(row, 0x20, 0x2F, To(Collect, s));
    SetRange(row, 0x30, 0x7E, To(EscDispatch, GROUND));
    row[0x7F] := To(Nothing, s);
    SetRange(row, 0x80, 0xFF, To(Nothing, s));
  }

  function WithParams(b: int, param: PState, markers: Transition, other: Transition): Transition {
    if b == 0x3A then To(Subparam, param)
    else if 0x30 <= b <= 0x3B then To(Param, param)
    else if 0x3C <= b <= 0x3F then markers
    else other
  }

  /** The parameter bytes of the entry and parameter states: digits and semicolons, colons, and the
      private markers, which are only markers before any parameter. */
  method BuildParams(row: array<Transition>, param: PState, markers: Transition)
    requires row.Length == 256
    modifies row
    ensures forall b :: 0 <= b < 256 ==> row[b] == WithParams(b, param, markers, old(row[b]))
  {
    SetRange(row, 0x30, 0x39, To(Param, param));
    row[0x3B] := To(Param, param);
    row[0x3A] := To(Subparam, param);
    SetRange(row, 0x3C, 0x3F, markers);
  }

  method BuildCsiEntry(row: array<Transition>)
    requires Blank(row)
    modifies row
    ensures RowIs(row, CSI_ENTRY)
  {
    SetC0(row, To(Execute, CSI_ENTRY));
    SetRange(row, 0x20, 0x2F, To(Collect, CSI_INTERMEDIATE));
    BuildParams(row, CSI_PARAM, To(Marker, CSI_PARAM));
    SetRange(row, 0x40, 0x7E, To(CsiDispatch, GROUND));
    row[0x7F] := To(Nothing, CSI_ENTRY);
    SetRange(row, 0x80, 0xFF, To(Nothing, CSI_ENTRY));
  }

  method BuildCsiParam(row: array<Transition>)
    requires Blank(row)
    modifies row
    ensures RowIs(row, CSI_PARAM)
  {
    SetC0(row, To(Execute, CSI_PARAM));
    SetRange(row, 0x20, 0x2F, To(Collect, CSI_INTERMEDIATE));
    BuildParams(row, CSI_PARAM, To(Nothing, CSI_IGNORE));
    SetRange(row, 0x40, 0x7E, To(CsiDispatch, GROUND));
    row[0x7F] := To(Nothing, CSI_PARAM);
    SetRange(row, 0x80, 0xFF, To(Nothing, CSI_PARAM));
  }

  method BuildCsiIntermediate(row: array<Transition>)
    requires Blank(row)
    modifies row
    ensures RowIs(row, CSI_INTERMEDIATE)
  {
    var s := CSI_INTERMEDIATE;
    SetC0(row, To(Execute, s));
    SetRange(row, 0x20, 0x2F, To(Collect, s));
    SetRange(row, 0x30, 0x3F, To(Nothing, CSI_IGNORE));
    SetRange(row, 0x40, 0x7E, To(CsiDispatch, GROUND));
    row[0x7F] := To(Nothing, s);
    SetRange(row, 0x80, 0xFF, To(Nothing, s));
  }

  method BuildCsiIgnore(row: array<Transition>)
    requires Blank(row)
    modifies row
    ensures RowIs(row, CSI_IGNORE)
  {
    var s := CSI_IGNORE;
    SetC0(row, To(Execute, s));
    SetRange(row, 0x20, 0x3F, To(Nothing, s));
    SetRange(row, 0x40, 0x7E, To(Nothing, GROUND));
    row[0x7F] := To(Nothing, s);
    SetRange(row, 0x80, 0xFF, To(Nothing, s));
  }

  method BuildDcsEntry(row: array<Transition>)
    requires Blank(row)
    modifies row
    ensures RowIs(row, DCS_ENTRY)
  {
    SetC0(row, To(Nothing, DCS_ENTRY));
    SetRange(row, 0x20, 0x2F, To(Collect, DCS_INTERMEDIATE));
    BuildParams(row, DCS_PARAM, To(Marker, DCS_PARAM));
    SetRange(row, 0x40, 0x7E, To(Nothing, DCS_PASSTHROUGH));
    row[0x7F] := To(Nothing, DCS_ENTRY);
    SetRange(row, 0x80, 0xFF, To(Nothing, DCS_ENTRY));
  }

  method BuildDcsParam(row: array<Transition>)
    requires Blank(row)
    modifies row
    ensures RowIs(row, DCS_PARAM)
  {
    SetC0(row, To(Nothing, DCS_PARAM));
    SetRange(row, 0x20, 0x2F, To(Collect, DCS_INTERMEDIATE));
    BuildParams(row, DCS_PARAM, To(Nothing, DCS_IGNORE));
    SetRange(row, 0x40, 0x7E, To(Nothing, DCS_PASSTHROUGH));
    row[0x7F] := To(Nothing, DCS_PARAM);
    SetRange(row, 0x80, 0xFF, To(Nothing, DCS_PARAM));
  }

  method BuildDcsIntermediate(row: array<Transition>)
    requires Blank(row)
    modifies row
    ensures RowIs(row, DCS_INTERMEDIATE)
  {
    var s := DCS_INTERMEDIATE;
    SetC0(row, To(Nothing, s));
    SetRange(row, 0x20, 0x2F, To(Collect, s));
    SetRange(row, 0x30, 0x3F, To(Nothing, DCS_IGNORE));
    SetRange(row, 0x40, 0x7E, To(Nothing, DCS_PASSTHROUGH));
    row[0x7F] := To(Nothing, s);
    SetRange(row, 0x80, 0xFF, To(Nothing, s));
  }

  method BuildDcsPassthrough(row: array<Transition>)
    requires Blank(row)
    modifies row
    ensures RowIs(row, DCS_PASSTHROUGH)
  {
    var s := DCS_PASSTHROUGH;
    SetC0(row, To(Put, s));
    SetRange(row, 0x20, 0x7E, To(Put, s));
    row[0x7F] := To(Nothing, s);
    SetRange(row, 0x80, 0xFF, To(Put, s));
  }

  /** The two states that swallow a string. */
  method BuildIgnoredString(row: array<Transition>, s: PState)
    requires Blank(row) && (s == DCS_IGNORE || s == SOS_PM_APC)
    modifies row
    ensures RowIs(row, s)
  {
    SetC0(row, To(Nothing, s));
    SetRange(row, 0x20, 0x7F, To(Nothing, s));
    SetRange(row, 0x80, 0xFF, To(Nothing, s));
  }

  method BuildOscString(row: array<Transition>)
    requires Blank(row)
    modifies row
    ensures RowIs(row, OSC_STRING)
  {
    var s := OSC_STRING;
    SetRange(row, 0x00, 0x06, To(OscPut, s));
    row[0x07] := To(Nothing, GROUND);
    SetRange(row, 0x08, 0x17, To(OscPut, s));
    row[0x19] := To(OscPut, s);
    SetRange(row, 0x1C, 0x1F, To(OscPut, s));
    SetRange(row, 0x20, 0x7F, To(OscPut, s));
    SetRange(row, 0x80, 0xFF, To(OscPut, s));
  }

  method BuildOwn(row: array<Transition>, s: PState)
    requires Blank(row)
    modifies row
    ensures RowIs(row, s)
  {
    hide Own;
    if s == GROUND { BuildGround(row); }
    else if s == ESCAPE { BuildEscape(row); }
    else if s == ESCAPE_INTERMEDIATE { BuildEscapeIntermediate(row); }
    else if s == CSI_ENTRY { BuildCsiEntry(row); }
    else if s == CSI_PARAM { BuildCsiParam(row); }
    else if s == CSI_INTERMEDIATE { BuildCsiIntermediate(row); }
    else if s == CSI_IGNORE { BuildCsiIgnore(row); }
    else if s == DCS_ENTRY { BuildDcsEntry(row); }
    else if s == DCS_PARAM { BuildDcsParam(row); }
    else if s == DCS_INTERMEDIATE { BuildDcsIntermediate(row); }
    else if s == DCS_PASSTHROUGH { BuildDcsPassthrough(row); }
    else if s == OSC_STRING { BuildOscString(row); }
    else { BuildIgnoredString(row, s); }
  }

  /** The C1 controls of a state in which they are controls. */
  method SetC1(row: array<Transition>)
    requires row.Length == 256
    modifies row
    ensures forall b :: 0 <= b < 256 ==> row[b] == if 0x80 <= b <= 0x9F then C1Target(b) else old(row[b])
  {
    SetRange(row, 0x80, 0x8F, To(Execute, GROUND));
    row[0x90] := To(Nothing, DCS_ENTRY);
    SetRange(row, 0x91, 0x97, To(Execute, GROUND));
    row[0x98] := To(Nothing, SOS_PM_APC);
    row[0x99] := To(Execute, GROUND);
    row[0x9A] := To(Execute, GROUND);
    row[0x9B] := To(Nothing, CSI_ENTRY);
    row[0x9C] := To(Nothing, GROUND);
    row[0x9D] := To(Nothing, OSC_STRING);
    row[0x9E] := To(Nothing, SOS_PM_APC);
    row[0x9F] := To(Nothing, SOS_PM_APC);
  }

  function WithAnywhere(s: PState, b: int, own: Transition): Transition {
    if b == 0x18 || b == 0x1A then To(Execute, GROUND)
    else if b == 0x1B && s != ESCAPE then To(Nothing, ESCAPE)
    else if 0x80 <= b <= 0x9F && s != GROUND && !StringState(s) then C1Target(b)
    else own
  }

  method ApplyAnywhere(row: array<Transition>, s: PState)
    requires row.Length == 256
    modifies row
    ensures forall b :: 0 <= b < 256 ==> row[b] == WithAnywhere(s, b, old(row[b]))
  {
    row[0x18] := To(Execute, GROUND);
    row[0x1A] := To(Execute, GROUND);
    if s != ESCAPE {
      row[0x1B] := To(Nothing, ESCAPE);
    }
    if s != GROUND && !StringState(s) {
      SetC1(row);
    }
  }

  /** What is still unset stays in its state and does nothing. */
  method FillUnset(row: array<Transition>, s: PState)
    requires row.Length == 256
    modifies row
    ensures forall b :: 0 <= b < 256 ==> row[b] == if old(row[b]) == Unset then To(Nothing, s) else old(row[b])
  {
    for b := 0 to 256
      invariant forall c :: 0 <= c < 256 ==> row[c] == if c < b && old(row[c]) == Unset then To(Nothing, s) else old(row[c])
    {
      if row[b] == Unset {
        row[b] := To(Nothing, s);
      }
    }
  }

  method BuildRow(s: PState) returns (row: array<Transition>)
    ensures fresh(row) && row.Length == 256 && forall b: Byte :: row[b] == Meaning(s, b)
  {
    row := new Transition[256](i => Unset);
    BuildOwn(row, s);
    hide C1Target, EscapeOwn, ControlOwn;
    ApplyAnywhere(row, s);
    FillUnset(row, s);
    OnlyEscapeIsLeft(s);
  }

  predicate TableOk(table: seq<seq<Transition>>) {
    |table| == 14 && forall s: PState :: |table[s]| == 256 && forall b: Byte :: table[s][b] == Meaning(s, b)
  }

  method BuildTable() returns (table: seq<seq<Transition>>)
    ensures TableOk(table)
  {
    hide Meaning;
    table := [];
    for s := 0 to 14
      invariant |table| == s
      invariant forall r: PState :: r < s ==> |table[r]| == 256 && forall b: Byte :: table[r][b] == Meaning(r, b)
    {
      var row := BuildRow(s);
      table := table + [row[..]];
    }
  }

  /** After the anywhere transitions only ESC in the escape state is still unset. */
  lemma OnlyEscapeIsLeft(s: PState)
    ensures forall b: Byte :: Own(s, b) == Unset ==> b == 0x18 || b == 0x1A || b == 0x1B
    ensures forall b: Byte :: 0x80 <= b <= 0x9F ==> C1Target(b) != Unset
  {}

  // ---- what holds of every state ----

  /** Every byte has a transition in every state; CAN, SUB and ESC leave any state; and outside the
      control-sequence states no byte from 0x80 up leaves a string or the ground state, so UTF-8 text
      is never cut. */
  lemma TableIsTotal(s: PState, b: Byte)
    ensures Meaning(s, b) != Unset
    ensures b == 0x18 || b == 0x1A ==> Meaning(s, b) == To(Execute, GROUND)
    ensures b == 0x1B ==> Meaning(s, b).next == ESCAPE
    ensures b >= 0x80 && (s == GROUND || StringState(s)) ==> Meaning(s, b).next == s
  {}

  /** A control sequence is dispatched only by a byte from 0x40 to 0x7E in the states that parse one. */
  lemma DispatchIsFinal(s: PState, b: Byte)
    ensures Meaning(s, b) != Unset && (Meaning(s, b).act == CsiDispatch <==> CSI_ENTRY <= s <= CSI_INTERMEDIATE && 0x40 <= b <= 0x7E)
  {}
}
