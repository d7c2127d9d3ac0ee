/** The client's decoder, and the round trip through it. A read past the end of the frame is the
    RangeError that drops the whole frame; text is the exception, cut short at the end instead. */
module WireDecoder {
  import opened Doubles
  import opened Sequences
  import opened Wire

  const MSG_RESUME_ACK: Byte := 2
  const MSG_ACK_ONLY: Byte := 7
  const WIRE_PROTOCOL_VERSION: Byte := 4

  datatype AckFlags = AckFlags(ledgerLost: bool, historyPaging: bool, serverFocus: bool, ephemeralInput: bool)

  datatype Message =
    | Screen(ack: nat, base: nat, curRow: nat, curCol: nat, height: nat, look: CursorLook, bell: bool, alt: bool,
             cleared: bool, changed: seq<nat>, rows: map<nat, Row>)
    | Scroll(ack: nat, firstIndex: nat, lines: seq<Row>)
    | ResumeAck(received: nat, epoch: Option<nat>, bounds: Option<(nat, nat)>, version: Option<(nat, AckFlags)>)
    | AckOnly(ack: nat)

  // ---- what the reads return ----

  function ReadUint(s: seq<Byte>, off: nat, k: nat): Option<nat> {
    if off + k <= |s| then Some(UnLe(s[off..off + k])) else None
  }

  /** A 64-bit count comes out as a JavaScript number. */
  function ReadU64(s: seq<Byte>, off: nat): Option<nat> {
    match ReadUint(s, off, 8)
    case None => None
    case Some(v) => Some(Number(v))
  }

  function ReadText(s: seq<Byte>, off: nat, len: nat): seq<Byte> {
    s[if off < |s| then off else |s|..if off + len < |s| then off + len else |s|]
  }

  function ReadColor(s: seq<Byte>, off: nat): Option<Color> {
    match ReadUint(s, off, 4)
    case None => None
    case Some(v) => Some(Signed32(v % 0x1_0000_0000))
  }

  function ParseRun(s: seq<Byte>, off: nat): Option<(Run, nat)> {
    match ReadUint(s, off, 2)
    case None => None
    case Some(tlen) =>
      var o := off + 2 + tlen;
      match (ReadColor(s, o), ReadColor(s, o + 4), ReadUint(s, o + 8, 2), ReadColor(s, o + 10), ReadUint(s, o + 14, 2))
      case (Some(f), Some(b), Some(a), Some(uc), Some(ulen)) =>
        Some((Run(ReadText(s, off + 2, tlen), f, b, a % 0x1_0000, uc, ReadText(s, o + 16, ulen)), o + 16 + ulen))
      case _ => None
  }

  function ParseRuns(s: seq<Byte>, off: nat, n: nat): Option<(Row, nat)>
    decreases n
  {
    if n == 0 then Some(([], off))
    else
      match ParseRun(s, off)
      case None => None
      case Some((run, off1)) =>
        match ParseRuns(s, off1, n - 1)
        case None => None
        case Some((rest, off2)) => Some(([run] + rest, off2))
  }

  function ParseRow(s: seq<Byte>, off: nat): Option<(Row, nat)> {
    match ReadUint(s, off, 2)
    case None => None
    case Some(n) => ParseRuns(s, off + 2, n)
  }

  function ParseLines(s: seq<Byte>, off: nat, n: nat): Option<(seq<Row>, nat)>
    decreases n
  {
    if n == 0 then Some(([], off))
    else
      match ParseRow(s, off)
      case None => None
      case Some((row, off1)) =>
        match ParseLines(s, off1, n - 1)
        case None => None
        case Some((rest, off2)) => Some(([row] + rest, off2))
  }

  /** The changed indices and the sparse row array; a repeated index keeps its last row. */
  function ParseChanged(s: seq<Byte>, off: nat, n: nat): Option<(seq<nat>, map<nat, Row>, nat)>
    decreases n
  {
    if n == 0 then Some(([], map[], off))
    else
      match ReadUint(s, off, 2)
      case None => None
      case Some(y) =>
        match ParseRow(s, off + 2)
        case None => None
        case Some((row, off1)) =>
          match ParseChanged(s, off1, n - 1)
          case None => None
          case Some((ys, rows, off2)) => Some(([y] + ys, map[y := row] + rows, off2))
  }

  // ---- parsing what was encoded ----

  ghost predicate At(s: seq<Byte>, off: nat, part: seq<Byte>) {
    off + |part| <= |s| && s[off..off + |part|] == part
  }

  lemma AtSplit(s: seq<Byte>, off: nat, a: seq<Byte>, b: seq<Byte>)
    requires At(s, off, a + b)
    ensures At(s, off, a) && At(s, off + |a|, b)
  {
    assert s[off..off + |a|] == (a + b)[..|a|];
    assert s[off + |a|..off + |a + b|] == (a + b)[|a|..];
  }

  lemma ReadsUint(s: seq<Byte>, off: nat, n: nat, k: nat)
    requires At(s, off, Le(n, k)) && n < Power256(k)
    ensures ReadUint(s, off, k) == Some(n)
  {
    LeRoundTrip(n, k);
  }

  lemma ReadsU64(s: seq<Byte>, off: nat, n: nat)
    requires At(s, off, Le(n, 8)) && n < U64
    ensures ReadU64(s, off) == Some(Number(n))
  {
    hide Number;
    Powers();
    ReadsUint(s, off, n, 8);
  }

  lemma ReadsColor(s: seq<Byte>, off: nat, c: Color)
    requires At(s, off, Le(Bits32(c), 4))
    ensures ReadColor(s, off) == Some(c)
  {
    Powers();
    ReadsUint(s, off, Bits32(c), 4);
  }

  lemma ReadsText(s: seq<Byte>, off: nat, text: seq<Byte>)
    requires At(s, off, text)
    ensures ReadText(s, off, |text|) == text
  {}

  lemma ParsesRun(utf8: Utf8, s: seq<Byte>, off: nat, r: Run)
    requires At(s, off, RunBytes(utf8, r))
    ensures ParseRun(s, off) == Some((TruncateRun(utf8, r), off + |RunBytes(utf8, r)|))
  {
    hide Truncate, Le, Bits32, Signed32, ReadColor, ReadUint, ReadText, At;
    var text, url := Truncate(utf8, r.text), Truncate(utf8, r.url);
    var p0 := Le(ClampU16(|text|), 2);
    var p1, p2, p3 := Le(Bits32(r.fg), 4), Le(Bits32(r.bg), 4), Le(r.attrs, 2);
    var p4, p5 := Le(Bits32(r.underline), 4), Le(ClampU16(|url|), 2);
    var o := off + 2 + |text|;
    Powers();
    AtSplit(s, off, p0 + text + p1 + p2 + p3 + p4 + p5, url);
    AtSplit(s, off, p0 + text + p1 + p2 + p3 + p4, p5);
    AtSplit(s, off, p0 + text + p1 + p2 + p3, p4);
    AtSplit(s, off, p0 + text + p1 + p2, p3);
    AtSplit(s, off, p0 + text + p1, p2);
    AtSplit(s, off, p0 + text, p1);
    AtSplit(s, off, p0, text);
    ReadsUint(s, off, |text|, 2);
    ReadsText(s, off + 2, text);
    ReadsColor(s, o, r.fg);
    ReadsColor(s, o + 4, r.bg);
    ReadsUint(s, o + 8, r.attrs, 2);
    ReadsColor(s, o + 10, r.underline);
    ReadsUint(s, o + 14, |url|, 2);
    ReadsText(s, o + 16, url);
  }

  function TruncateRow(utf8: Utf8, row: Row): (t: Row)
    ensures |t| == |row| && forall i :: 0 <= i < |t| ==> t[i] == TruncateRun(utf8, row[i])
  {
    seq(|row|, i requires 0 <= i < |row| => TruncateRun(utf8, row[i]))
  }

  lemma {:induction false} ParsesRuns(utf8: Utf8, s: seq<Byte>, off: nat, row: Row)
    requires At(s, off, RunsBytes(utf8, row))
    ensures ParseRuns(s, off, |row|) == Some((TruncateRow(utf8, row), off + |RunsBytes(utf8, row)|))
    decreases |row|
  {
    hide ParseRun, RunBytes, At, TruncateRun;
    if row == [] {
      assert TruncateRow(utf8, row) == [];
    } else {
      AtSplit(s, off, RunBytes(utf8, row[0]), RunsBytes(utf8, row[1..]));
      ParsesRun(utf8, s, off, row[0]);
      ParsesRuns(utf8, s, off + |RunBytes(utf8, row[0])|, row[1..]);
      assert TruncateRow(utf8, row) == [TruncateRun(utf8, row[0])] + TruncateRow(utf8, row[1..]);
    }
  }

  /** What a row becomes on the wire: capped, and its over-long strings truncated. */
  function OnWire(utf8: Utf8, row: Row): Row { TruncateRow(utf8, CapRow(utf8, row)) }

  /** The string itself, or when it is too long for its length field the longest valid prefix that fits. */
  ghost predicate Shortened(utf8: Utf8, sent: seq<Byte>, got: seq<Byte>) {
    if |sent| <= MAX_TEXT then got == sent
    else |got| <= MAX_TEXT && got <= sent && (got == [] || utf8(got)) && forall n :: |got| < n <= MAX_TEXT ==> !utf8(sent[..n])
  }

  ghost predicate SameText(utf8: Utf8, sent: Run, got: Run) {
    Shortened(utf8, sent.text, got.text) && got.fg == sent.fg && got.bg == sent.bg && got.underline == sent.underline
  }

  ghost predicate WholeRun(utf8: Utf8, sent: Run, got: Run) {
    SameText(utf8, sent, got) && Shortened(utf8, sent.url, got.url) && got.attrs == sent.attrs
  }

  /** The link is gone, and of the attributes bit 10, the autolink's, alone is cleared. */
  ghost predicate Unlinked(utf8: Utf8, sent: Run, got: Run) {
    && SameText(utf8, sent, got) && got.url == []
    && got.attrs % 1024 == sent.attrs % 1024 && got.attrs / 1024 % 2 == 0 && got.attrs / 2048 == sent.attrs / 2048
  }

  /** What the client gets of a row: the same runs with their text, colours and attributes. While the row's own encoding
      fits the ceiling each keeps its link and its autolink bit; over it every link goes, and that bit alone is cleared. */
  ghost predicate Delivered(utf8: Utf8, row: Row, got: Row) {
    var fits := ROW_COUNT_SIZE + |RunsBytes(utf8, row)| <= ROW_BYTE_CEILING;
    && |got| == |row|
    && forall i :: 0 <= i < |row| ==> if fits then WholeRun(utf8, row[i], got[i]) else Unlinked(utf8, row[i], got[i])
  }

  lemma {:induction false} PrefixIsLongest(utf8: Utf8, s: seq<Byte>, n: nat)
    requires n <= |s|
    ensures var t := ValidPrefix(utf8, s, n);
      (t == [] || utf8(t)) && forall k :: |t| < k <= n ==> !utf8(s[..k])
    decreases n
  {
    if n > 0 && !utf8(s[..n]) { PrefixIsLongest(utf8, s, n - 1); }
  }

  lemma TruncateShortens(utf8: Utf8, s: seq<Byte>)
    ensures Shortened(utf8, s, Truncate(utf8, s))
  {
    if |s| > MAX_TEXT { PrefixIsLongest(utf8, s, MAX_TEXT); }
  }

  lemma RunKept(utf8: Utf8, r: Run)
    ensures WholeRun(utf8, r, TruncateRun(utf8, r))
  {
    hide Shortened, Truncate;
    TruncateShortens(utf8, r.text);
    TruncateShortens(utf8, r.url);
  }

  lemma RunUnlinked(utf8: Utf8, r: Run)
    ensures Unlinked(utf8, r, TruncateRun(utf8, Unlink(r)))
  {
    assert Truncate(utf8, []) == [];
    hide Shortened, Truncate;
    TruncateShortens(utf8, r.text);
  }

  lemma OnWireDelivers(utf8: Utf8, row: Row)
    ensures Delivered(utf8, row, OnWire(utf8, row))
  {
    RunsBytesSize(utf8, row);
    hide WholeRun, Unlinked, EncodedRowSize, RunsBytes, TruncateRun, Unlink;
    forall i | 0 <= i < |row|
      ensures WholeRun(utf8, row[i], TruncateRun(utf8, row[i])) && Unlinked(utf8, row[i], TruncateRun(utf8, Unlink(row[i])))
    {
      RunKept(utf8, row[i]);
      RunUnlinked(utf8, row[i]);
    }
  }

  /** Where each field of a run lies, by an example: a link of one letter in red on the default background. */
  lemma RowByExample(utf8: Utf8)
    ensures RowBytes(utf8, [Run([65], 0xCC0000, -1, 5, -2, [104, 58])])
         == [1, 0] + [1, 0, 65] + [0, 0, 0xCC, 0] + [255, 255, 255, 255] + [5, 0] + [254, 255, 255, 255] + [2, 0, 104, 58]
  {
    var r := Run([65], 0xCC0000, -1, 5, -2, [104, 58]);
    SmallNumbers();
    assert Bits32(-1) == 0xFFFF_FFFF && Bits32(-2) == 0xFFFF_FFFE;
    hide Le;
    assert EncodedRowSize(utf8, [r][1..]) == ROW_COUNT_SIZE && RunsBytes(utf8, [r][1..]) == [];
    assert CapRow(utf8, [r]) == [r];
    assert RunsBytes(utf8, [r]) == RunBytes(utf8, r);
  }

  lemma SmallNumbers()
    ensures Le(1, 2) == [1, 0] && Le(2, 2) == [2, 0] && Le(5, 2) == [5, 0]
    ensures Le(0xCC0000, 4) == [0, 0, 0xCC, 0]
    ensures Le(0xFFFF_FFFF, 4) == [255, 255, 255, 255] && Le(0xFFFF_FFFE, 4) == [254, 255, 255, 255]
  {
    LeFour(0xCC0000);
    LeFour(0xFFFF_FFFF);
    LeFour(0xFFFF_FFFE);
  }

  lemma LeFour(n: nat)
    ensures Le(n, 4) == [n % 256, n / 256 % 256, n / 256 / 256 % 256, n / 256 / 256 / 256 % 256]
  {
    assert Le(n / 256, 3) == [n / 256 % 256] + Le(n / 256 / 256, 2);
  }

  lemma ParsesRow(utf8: Utf8, s: seq<Byte>, off: nat, row: Row)
    requires At(s, off, RowBytes(utf8, row)) && |row| <= MAX_TEXT
    ensures ParseRow(s, off) == Some((OnWire(utf8, row), off + |RowBytes(utf8, row)|))
  {
    hide ParseRuns, RunsBytes, At, Le, TruncateRow, EncodedRowSize, ReadUint;
    var capped := CapRow(utf8, row);
    Powers();
    AtSplit(s, off, Le(ClampU16(|capped|), 2), RunsBytes(utf8, capped));
    ReadsUint(s, off, |capped|, 2);
    ParsesRuns(utf8, s, off + 2, capped);
  }

  function LinesOnWire(utf8: Utf8, lines: seq<Row>): (t: seq<Row>)
    ensures |t| == |lines| && forall i :: 0 <= i < |t| ==> t[i] == OnWire(utf8, lines[i])
  {
    seq(|lines|, i requires 0 <= i < |lines| => OnWire(utf8, lines[i]))
  }

  lemma LinesDelivered(utf8: Utf8, lines: seq<Row>)
    ensures forall i :: 0 <= i < |lines| ==> Delivered(utf8, lines[i], LinesOnWire(utf8, lines)[i])
  {
    hide Delivered, OnWire;
    forall i | 0 <= i < |lines| ensures Delivered(utf8, lines[i], LinesOnWire(utf8, lines)[i]) { OnWireDelivers(utf8, lines[i]); }
  }

  ghost predicate RowsFit(rows: seq<Row>) { forall i :: 0 <= i < |rows| ==> |rows[i]| <= MAX_TEXT }

  lemma {:induction false} ParsesLines(utf8: Utf8, s: seq<Byte>, off: nat, lines: seq<Row>)
    requires At(s, off, LinesBytes(utf8, lines)) && RowsFit(lines)
    ensures ParseLines(s, off, |lines|) == Some((LinesOnWire(utf8, lines), off + |LinesBytes(utf8, lines)|))
    decreases |lines|
  {
    hide ParseRow, RowBytes, At, OnWire;
    if lines == [] {
      assert LinesOnWire(utf8, lines) == [];
    } else {
      AtSplit(s, off, RowBytes(utf8, lines[0]), LinesBytes(utf8, lines[1..]));
      ParsesRow(utf8, s, off, lines[0]);
      ParsesLines(utf8, s, off + |RowBytes(utf8, lines[0])|, lines[1..]);
      assert LinesOnWire(utf8, lines) == [OnWire(utf8, lines[0])] + LinesOnWire(utf8, lines[1..]);
    }
  }

  ghost predicate ChangedFit(changed: seq<nat>, rows: seq<Row>) {
    forall i :: 0 <= i < |changed| ==> changed[i] < |rows| && changed[i] <= MAX_TEXT
  }

  /** The sparse rows a screen frame carries. */
  function SentRows(utf8: Utf8, changed: seq<nat>, rows: seq<Row>): map<nat, Row> {
    map y: nat | y in changed && y < |rows| :: OnWire(utf8, rows[y])
  }

  lemma SentRowsDelivered(utf8: Utf8, changed: seq<nat>, rows: seq<Row>)
    requires ChangedFit(changed, rows)
    ensures forall y :: y in changed ==>
      y in SentRows(utf8, changed, rows) && Delivered(utf8, rows[y], SentRows(utf8, changed, rows)[y])
  {
    hide Delivered, OnWire;
    forall y | y in changed ensures y in SentRows(utf8, changed, rows) && Delivered(utf8, rows[y], SentRows(utf8, changed, rows)[y]) {
      OnWireDelivers(utf8, rows[y]);
    }
  }

  lemma SentRowsCons(utf8: Utf8, changed: seq<nat>, rows: seq<Row>)
    requires changed != [] && changed[0] < |rows|
    ensures SentRows(utf8, changed, rows)
         == map[changed[0] := OnWire(utf8, rows[changed[0]])] + SentRows(utf8, changed[1..], rows)
  {
    hide OnWire;
    assert changed == [changed[0]] + changed[1..];
  }

  lemma ParsesChangedRow(utf8: Utf8, s: seq<Byte>, off: nat, y: nat, rows: seq<Row>)
    requires y < |rows| && y <= MAX_TEXT && |rows[y]| <= MAX_TEXT
    requires At(s, off, ChangedRowBytes(utf8, y, rows))
    ensures ReadUint(s, off, 2) == Some(y)
    ensures ParseRow(s, off + 2) == Some((OnWire(utf8, rows[y]), off + |ChangedRowBytes(utf8, y, rows)|))
  {
    hide ParseRow, RowBytes, At, OnWire, Le, ReadUint;
    Powers();
    AtSplit(s, off, Le(ClampU16(y), 2), RowBytes(utf8, rows[y]));
    ReadsUint(s, off, y, 2);
    ParsesRow(utf8, s, off + 2, rows[y]);
  }

  lemma {:induction false} ParsesChanged(utf8: Utf8, s: seq<Byte>, off: nat, changed: seq<nat>, rows: seq<Row>)
    requires At(s, off, ChangedBytes(utf8, changed, rows)) && RowsFit(rows) && ChangedFit(changed, rows)
    ensures ParseChanged(s, off, |changed|)
         == Some((changed, SentRows(utf8, changed, rows), off + |ChangedBytes(utf8, changed, rows)|))
    decreases |changed|
  {
    hide ParseRow, ChangedRowBytes, At, OnWire, ReadUint, SentRows;
    if changed == [] {
      assert SentRows(utf8, changed, rows) == map[] by { NothingSent(utf8, rows); }
    } else {
      AtSplit(s, off, ChangedRowBytes(utf8, changed[0], rows), ChangedBytes(utf8, changed[1..], rows));
      ParsesChangedRow(utf8, s, off, changed[0], rows);
      ParsesChanged(utf8, s, off + |ChangedRowBytes(utf8, changed[0], rows)|, changed[1..], rows);
      SentRowsCons(utf8, changed, rows);
      assert changed == [changed[0]] + changed[1..];
    }
  }

  lemma NothingSent(utf8: Utf8, rows: seq<Row>)
    ensures SentRows(utf8, [], rows) == map[]
  {}

  // ---- whole frames ----

  function ParseScreen(s: seq<Byte>, ack: nat): Option<Message> {
    match (ReadU64(s, 9), ReadUint(s, 17, 2), ReadUint(s, 19, 2), ReadUint(s, 21, 2), ReadUint(s, 23, 2),
           ReadUint(s, 25, 1), ReadUint(s, 26, 1))
    case (Some(base), Some(row), Some(col), Some(height), Some(count), Some(style), Some(flags)) =>
      (match ParseChanged(s, 27, count)
       case None => None
       case Some((changed, rows, _)) =>
         Some(Screen(ack, base, row, col, height,
                     CursorLook(style % 256, flags % 2 == 1, flags / 4 % 2 == 1),
                     flags / 2 % 2 == 1, flags / 8 % 2 == 1, flags / 16 % 2 == 1, changed, rows)))
    case _ => None
  }

  function ParseScroll(s: seq<Byte>, ack: nat): Option<Message> {
    match (ReadU64(s, 9), ReadUint(s, 17, 2))
    case (Some(firstIndex), Some(count)) =>
      (match ParseLines(s, 19, count)
       case None => None
       case Some((lines, _)) => Some(Scroll(ack, firstIndex, lines)))
    case _ => None
  }

  function UnpackFlags(b: nat): AckFlags {
    AckFlags(b % 2 == 1, b / 2 % 2 == 1, b / 4 % 2 == 1, b / 8 % 2 == 1)
  }

  /** A resumeAck grew twice; each tail is read only by a frame long enough to carry it. */
  function ParseResumeAck(s: seq<Byte>, ack: nat): Message
    requires |s| >= 9
  {
    ResumeAck(ack,
              if |s| >= 17 then Some(Number(UnLe(s[9..17]))) else None,
              if |s| >= 33 then Some((Number(UnLe(s[17..25])), Number(UnLe(s[25..33])))) else None,
              if |s| >= 35 then Some((s[33] as nat, UnpackFlags(s[34]))) else None)
  }

  function Parse(s: seq<Byte>): Option<Message> {
    if |s| < 9 then None
    else
      var ack := Number(UnLe(s[1..9]));
      if s[0] == MSG_RESUME_ACK then Some(ParseResumeAck(s, ack))
      else if s[0] == MSG_ACK_ONLY then Some(AckOnly(ack))
      else if s[0] == MSG_SCREEN then ParseScreen(s, ack)
      else if s[0] == MSG_SCROLL then ParseScroll(s, ack)
      else None
  }

  lemma Header(s: seq<Byte>, tag: Byte, ack: nat, rest: seq<Byte>)
    requires s == [tag] + Le(ack, 8) + rest && ack < Power256(8)
    ensures |s| >= 9 && s[0] == tag && UnLe(s[1..9]) == ack && At(s, 9, rest)
  {
    assert s[1..9] == Le(ack, 8);
    LeRoundTrip(ack, 8);
  }

  /** A scroll frame decodes to what was encoded, each line capped as every other path caps it. */
  lemma ScrollRoundTrip(utf8: Utf8, ack: nat, firstIndex: nat, lines: seq<Row>)
    requires ack < U64 && firstIndex < U64 && |lines| <= MAX_TEXT && RowsFit(lines)
    ensures Parse(ScrollBytes(utf8, ack, firstIndex, lines)) == Some(Scroll(Number(ack), Number(firstIndex), LinesOnWire(utf8, lines)))
    ensures forall i :: 0 <= i < |lines| ==> Delivered(utf8, lines[i], LinesOnWire(utf8, lines)[i])
  {
    hide Delivered, OnWire, Number, ParseResumeAck, ParseScreen;
    LinesDelivered(utf8, lines);
    hide Le, ParseLines, LinesBytes, LinesOnWire, ReadUint, At, UnLe;
    var s := ScrollBytes(utf8, ack, firstIndex, lines);
    var body := Le(firstIndex, 8) + Le(ClampU16(|lines|), 2) + LinesBytes(utf8, lines);
    assert s == [MSG_SCROLL] + Le(ack, 8) + body;
    Powers();
    Header(s, MSG_SCROLL, ack, body);
    AtSplit(s, 9, Le(firstIndex, 8) + Le(ClampU16(|lines|), 2), LinesBytes(utf8, lines));
    AtSplit(s, 9, Le(firstIndex, 8), Le(ClampU16(|lines|), 2));
    ReadsU64(s, 9, firstIndex);
    ReadsUint(s, 17, |lines|, 2);
    ParsesLines(utf8, s, 19, lines);
  }

  ghost predicate HeadFits(h: ScreenHead) {
    h.base < U64 && 0 <= h.curRow <= MAX_TEXT && 0 <= h.curCol <= MAX_TEXT && 0 <= h.height <= MAX_TEXT
  }

  lemma HeadParses(s: seq<Byte>, h: ScreenHead, count: nat)
    requires At(s, 9, HeadBytes(h, count)) && HeadFits(h) && count <= MAX_TEXT
    ensures ReadU64(s, 9) == Some(Number(h.base)) && ReadUint(s, 17, 2) == Some(h.curRow) && ReadUint(s, 19, 2) == Some(h.curCol)
    ensures ReadUint(s, 21, 2) == Some(h.height) && ReadUint(s, 23, 2) == Some(count)
    ensures ReadUint(s, 25, 1) == Some(h.look.style) && ReadUint(s, 26, 1) == Some(CursorFlags(h.look, h.bell, h.alt, h.cleared))
  {
    hide Le, CursorFlags, At, ReadUint;
    var p0, p1, p2 := Le(h.base, 8), Le(ClampU16(h.curRow), 2), Le(ClampU16(h.curCol), 2);
    var p3, p4 := Le(ClampU16(h.height), 2), Le(ClampU16(count), 2);
    var flags := CursorFlags(h.look, h.bell, h.alt, h.cleared);
    Powers();
    AtSplit(s, 9, p0 + p1 + p2 + p3 + p4 + [h.look.style], [flags]);
    AtSplit(s, 9, p0 + p1 + p2 + p3 + p4, [h.look.style]);
    AtSplit(s, 9, p0 + p1 + p2 + p3, p4);
    AtSplit(s, 9, p0 + p1 + p2, p3);
    AtSplit(s, 9, p0 + p1, p2);
    AtSplit(s, 9, p0, p1);
    ReadsU64(s, 9, h.base);
    ReadsUint(s, 17, h.curRow, 2);
    ReadsUint(s, 19, h.curCol, 2);
    ReadsUint(s, 21, h.height, 2);
    ReadsUint(s, 23, count, 2);
    ReadsByte(s, 25, h.look.style);
    ReadsByte(s, 26, flags);
  }

  lemma ReadsByte(s: seq<Byte>, off: nat, b: Byte)
    requires At(s, off, [b])
    ensures ReadUint(s, off, 1) == Some(b)
  {
    assert UnLe([b]) == b + 256 * UnLe([b][1..]);
  }

  /** Where the head and the rows of a screen frame lie. */
  lemma ScreenParts(utf8: Utf8, ack: nat, h: ScreenHead, changed: seq<nat>, rows: seq<Row>)
    requires ack < U64
    ensures var s := ScreenBytes(utf8, ack, h, changed, rows);
      && |s| >= 9 && s[0] == MSG_SCREEN && UnLe(s[1..9]) == ack
      && At(s, 9, HeadBytes(h, |changed|)) && At(s, 27, ChangedBytes(utf8, changed, rows))
  {
    hide Le, ChangedBytes, At, UnLe, HeadBytes;
    var s := ScreenBytes(utf8, ack, h, changed, rows);
    var body := HeadBytes(h, |changed|) + ChangedBytes(utf8, changed, rows);
    assert s == [MSG_SCREEN] + Le(ack, 8) + body;
    Powers();
    Header(s, MSG_SCREEN, ack, body);
    AtSplit(s, 9, HeadBytes(h, |changed|), ChangedBytes(utf8, changed, rows));
  }

  /** The look and the flags that a head's bytes stand for. */
  lemma FlagBits(h: ScreenHead)
    ensures var f := CursorFlags(h.look, h.bell, h.alt, h.cleared);
      && CursorLook(h.look.style % 256, f % 2 == 1, f / 4 % 2 == 1) == h.look
      && (f / 2 % 2 == 1) == h.bell && (f / 8 % 2 == 1) == h.alt && (f / 16 % 2 == 1) == h.cleared
  {}

  lemma ScreenParses(utf8: Utf8, s: seq<Byte>, ack: nat, h: ScreenHead, changed: seq<nat>, rows: seq<Row>)
    requires HeadFits(h) && |changed| <= MAX_TEXT && RowsFit(rows) && ChangedFit(changed, rows)
    requires At(s, 9, HeadBytes(h, |changed|)) && At(s, 27, ChangedBytes(utf8, changed, rows))
    ensures ParseScreen(s, ack) == Some(Screen(ack, Number(h.base), h.curRow, h.curCol, h.height, h.look, h.bell, h.alt, h.cleared,
                                               changed, SentRows(utf8, changed, rows)))
  {
    hide CursorFlags, ParseChanged, ChangedBytes, SentRows, ReadUint, ReadU64, At, HeadBytes, Number;
    FlagBits(h);
    HeadParses(s, h, |changed|);
    ParsesChanged(utf8, s, 27, changed, rows);
  }

  /** A screen frame decodes to the head, the changed indices, and the changed rows at their indices. */
  lemma ScreenRoundTrip(utf8: Utf8, ack: nat, h: ScreenHead, changed: seq<nat>, rows: seq<Row>)
    requires ack < U64 && HeadFits(h) && |changed| <= MAX_TEXT && RowsFit(rows) && ChangedFit(changed, rows)
    ensures Parse(ScreenBytes(utf8, ack, h, changed, rows))
         == Some(Screen(Number(ack), Number(h.base), h.curRow, h.curCol, h.height, h.look, h.bell, h.alt, h.cleared, changed,
                        SentRows(utf8, changed, rows)))
    ensures forall y :: y in changed ==>
      y in SentRows(utf8, changed, rows) && Delivered(utf8, rows[y], SentRows(utf8, changed, rows)[y])
  {
    SentRowsDelivered(utf8, changed, rows);
    hide Delivered;
    hide ScreenBytes, ParseScreen, ParseScroll, ParseResumeAck, ChangedBytes, SentRows, At, UnLe, HeadBytes, Number;
    var s := ScreenBytes(utf8, ack, h, changed, rows);
    ScreenParts(utf8, ack, h, changed, rows);
    ScreenParses(utf8, s, Number(ack), h, changed, rows);
  }

  function PackFlags(f: AckFlags): (b: Byte)
    ensures UnpackFlags(b) == f
  {
    Flag(f.ledgerLost, 1) + Flag(f.historyPaging, 2) + Flag(f.serverFocus, 4) + Flag(f.ephemeralInput, 8)
  }

  function ResumeAckBytes(ack: nat, epoch: nat, committed: nat, oldest: nat, f: AckFlags): seq<Byte> {
    [MSG_RESUME_ACK] + Le(ack, 8) + Le(epoch, 8) + Le(committed, 8) + Le(oldest, 8) + [WIRE_PROTOCOL_VERSION, PackFlags(f)]
  }

  /** Counts below 2^53 come back exactly; the epoch, far above that, comes back rounded. */
  lemma ResumeAckRoundTrip(ack: nat, epoch: nat, committed: nat, oldest: nat, f: AckFlags)
    requires ack < U64 && epoch < U64 && committed < U64 && oldest < U64
    ensures Parse(ResumeAckBytes(ack, epoch, committed, oldest, f))
         == Some(ResumeAck(Number(ack), Some(Number(epoch)), Some((Number(committed), Number(oldest))),
                           Some((WIRE_PROTOCOL_VERSION as nat, f))))
    ensures ack < EXACT ==> Number(ack) == ack
    ensures committed < EXACT ==> Number(committed) == committed
    ensures oldest < EXACT ==> Number(oldest) == oldest
  {
    hide Le, UnLe, Spacing;
    var s := ResumeAckBytes(ack, epoch, committed, oldest, f);
    Powers();
    Header(s, MSG_RESUME_ACK, ack, s[9..]);
    assert s[9..17] == Le(epoch, 8) && s[17..25] == Le(committed, 8) && s[25..33] == Le(oldest, 8);
    LeRoundTrip(epoch, 8);
    LeRoundTrip(committed, 8);
    LeRoundTrip(oldest, 8);
  }

  ghost function DecodedEpoch(s: seq<Byte>): Option<nat> {
    match Parse(s)
    case Some(ResumeAck(_, epoch, _, _)) => epoch
    case _ => None
  }

  /** What restart detection compares: one boot always decodes to one epoch, and two boots further apart than the
      spacing of doubles, 256 ns until the year 2043 and never over 2048 ns, to different ones, never 0. */
  lemma EpochsTellBootsApart(boot1: nat, boot2: nat, s1: seq<Byte>, s2: seq<Byte>,
                             ack1: nat, committed1: nat, oldest1: nat, f1: AckFlags,
                             ack2: nat, committed2: nat, oldest2: nat, f2: AckFlags)
    requires boot1 < U64 && ack1 < U64 && committed1 < U64 && oldest1 < U64
    requires boot2 < U64 && ack2 < U64 && committed2 < U64 && oldest2 < U64
    requires s1 == ResumeAckBytes(ack1, boot1, committed1, oldest1, f1)
    requires s2 == ResumeAckBytes(ack2, boot2, committed2, oldest2, f2)
    ensures DecodedEpoch(s1).Some? && DecodedEpoch(s2).Some?
    ensures boot1 == boot2 ==> DecodedEpoch(s1) == DecodedEpoch(s2)
    ensures boot1 + Spacing(boot2) < boot2 ==> DecodedEpoch(s1).value < DecodedEpoch(s2).value
    ensures boot1 < boot2 ==> Spacing(boot2) <= 2048 && (0x1000_0000_0000_0000 <= boot2 < 0x2000_0000_0000_0000 ==> Spacing(boot2) == 256)
    ensures boot1 > 0 ==> DecodedEpoch(s1).value > 0
  {
    hide Number, Spacing, Parse, ResumeAckBytes;
    ResumeAckRoundTrip(ack1, boot1, committed1, oldest1, f1);
    ResumeAckRoundTrip(ack2, boot2, committed2, oldest2, f2);
    if boot1 + Spacing(boot2) < boot2 { NumbersApart(boot1, boot2); }
    SpacingOfCounts(boot2);
    if boot1 > 0 { NumberIsPositive(boot1); }
  }

  // ---- stamping the ack ----

  /** The copy of a frame that goes to one client. */
  function WithClientAck(template: seq<Byte>, ack: nat): seq<Byte> {
    if |template| >= 9 then template[..1] + Le(ack, 8) + template[9..] else template
  }

  function SetAck(m: Message, n: nat): Message {
    match m
    case ResumeAck(_, _, _, _) => m.(received := n)
    case Screen(_, _, _, _, _, _, _, _, _, _, _) => m.(ack := n)
    case Scroll(_, _, _) => m.(ack := n)
    case AckOnly(_) => AckOnly(n)
  }

  ghost predicate SameBody(s: seq<Byte>, t: seq<Byte>) { |s| == |t| >= 9 && s[9..] == t[9..] }

  lemma SameReads(s: seq<Byte>, t: seq<Byte>, off: nat, k: nat)
    requires SameBody(s, t) && off >= 9
    ensures ReadUint(s, off, k) == ReadUint(t, off, k) && ReadText(s, off, k) == ReadText(t, off, k)
  {
    assert forall i :: 9 <= i < |s| ==> s[i] == s[9..][i - 9] && t[i] == t[9..][i - 9];
    if off + k <= |s| { assert s[off..off + k] == t[off..off + k]; }
    assert ReadText(s, off, k) == ReadText(t, off, k);
  }

  lemma SameRun(s: seq<Byte>, t: seq<Byte>, off: nat)
    requires SameBody(s, t) && off >= 9
    ensures ParseRun(s, off) == ParseRun(t, off)
    ensures ParseRun(s, off).Some? ==> ParseRun(s, off).value.1 >= 9
  {
    hide SameBody, ReadUint, ReadText;
    SameReads(s, t, off, 2);
    if ReadUint(s, off, 2).Some? {
      var tlen := ReadUint(s, off, 2).value;
      var o := off + 2 + tlen;
      SameReads(s, t, off + 2, tlen);
      SameReads(s, t, o, 4);
      SameReads(s, t, o + 4, 4);
      SameReads(s, t, o + 8, 2);
      SameReads(s, t, o + 10, 4);
      SameReads(s, t, o + 14, 2);
      if ReadUint(s, o + 14, 2).Some? { SameReads(s, t, o + 16, ReadUint(s, o + 14, 2).value); }
    }
  }

  lemma {:induction false} SameRuns(s: seq<Byte>, t: seq<Byte>, off: nat, n: nat)
    requires SameBody(s, t) && off >= 9
    ensures ParseRuns(s, off, n) == ParseRuns(t, off, n)
    ensures ParseRuns(s, off, n).Some? ==> ParseRuns(s, off, n).value.1 >= 9
    decreases n
  {
    hide SameBody, ParseRun;
    if n > 0 {
      SameRun(s, t, off);
      if ParseRun(s, off).Some? { SameRuns(s, t, ParseRun(s, off).value.1, n - 1); }
    }
  }

  lemma SameRow(s: seq<Byte>, t: seq<Byte>, off: nat)
    requires SameBody(s, t) && off >= 9
    ensures ParseRow(s, off) == ParseRow(t, off)
    ensures ParseRow(s, off).Some? ==> ParseRow(s, off).value.1 >= 9
  {
    hide SameBody, ReadUint, ParseRuns;
    SameReads(s, t, off, 2);
    if ReadUint(s, off, 2).Some? { SameRuns(s, t, off + 2, ReadUint(s, off, 2).value); }
  }

  lemma {:induction false} SameLines(s: seq<Byte>, t: seq<Byte>, off: nat, n: nat)
    requires SameBody(s, t) && off >= 9
    ensures ParseLines(s, off, n) == ParseLines(t, off, n)
    decreases n
  {
    hide SameBody, ParseRow;
    if n > 0 {
      SameRow(s, t, off);
      if ParseRow(s, off).Some? { SameLines(s, t, ParseRow(s, off).value.1, n - 1); }
    }
  }

  lemma {:induction false} SameChanged(s: seq<Byte>, t: seq<Byte>, off: nat, n: nat)
    requires SameBody(s, t) && off >= 9
    ensures ParseChanged(s, off, n) == ParseChanged(t, off, n)
    decreases n
  {
    hide SameBody, ParseRow, ReadUint;
    if n > 0 {
      SameReads(s, t, off, 2);
      SameRow(s, t, off + 2);
      if ParseRow(s, off + 2).Some? { SameChanged(s, t, ParseRow(s, off + 2).value.1, n - 1); }
    }
  }

  /** Stamping one client's ack changes what it decodes to in the ack alone, whatever the frame. */
  lemma StampChangesOnlyTheAck(s: seq<Byte>, ack: nat)
    requires ack < U64
    ensures match Parse(s)
            case None => Parse(WithClientAck(s, ack)) == None
            case Some(m) => Parse(WithClientAck(s, ack)) == Some(SetAck(m, Number(ack)))
  {
    hide Le, UnLe, ParseLines, ParseChanged, ReadUint;
    if |s| >= 9 {
      var t := WithClientAck(s, ack);
      assert t == [s[0]] + Le(ack, 8) + s[9..];
      Powers();
      Header(t, s[0], ack, s[9..]);
      assert SameBody(s, t);
      StampedScreen(s, t, Number(UnLe(s[1..9])), Number(ack));
      StampedScroll(s, t, Number(UnLe(s[1..9])), Number(ack));
      if |s| >= 17 { assert s[9..17] == t[9..17]; }
      if |s| >= 33 { assert s[17..25] == t[17..25] && s[25..33] == t[25..33]; }
    }
  }

  lemma StampedScreen(s: seq<Byte>, t: seq<Byte>, a: nat, b: nat)
    requires SameBody(s, t)
    ensures match ParseScreen(s, a)
            case None => ParseScreen(t, b) == None
            case Some(m) => m.Screen? && ParseScreen(t, b) == Some(SetAck(m, b))
  {
    hide SameBody, ReadUint, ParseChanged;
    SameReads(s, t, 9, 8);
    SameReads(s, t, 17, 2);
    SameReads(s, t, 19, 2);
    SameReads(s, t, 21, 2);
    SameReads(s, t, 23, 2);
    SameReads(s, t, 25, 1);
    SameReads(s, t, 26, 1);
    if ReadUint(s, 23, 2).Some? { SameChanged(s, t, 27, ReadUint(s, 23, 2).value); }
  }

  lemma StampedScroll(s: seq<Byte>, t: seq<Byte>, a: nat, b: nat)
    requires SameBody(s, t)
    ensures match ParseScroll(s, a)
            case None => ParseScroll(t, b) == None
            case Some(m) => m.Scroll? && ParseScroll(t, b) == Some(SetAck(m, b))
  {
    hide SameBody, ReadUint, ParseLines;
    SameReads(s, t, 9, 8);
    SameReads(s, t, 17, 2);
    if ReadUint(s, 17, 2).Some? { SameLines(s, t, 19, ReadUint(s, 17, 2).value); }
  }

  // ---- the decoder as the client runs it ----

  /** The read position over one frame. A read that would pass the end fails and the frame is dropped. */
  class Cursor {
    const bytes: seq<Byte>
    var off: nat

    constructor (frame: seq<Byte>)
      ensures bytes == frame && off == 0
    {
      bytes := frame;
      off := 0;
    }

    method Uint(k: nat) returns (v: Option<nat>)
      modifies this
      ensures v == ReadUint(bytes, old(off), k) && off == old(off) + if v.Some? then k else 0
    {
      v := ReadUint(bytes, off, k);
      if v.Some? { off := off + k; }
    }

    method U64() returns (v: Option<nat>)
      modifies this
      ensures v == ReadU64(bytes, old(off)) && off == old(off) + if v.Some? then 8 else 0
    {
      var raw := Uint(8);
      v := if raw.Some? then Some(Number(raw.value)) else None;
    }

    method I32() returns (v: Option<Color>)
      modifies this
      ensures v == ReadColor(bytes, old(off)) && off == old(off) + if v.Some? then 4 else 0
    {
      v := ReadColor(bytes, off);
      if v.Some? { off := off + 4; }
    }

    method Text(len: nat) returns (t: seq<Byte>)
      modifies this
      ensures t == ReadText(bytes, old(off), len) && off == old(off) + len
    {
      t := ReadText(bytes, off, len);
      off := off + len;
    }

    method ReadRun() returns (run: Option<Run>)
      modifies this
      ensures match ParseRun(bytes, old(off))
              case None => run == None
              case Some((r, end)) => run == Some(r) && off == end
    {
      hide ReadUint, ReadColor, ReadText;
      var tlen := Uint(2);
      if tlen.None? { return None; }
      var t := Text(tlen.value);
      var f := I32();
      if f.None? { return None; }
      var b := I32();
      if b.None? { return None; }
      var a := Uint(2);
      if a.None? { return None; }
      var uc := I32();
      if uc.None? { return None; }
      var ulen := Uint(2);
      if ulen.None? { return None; }
      var u := Text(ulen.value);
      return Some(Run(t, f.value, b.value, a.value % 0x1_0000, uc.value, u));
    }

    method ReadRowRuns() returns (row: Option<Row>)
      modifies this
      ensures match ParseRow(bytes, old(off))
              case None => row == None
              case Some((r, end)) => row == Some(r) && off == end
    {
      hide ReadUint, ParseRun;
      var n := Uint(2);
      if n.None? { return None; }
      var runs: seq<Run> := [];
      ghost var start := off;
      ghost var all := ParseRuns(bytes, start, n.value);
      if all.Some? { assert runs + all.value.0 == all.value.0; }
      var i := 0;
      while i < n.value
        invariant 0 <= i <= n.value
        invariant match ParseRuns(bytes, off, n.value - i)
                  case None => ParseRuns(bytes, start, n.value) == None
                  case Some((rest, end)) => ParseRuns(bytes, start, n.value) == Some((runs + rest, end))
      {
        var run := ReadRun();
        if run.None? { return None; }
        ghost var tail := ParseRuns(bytes, off, n.value - i - 1);
        if tail.Some? { assert runs + ([run.value] + tail.value.0) == runs + [run.value] + tail.value.0; }
        runs := runs + [run.value];
        i := i + 1;
      }
      assert runs + [] == runs;
      return Some(runs);
    }

    method ReadLines(n: nat) returns (lines: Option<seq<Row>>)
      modifies this
      ensures match ParseLines(bytes, old(off), n)
              case None => lines == None
              case Some((ls, end)) => lines == Some(ls) && off == end
    {
      hide ParseRow;
      var got: seq<Row> := [];
      ghost var start := off;
      ghost var all := ParseLines(bytes, start, n);
      if all.Some? { assert got + all.value.0 == all.value.0; }
      var i := 0;
      while i < n
        invariant 0 <= i <= n
        invariant match ParseLines(bytes, off, n - i)
                  case None => ParseLines(bytes, start, n) == None
                  case Some((rest, end)) => ParseLines(bytes, start, n) == Some((got + rest, end))
      {
        var row := ReadRowRuns();
        if row.None? { return None; }
        ghost var tail := ParseLines(bytes, off, n - i - 1);
        if tail.Some? { assert got + ([row.value] + tail.value.0) == got + [row.value] + tail.value.0; }
        got := got + [row.value];
        i := i + 1;
      }
      assert got + [] == got;
      return Some(got);
    }

    method ReadChanged(n: nat) returns (found: Option<(seq<nat>, map<nat, Row>)>)
      modifies this
      ensures match ParseChanged(bytes, old(off), n)
              case None => found == None
              case Some((ys, rows, end)) => found == Some((ys, rows)) && off == end
    {
      hide ParseRow, ReadUint;
      var changed: seq<nat>, rows: map<nat, Row> := [], map[];
      ghost var start := off;
      ghost var all := ParseChanged(bytes, start, n);
      if all.Some? { assert changed + all.value.0 == all.value.0 && rows + all.value.1 == all.value.1; }
      var i := 0;
      while i < n
        invariant 0 <= i <= n
        invariant match ParseChanged(bytes, off, n - i)
                  case None => all == None
                  case Some((ys, more, end)) => all == Some((changed + ys, rows + more, end))
      {
        var y := Uint(2);
        if y.None? { return None; }
        var row := ReadRowRuns();
        if row.None? { return None; }
        ghost var tail := ParseChanged(bytes, off, n - i - 1);
        if tail.Some? {
          assert changed + ([y.value] + tail.value.0) == changed + [y.value] + tail.value.0;
          assert rows + (map[y.value := row.value] + tail.value.1) == rows[y.value := row.value] + tail.value.1;
        }
        changed, rows := changed + [y.value], rows[y.value := row.value];
        i := i + 1;
      }
      assert changed + [] == changed && rows + map[] == rows;
      return Some((changed, rows));
    }
  }

  method DecodeScreen(c: Cursor, ack: nat) returns (m: Option<Message>)
    requires c.off == 9
    modifies c
    ensures m == ParseScreen(c.bytes, ack)
  {
    hide ReadUint, ParseChanged;
    var base := c.U64();
    if base.None? { return None; }
    var row := c.Uint(2);
    if row.None? { return None; }
    var col := c.Uint(2);
    if col.None? { return None; }
    var height := c.Uint(2);
    if height.None? { return None; }
    var count := c.Uint(2);
    if count.None? { return None; }
    var style := c.Uint(1);
    if style.None? { return None; }
    var flags := c.Uint(1);
    if flags.None? { return None; }
    var found := c.ReadChanged(count.value);
    if found.None? { return None; }
    var f := flags.value;
    return Some(Screen(ack, base.value, row.value, col.value, height.value,
                       CursorLook(style.value % 256, f % 2 == 1, f / 4 % 2 == 1),
                       f / 2 % 2 == 1, f / 8 % 2 == 1, f / 16 % 2 == 1, found.value.0, found.value.1));
  }

  method DecodeScroll(c: Cursor, ack: nat) returns (m: Option<Message>)
    requires c.off == 9
    modifies c
    ensures m == ParseScroll(c.bytes, ack)
  {
    hide ReadUint, ParseLines;
    var firstIndex := c.U64();
    if firstIndex.None? { return None; }
    var count := c.Uint(2);
    if count.None? { return None; }
    var lines := c.ReadLines(count.value);
    if lines.None? { return None; }
    return Some(Scroll(ack, firstIndex.value, lines.value));
  }
}
