/** The binary wire format: the server's encoders against the client's decoder.

    Text is the bytes of a string; a string's UTF-8 validity is the one fact the encoder needs
    from the Unicode library. A colour is 32 bits in two's complement, -1 for the default. */
module Wire {
  import opened Sequences

  type Color = c: int | -0x8000_0000 <= c < 0x8000_0000

  type Attrs = a: nat | a < 0x1_0000

  datatype Run = Run(text: seq<Byte>, fg: Color, bg: Color, attrs: Attrs, underline: Color, url: seq<Byte>)

  type Row = seq<Run>

  type Utf8 = seq<Byte> -> bool

  const ATTR_AUTOLINK := 1024
  const MAX_TEXT: nat := 0xFFFF
  const ROW_COUNT_SIZE: nat := 2
  const RUN_FIXED_SIZE: nat := 18
  const SCROLL_HEADER_SIZE: nat := 19
  const PAGE_BYTE_BUDGET: nat := 256 * 1024
  const ROW_BYTE_CEILING: nat := PAGE_BYTE_BUDGET - SCROLL_HEADER_SIZE
  const MSG_SCREEN: Byte := 0
  const MSG_SCROLL: Byte := 1

  // ---- little-endian integers ----

  function Power256(k: nat): (p: nat)
    ensures p > 0
  {
    if k == 0 then 1 else 256 * Power256(k - 1)
  }

  /** The low `k` bytes of `n`, least significant first. */
  function Le(n: nat, k: nat): (s: seq<Byte>)
    ensures |s| == k
    decreases k
  {
    if k == 0 then [] else [n % 256] + Le(n / 256, k - 1)
  }

  function UnLe(s: seq<Byte>): nat {
    if s == [] then 0 else s[0] + 256 * UnLe(s[1..])
  }

  lemma {:induction false} LeRoundTrip(n: nat, k: nat)
    requires n < Power256(k)
    ensures UnLe(Le(n, k)) == n
    decreases k
  {
    if k > 0 {
      LeRoundTrip(n / 256, k - 1);
      assert Le(n, k)[1..] == Le(n / 256, k - 1);
    }
  }

  lemma Powers()
    ensures Power256(2) == 0x1_0000 && Power256(4) == 0x1_0000_0000 && Power256(8) == 0x1_0000_0000_0000_0000
  {}

  function ClampU16(n: int): (r: nat)
    ensures r <= MAX_TEXT && (0 <= n <= MAX_TEXT ==> r == n)
  {
    if n < 0 then 0 else if n > MAX_TEXT then MAX_TEXT else n
  }

  function Bits32(c: Color): nat { if c < 0 then c + 0x1_0000_0000 else c }

  function Signed32(n: nat): Color
    requires n < 0x1_0000_0000
  {
    if n >= 0x8000_0000 then n - 0x1_0000_0000 else n
  }

  // ---- rows ----

  /** The longest valid prefix of `s[..n]`. */
  function ValidPrefix(utf8: Utf8, s: seq<Byte>, n: nat): (t: seq<Byte>)
    requires n <= |s|
    ensures t <= s && |t| <= n
    decreases n
  {
    if n == 0 || utf8(s[..n]) then s[..n] else ValidPrefix(utf8, s, n - 1)
  }

  function Truncate(utf8: Utf8, s: seq<Byte>): (t: seq<Byte>)
    ensures t <= s && |t| <= MAX_TEXT && (|s| <= MAX_TEXT ==> t == s)
  {
    if |s| <= MAX_TEXT then s else ValidPrefix(utf8, s, MAX_TEXT)
  }

  function TruncateRun(utf8: Utf8, r: Run): Run {
    r.(text := Truncate(utf8, r.text), url := Truncate(utf8, r.url))
  }

  function EncodedRowSize(utf8: Utf8, row: Row): nat {
    if row == [] then ROW_COUNT_SIZE
    else RUN_FIXED_SIZE + |Truncate(utf8, row[0].text)| + |Truncate(utf8, row[0].url)| + EncodedRowSize(utf8, row[1..])
  }

  function Unlink(r: Run): Run {
    r.(url := [], attrs := if (r.attrs / ATTR_AUTOLINK) % 2 == 1 then r.attrs - ATTR_AUTOLINK else r.attrs)
  }

  function StripRowUris(row: Row): (r: Row)
    ensures |r| == |row| && forall i :: 0 <= i < |r| ==> r[i] == Unlink(row[i])
  {
    seq(|row|, i requires 0 <= i < |row| => Unlink(row[i]))
  }

  /** Depends on the row alone, so one line has one encoding on every path. */
  function CapRow(utf8: Utf8, row: Row): Row {
    if EncodedRowSize(utf8, row) <= ROW_BYTE_CEILING then row else StripRowUris(row)
  }

  function RunBytes(utf8: Utf8, r: Run): seq<Byte> {
    var text, url := Truncate(utf8, r.text), Truncate(utf8, r.url);
    Le(ClampU16(|text|), 2) + text + Le(Bits32(r.fg), 4) + Le(Bits32(r.bg), 4) + Le(r.attrs, 2)
    + Le(Bits32(r.underline), 4) + Le(ClampU16(|url|), 2) + url
  }

  function RunsBytes(utf8: Utf8, row: Row): seq<Byte> {
    if row == [] then [] else RunBytes(utf8, row[0]) + RunsBytes(utf8, row[1..])
  }

  function RowBytes(utf8: Utf8, row: Row): seq<Byte> {
    var capped := CapRow(utf8, row);
    Le(ClampU16(|capped|), 2) + RunsBytes(utf8, capped)
  }

  method AppendRowRuns(utf8: Utf8, buf: seq<Byte>, row: Row) returns (out: seq<Byte>)
    ensures out == buf + RowBytes(utf8, row)
  {
    hide Le, RunBytes, CapRow, ClampU16;
    var capped := CapRow(utf8, row);
    out := buf + Le(ClampU16(|capped|), 2);
    ghost var goal := out + RunsBytes(utf8, capped);
    assert goal == buf + RowBytes(utf8, row);
    var i := 0;
    while i < |capped|
      invariant 0 <= i <= |capped|
      invariant out + RunsBytes(utf8, capped[i..]) == goal
    {
      assert capped[i..][1..] == capped[i + 1..];
      assert out + (RunBytes(utf8, capped[i]) + RunsBytes(utf8, capped[i + 1..])) == goal;
      out := out + RunBytes(utf8, capped[i]);
      i := i + 1;
    }
  }

  lemma {:induction false} RunsBytesSize(utf8: Utf8, row: Row)
    ensures |RunsBytes(utf8, row)| + ROW_COUNT_SIZE == EncodedRowSize(utf8, row)
  {
    if row != [] { RunsBytesSize(utf8, row[1..]); }
  }

  /** The size the page packer computes is the size the encoder writes. */
  lemma RowSizeIsExact(utf8: Utf8, row: Row)
    ensures |RowBytes(utf8, row)| == EncodedRowSize(utf8, CapRow(utf8, row))
  {
    RunsBytesSize(utf8, CapRow(utf8, row));
  }

  function TextSize(row: Row): nat {
    if row == [] then 0 else |row[0].text| + TextSize(row[1..])
  }

  lemma {:induction false} StrippedSize(utf8: Utf8, row: Row)
    ensures EncodedRowSize(utf8, StripRowUris(row)) <= ROW_COUNT_SIZE + RUN_FIXED_SIZE * |row| + TextSize(row)
  {
    if row != [] {
      assert StripRowUris(row)[1..] == StripRowUris(row[1..]);
      StrippedSize(utf8, row[1..]);
    }
  }

  /** A row with at most as many runs as the widest screen has columns, and at most four bytes of text
      a column, never exceeds the ceiling once capped: stripping its links is always enough. */
  lemma CappedRowFits(utf8: Utf8, row: Row, columns: nat)
    requires |row| <= columns <= 1000 && TextSize(row) <= 4 * columns
    ensures EncodedRowSize(utf8, CapRow(utf8, row)) <= ROW_BYTE_CEILING
  {
    StrippedSize(utf8, row);
  }

  // ---- frames ----

  datatype CursorLook = CursorLook(style: Byte, hidden: bool, blink: bool)

  function Flag(b: bool, bit: nat): nat { if b then bit else 0 }

  /** `b` below the bits of `rest`. */
  function Bit(b: bool, rest: nat): (r: nat)
    ensures (r % 2 == 1 <==> b) && r / 2 == rest
  {
    Flag(b, 1) + 2 * rest
  }

  function CursorFlags(look: CursorLook, bell: bool, alt: bool, cleared: bool): (r: Byte)
    ensures (r % 2 == 1 <==> look.hidden) && (r / 2 % 2 == 1 <==> bell) && (r / 2 / 2 % 2 == 1 <==> look.blink)
         && (r / 2 / 2 / 2 % 2 == 1 <==> alt) && (r / 2 / 2 / 2 / 2 % 2 == 1 <==> cleared)
  {
    var top := Flag(cleared, 1);
    var alts := Bit(alt, top);
    var blinks := Bit(look.blink, alts);
    var bells := Bit(bell, blinks);
    assert Flag(look.hidden, 1) + Flag(bell, 2) + Flag(look.blink, 4) + Flag(alt, 8) + Flag(cleared, 16)
      == Bit(look.hidden, bells);
    Flag(look.hidden, 1) + Flag(bell, 2) + Flag(look.blink, 4) + Flag(alt, 8) + Flag(cleared, 16)
  }

  function LinesBytes(utf8: Utf8, lines: seq<Row>): seq<Byte> {
    if lines == [] then [] else RowBytes(utf8, lines[0]) + LinesBytes(utf8, lines[1..])
  }

  function ScrollBytes(utf8: Utf8, ack: nat, firstIndex: nat, lines: seq<Row>): seq<Byte> {
    [MSG_SCROLL] + Le(ack, 8) + Le(firstIndex, 8) + Le(ClampU16(|lines|), 2) + LinesBytes(utf8, lines)
  }

  method EncodeScrollMsg(utf8: Utf8, ack: nat, firstIndex: nat, lines: seq<Row>) returns (buf: seq<Byte>)
    ensures buf == ScrollBytes(utf8, ack, firstIndex, lines)
  {
    hide Le, RowBytes, ClampU16;
    buf := [MSG_SCROLL] + Le(ack, 8) + Le(firstIndex, 8) + Le(ClampU16(|lines|), 2);
    ghost var goal := ScrollBytes(utf8, ack, firstIndex, lines);
    assert buf + LinesBytes(utf8, lines) == goal;
    hide ScrollBytes;
    var i := 0;
    while i < |lines|
      invariant 0 <= i <= |lines|
      invariant buf + LinesBytes(utf8, lines[i..]) == goal
    {
      assert lines[i..][1..] == lines[i + 1..];
      assert buf + (RowBytes(utf8, lines[i]) + LinesBytes(utf8, lines[i + 1..])) == goal;
      buf := AppendRowRuns(utf8, buf, lines[i]);
      i := i + 1;
    }
  }

  /** The frame's scalar fields; the rows are passed beside it. */
  datatype ScreenHead = ScreenHead(base: nat, curRow: int, curCol: int, height: int, look: CursorLook,
                                   bell: bool, alt: bool, cleared: bool)

  function ChangedRowBytes(utf8: Utf8, y: int, rows: seq<Row>): seq<Byte> {
    Le(ClampU16(y), 2) + if 0 <= y < |rows| then RowBytes(utf8, rows[y]) else Le(0, 2)
  }

  function ChangedBytes(utf8: Utf8, changed: seq<int>, rows: seq<Row>): seq<Byte> {
    if changed == [] then [] else ChangedRowBytes(utf8, changed[0], rows) + ChangedBytes(utf8, changed[1..], rows)
  }

  function HeadBytes(h: ScreenHead, count: nat): (s: seq<Byte>)
    ensures |s| == 18
  {
    Le(h.base, 8) + Le(ClampU16(h.curRow), 2) + Le(ClampU16(h.curCol), 2) + Le(ClampU16(h.height), 2)
    + Le(ClampU16(count), 2) + [h.look.style] + [CursorFlags(h.look, h.bell, h.alt, h.cleared)]
  }

  function ScreenBytes(utf8: Utf8, ack: nat, h: ScreenHead, changed: seq<int>, rows: seq<Row>): seq<Byte> {
    [MSG_SCREEN] + Le(ack, 8) + HeadBytes(h, |changed|) + ChangedBytes(utf8, changed, rows)
  }

  method EncodeScreenMsg(utf8: Utf8, ack: nat, h: ScreenHead, changed: seq<int>, rows: seq<Row>) returns (buf: seq<Byte>)
    ensures buf == ScreenBytes(utf8, ack, h, changed, rows)
  {
    hide Le, RowBytes, HeadBytes, ClampU16;
    buf := [MSG_SCREEN] + Le(ack, 8) + HeadBytes(h, |changed|);
    ghost var goal := ScreenBytes(utf8, ack, h, changed, rows);
    assert buf + ChangedBytes(utf8, changed, rows) == goal;
    hide ScreenBytes;
    var i := 0;
    while i < |changed|
      invariant 0 <= i <= |changed|
      invariant buf + ChangedBytes(utf8, changed[i..], rows) == goal
    {
      var y := changed[i];
      assert changed[i..][1..] == changed[i + 1..];
      ghost var before := buf;
      assert before + (ChangedRowBytes(utf8, y, rows) + ChangedBytes(utf8, changed[i + 1..], rows)) == goal;
      buf := buf + Le(ClampU16(y), 2);
      if 0 <= y < |rows| {
        buf := AppendRowRuns(utf8, buf, rows[y]);
      } else {
        buf := buf + Le(0, 2);
      }
      assert buf == before + ChangedRowBytes(utf8, y, rows);
      i := i + 1;
    }
  }
}
