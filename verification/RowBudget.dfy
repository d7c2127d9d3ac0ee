/** Every row a screen can produce fits one history page. */
module RowBudget {
  import opened Sequences
  import Sgr
  import Autolinks
  import Lines
  import Rendering
  import Runs
  import Wire

  /** The encodings the wire rows take from the rune and palette tables: at most four bytes a rune. */
  datatype Codec = Codec(rune: Runs.Rune -> seq<Byte>, paint: Sgr.Style -> (Wire.Color, Wire.Color, Wire.Attrs, Wire.Color),
                         url: string -> seq<Byte>)

  ghost predicate CodecOk(c: Codec) { forall r :: |c.rune(r)| <= 4 }

  function TextBytes(c: Codec, text: seq<Runs.Rune>): seq<Byte> {
    if text == [] then [] else c.rune(text[0]) + TextBytes(c, text[1..])
  }

  function ToWire(c: Codec, r: Runs.Run): Wire.Run {
    var (f, b, a, u) := c.paint(r.style);
    Wire.Run(TextBytes(c, r.text), f, b, if r.auto && (a / Wire.ATTR_AUTOLINK) % 2 == 0 && a + Wire.ATTR_AUTOLINK < 0x1_0000
                                         then a + Wire.ATTR_AUTOLINK else a, u, c.url(r.url))
  }

  function RowToWire(c: Codec, runs: seq<Runs.Run>): (row: Wire.Row)
    ensures |row| == |runs| && forall i :: 0 <= i < |row| ==> row[i] == ToWire(c, runs[i])
  {
    seq(|runs|, i requires 0 <= i < |runs| => ToWire(c, runs[i]))
  }

  lemma {:induction false} TextIsShort(c: Codec, text: seq<Runs.Rune>)
    requires CodecOk(c)
    ensures |TextBytes(c, text)| <= 4 * |text|
    decreases |text|
  {
    if text != [] { TextIsShort(c, text[1..]); }
  }

  function Width(runs: seq<Runs.Run>): nat {
    if runs == [] then 0 else |runs[0].text| + Width(runs[1..])
  }

  lemma {:induction false} WidthIsColumns(runs: seq<Runs.Run>)
    ensures Width(runs) == |Runs.Expand(runs)|
    decreases |runs|
  {
    if runs != [] {
      WidthIsColumns(runs[1..]);
      assert runs == [runs[0]] + runs[1..];
      Runs.ExpandConcat([runs[0]], runs[1..]);
      assert [runs[0]][..0] == [];
      assert Runs.Expand([runs[0]]) == Runs.Expand([]) + Runs.Columns(runs[0]);
    }
  }

  lemma {:induction false} RowIsShort(c: Codec, runs: seq<Runs.Run>)
    requires CodecOk(c) && forall i :: 0 <= i < |runs| ==> runs[i].text != []
    ensures |runs| <= Width(runs) && Wire.TextSize(RowToWire(c, runs)) <= 4 * Width(runs)
    decreases |runs|
  {
    if runs != [] {
      TextIsShort(c, runs[0].text);
      RowIsShort(c, runs[1..]);
      assert RowToWire(c, runs)[1..] == RowToWire(c, runs[1..]);
    }
  }

  /** Runs without empty ones, over at most 1000 columns, however they are styled and linked, encode to a
      row that fits one page once it is capped. */
  lemma ScreenRowFits(utf8: Wire.Utf8, c: Codec, runs: seq<Runs.Run>)
    requires CodecOk(c) && |Runs.Expand(runs)| <= 1000 && forall i :: 0 <= i < |runs| ==> runs[i].text != []
    ensures Wire.EncodedRowSize(utf8, Wire.CapRow(utf8, RowToWire(c, runs))) <= Wire.ROW_BYTE_CEILING
  {
    hide Wire.EncodedRowSize, Wire.CapRow, RowToWire;
    WidthIsColumns(runs);
    RowIsShort(c, runs);
    Wire.CappedRowFits(utf8, RowToWire(c, runs), 1000);
  }

  /** The widest row a screen can have. */
  const MAX_COLUMNS: nat := 1000

  /** A row of at most 1000 columns, rendered with its links stamped on it, fits one page once it is capped. */
  method RenderBudgetedRow(utf8: Wire.Utf8, c: Codec, ls: seq<Lines.Line>, tail: seq<seq<Runs.Rune>>, y: nat, find: Rendering.Scan)
    returns (row: Wire.Row, ghost runs: seq<Runs.Run>, ghost start: nat, ghost end: nat,
             ghost rows: seq<Autolinks.ChainRow>, ghost focus: nat)
    requires CodecOk(c) && Rendering.ScanOk(find)
    requires y < |ls| && |ls[y].cells| <= MAX_COLUMNS
    ensures start <= y <= end < |ls| && Autolinks.BuiltAround(ls, tail, y, start, end, rows, focus)
    ensures Rendering.RendersAs(ls, y, find, rows, focus, runs)
    ensures row == Wire.CapRow(utf8, RowToWire(c, runs))
    ensures Wire.EncodedRowSize(utf8, row) <= Wire.ROW_BYTE_CEILING
  {
    hide Wire.EncodedRowSize, Wire.CapRow, RowToWire, Rendering.RendersAs, Rendering.ScanOk, Autolinks.IsChain;
    var sent;
    sent, start, end, rows, focus := Rendering.RenderRow(ls, tail, y, find);
    runs := sent;
    ScreenRowFits(utf8, c, runs);
    row := Wire.CapRow(utf8, RowToWire(c, sent));
  }
}
