/** Rows of cells as runs of one style, and links stamped onto them by column. */
module Runs {
  import opened Sequences
  import opened Sgr
  import opened Lines

  type Rune = nat

  /** `auto` marks a link the server found in the text; an application's own link carries none. */
  datatype Run = Run(text: seq<Rune>, style: Style, url: string, auto: bool)

  /** One column as the client shows it. */
  datatype Shown = Shown(rune: Rune, style: Style, url: string, auto: bool)

  const SPACER: Rune := 0xFFFF

  function RuneOf(c: Cell): Rune { if c.ch == 0 then SPACER else c.ch }

  predicate TrimmableBlank(c: Cell) { c.ch == 0x20 && c.style == PLAIN && c.link == "" }

  function ShownCell(c: Cell): Shown { Shown(RuneOf(c), c.style, c.link, false) }

  function ShownCells(row: seq<Cell>): (r: seq<Shown>)
    ensures |r| == |row| && forall x :: 0 <= x < |r| ==> r[x] == ShownCell(row[x])
  {
    seq(|row|, x requires 0 <= x < |row| => ShownCell(row[x]))
  }

  function Columns(r: Run): (s: seq<Shown>)
    ensures |s| == |r.text| && forall i :: 0 <= i < |s| ==> s[i] == Shown(r.text[i], r.style, r.url, r.auto)
  {
    seq(|r.text|, i requires 0 <= i < |r.text| => Shown(r.text[i], r.style, r.url, r.auto))
  }

  /** What the runs show, column by column. */
  function Expand(runs: seq<Run>): seq<Shown> {
    if runs == [] then [] else Expand(runs[..|runs| - 1]) + Columns(runs[|runs| - 1])
  }

  lemma ExpandAppend(runs: seq<Run>, r: Run)
    ensures Expand(runs + [r]) == Expand(runs) + Columns(r)
  {}

  lemma {:induction false} ExpandConcat(a: seq<Run>, b: seq<Run>)
    ensures Expand(a + b) == Expand(a) + Expand(b)
    decreases |b|
  {
    if b == [] {
      assert a + b == a;
    } else {
      assert (a + b)[..|a + b| - 1] == a + b[..|b| - 1];
      ExpandConcat(a, b[..|b| - 1]);
    }
  }

  /** No run is empty and no two neighbours could be one run. */
  ghost predicate Maximal(runs: seq<Run>) {
    && (forall i :: 0 <= i < |runs| ==> runs[i].text != [])
    && forall i :: 0 < i < |runs| ==> runs[i].style != runs[i - 1].style || runs[i].url != runs[i - 1].url
  }

  /** How much of a row is left when its trailing trimmable blanks go. */
  function TrimmedLength(row: seq<Cell>): (n: nat)
    ensures n <= |row|
    ensures forall x :: n <= x < |row| ==> TrimmableBlank(row[x])
    ensures n > 0 ==> !TrimmableBlank(row[n - 1])
  {
    if row == [] || !TrimmableBlank(row[|row| - 1]) then |row| else TrimmedLength(row[..|row| - 1])
  }

  /** What a client shows of a sent cell: its character, its style and the application's link; the second half of a wide
      character as U+FFFF. */
  lemma ShownIs(row: seq<Cell>, x: nat)
    requires x < |row|
    ensures ShownCells(row)[x] == Shown(if row[x].ch == 0 then 0xFFFF else row[x].ch, row[x].style, row[x].link, false)
  {}

  method TrimTrailingBlanks(row: seq<Cell>) returns (r: seq<Cell>)
    ensures r == row[..TrimmedLength(row)]
  {
    var n := |row|;
    while n > 0 && TrimmableBlank(row[n - 1])
      invariant 0 <= n <= |row| && TrimmedLength(row[..n]) == TrimmedLength(row)
    {
      assert row[..n][..n - 1] == row[..n - 1];
      n := n - 1;
    }
    assert row[..|row|] == row;
    return row[..n];
  }

  predicate Differs(a: Run, b: Run) { a.style != b.style || a.url != b.url }

  /** `runs` and the open run after them show `shown`, and will be maximal once the open run is closed. */
  ghost predicate Building(runs: seq<Run>, open: Run, shown: seq<Shown>) {
    && Maximal(runs) && !open.auto && (runs != [] ==> Differs(open, runs[|runs| - 1]))
    && Expand(runs) + Columns(open) == shown
  }

  lemma Extend(runs: seq<Run>, open: Run, shown: seq<Shown>, c: Cell)
    requires Building(runs, open, shown) && open.style == c.style && open.url == c.link
    ensures Building(runs, open.(text := open.text + [RuneOf(c)]), shown + [ShownCell(c)])
  {}

  lemma Close(runs: seq<Run>, open: Run, shown: seq<Shown>)
    requires Building(runs, open, shown) && open.text != []
    ensures Maximal(runs + [open]) && Expand(runs + [open]) == shown
  {}

  lemma Reopen(runs: seq<Run>, open: Run, shown: seq<Shown>, next: Run)
    requires Building(runs, open, shown) && open.text != [] && next.text == [] && !next.auto && Differs(next, open)
    ensures Building(runs + [open], next, shown)
  {
    Close(runs, open, shown);
    assert shown + Columns(next) == shown;
  }

  /** The runs show the row, up to its trailing unstyled blanks, in as few runs as possible. A row that
      continues on the next one keeps its blanks, which are content there. */
  method CellsToRuns(row: seq<Cell>, continuesBelow: bool) returns (runs: seq<Run>)
    ensures Maximal(runs)
    ensures Expand(runs) == ShownCells(if continuesBelow then row else row[..TrimmedLength(row)])
  {
    hide Maximal, Expand, Columns, TrimmedLength;
    runs := [];
    NoRuns();
    var kept := row;
    if !continuesBelow {
      kept := TrimTrailingBlanks(row);
    }
    if kept == [] {
      return;
    }
    var open := Run([], kept[0].style, kept[0].link, false);
    NoRunsOpen(open);
    hide Building;
    for x := 0 to |kept|
      invariant Building(runs, open, ShownCells(kept[..x])) && (x > 0 ==> open.text != [])
      invariant x == 0 ==> open.style == kept[0].style && open.url == kept[0].link
    {
      var cell := kept[x];
      if x > 0 && (cell.style != open.style || cell.link != open.url) {
        var next := Run([], cell.style, cell.link, false);
        Reopen(runs, open, ShownCells(kept[..x]), next);
        runs, open := runs + [open], next;
      }
      Extend(runs, open, ShownCells(kept[..x]), cell);
      assert ShownCells(kept[..x + 1]) == ShownCells(kept[..x]) + [ShownCell(cell)];
      open := open.(text := open.text + [RuneOf(cell)]);
    }
    assert kept[..|kept|] == kept;
    Close(runs, open, ShownCells(kept));
    runs := runs + [open];
  }

  lemma NoRuns()
    ensures Maximal([]) && Expand([]) == []
  {}

  lemma NoRunsOpen(open: Run)
    requires open.text == [] && !open.auto
    ensures Building([], open, [])
  {}

  // ---- links ----

  /** Columns `start` to `end`, the end excluded, carry `url`. */
  datatype Span = Span(url: string, start: nat, end: nat)

  predicate Covers(sp: Span, col: nat) { sp.start <= col < sp.end }

  /** The first span that covers `col`. */
  function Covering(spans: seq<Span>, col: nat): (r: Option<Span>)
    ensures r.Some? ==> r.value in spans && Covers(r.value, col)
    ensures r.None? <==> forall sp :: sp in spans ==> !Covers(sp, col)
  {
    if spans == [] then None
    else if Covers(spans[0], col) then Some(spans[0])
    else Covering(spans[1..], col)
  }

  const NO_SPAN: nat := 0x4000_0000

  /** The nearest span start past `col`, or a column beyond any row. */
  function NextStart(spans: seq<Span>, col: nat): (n: nat)
    ensures n == NO_SPAN || n > col
    ensures forall sp :: sp in spans && sp.start > col ==> n <= sp.start
  {
    if spans == [] then NO_SPAN
    else
      var rest := NextStart(spans[1..], col);
      if spans[0].start > col && spans[0].start < rest then spans[0].start else rest
  }

  /** What a column becomes: an application's link stays; any other column takes the span over it. */
  function Stamp(spans: seq<Span>, col: nat, s: Shown): Shown {
    if s.url != "" then s
    else match Covering(spans, col)
      case None => s
      case Some(sp) => s.(url := sp.url, auto := true)
  }

  function Stamped(spans: seq<Span>, shown: seq<Shown>): (r: seq<Shown>)
    ensures |r| == |shown| && forall x :: 0 <= x < |r| ==> r[x] == Stamp(spans, x, shown[x])
  {
    seq(|shown|, x requires 0 <= x < |shown| => Stamp(spans, x, shown[x]))
  }

  /** The spans come left to right and do not overlap. */
  ghost predicate Ordered(spans: seq<Span>) {
    forall i, j :: 0 <= i < j < |spans| ==> spans[i].end <= spans[j].start
  }

  /** `out` is the run's columns from `0` to `upTo`, stamped. */
  ghost predicate StampedTo(out: seq<Run>, run: Run, spans: seq<Span>, col: nat, upTo: nat)
    requires upTo <= |run.text|
  {
    && |Expand(out)| == upTo
    && (forall i: nat :: i < upTo ==> Expand(out)[i] == Stamp(spans, col + i, Columns(run)[i]))
    && forall r :: r in out ==> r.text != []
  }

  lemma StampPiece(out: seq<Run>, run: Run, spans: seq<Span>, col: nat, from: nat, to: nat, piece: Run)
    requires run.url == "" && from < to <= |run.text| && StampedTo(out, run, spans, col, from)
    requires piece.text == run.text[from..to] && piece.style == run.style
    requires forall c: nat :: col + from <= c < col + to ==>
      Stamp(spans, c, Shown(0, run.style, "", run.auto)) == Shown(0, run.style, piece.url, piece.auto)
    ensures StampedTo(out + [piece], run, spans, col, to)
  {
    ExpandAppend(out, piece);
    forall i: nat | i < to ensures Expand(out + [piece])[i] == Stamp(spans, col + i, Columns(run)[i]) {
      if i >= from {
        assert Stamp(spans, col + i, Shown(0, run.style, "", run.auto)) == Shown(0, run.style, piece.url, piece.auto);
        assert Expand(out + [piece])[i] == Columns(piece)[i - from];
      }
    }
  }

  /** One run stamped from column `col` on, piece by piece. */
  method StampRun(run: Run, spans: seq<Span>, col: nat) returns (out: seq<Run>)
    requires run.url == "" && Ordered(spans) && col + |run.text| < NO_SPAN
    ensures StampedTo(out, run, spans, col, |run.text|)
  {
    out := [];
    NothingStamped(run, spans, col);
    hide StampedTo, Expand, Ordered;
    var segStart := 0;
    while segStart < |run.text|
      invariant 0 <= segStart <= |run.text|
      invariant StampedTo(out, run, spans, col, segStart)
    {
      var absCol := col + segStart;
      var sp := Covering(spans, absCol);
      var segEnd := |run.text|;
      var piece := run;
      if sp.None? {
        var next := NextStart(spans, absCol);
        if next - col < segEnd {
          segEnd := next - col;
        }
        piece := run.(text := run.text[segStart..segEnd]);
        NothingCovers(spans, absCol, col + segEnd);
      } else {
        segEnd := Min(sp.value.end - col, |run.text|);
        piece := run.(text := run.text[segStart..segEnd], url := sp.value.url, auto := true);
        SpanCovers(spans, absCol, col + segEnd);
      }
      StampPiece(out, run, spans, col, segStart, segEnd, piece);
      out := out + [piece];
      segStart := segEnd;
    }
  }

  lemma NothingStamped(run: Run, spans: seq<Span>, col: nat)
    ensures StampedTo([], run, spans, col, 0)
  {}

  /** Between a column no span covers and the next span's start no column is covered. */
  lemma NothingCovers(spans: seq<Span>, from: nat, to: nat)
    requires Covering(spans, from).None? && from < to <= NextStart(spans, from)
    ensures forall c: nat :: from <= c < to ==> Covering(spans, c).None?
  {}

  /** A span that covers one column is the span of every later column up to its end. */
  lemma SpanCovers(spans: seq<Span>, from: nat, to: nat)
    requires Ordered(spans) && Covering(spans, from).Some? && from <= to <= Covering(spans, from).value.end
    ensures forall c: nat :: from <= c < to ==> Covering(spans, c) == Covering(spans, from)
  {}

  /** Links are stamped on exactly the columns the spans cover, the text is kept, and an application's own
      links are never touched. */
  method ApplyLinkSpans(runs: seq<Run>, spans: seq<Span>) returns (out: seq<Run>)
    requires Ordered(spans) && |Expand(runs)| < NO_SPAN
    ensures Expand(out) == Stamped(spans, Expand(runs))
    ensures NoneEmpty(runs) ==> NoneEmpty(out)
  {
    hide Expand, Ordered, Stamped, NoneEmpty;
    out := [];
    NothingExpands(spans);
    var col := 0;
    for i := 0 to |runs|
      invariant col == |Expand(runs[..i])|
      invariant Expand(out) == Stamped(spans, Expand(runs[..i]))
      invariant NoneEmpty(runs) ==> NoneEmpty(out)
    {
      assert runs[..i + 1] == runs[..i] + [runs[i]];
      ExpandAppend(runs[..i], runs[i]);
      PrefixIsShorter(runs, i + 1);
      var pieces := StampedRun(runs[i], spans, col);
      ExpandConcat(out, pieces);
      StampedAppend(spans, Expand(runs[..i]), Columns(runs[i]), Expand(pieces));
      RunsNotEmpty(runs, i, out, pieces);
      out := out + pieces;
      col := col + |runs[i].text|;
    }
    assert runs[..|runs|] == runs;
  }

  ghost predicate NoneEmpty(runs: seq<Run>) { forall r :: r in runs ==> r.text != [] }

  lemma NothingExpands(spans: seq<Span>)
    ensures Expand([]) == [] && Stamped(spans, []) == [] && NoneEmpty([])
  {}

  lemma RunsNotEmpty(runs: seq<Run>, i: nat, out: seq<Run>, pieces: seq<Run>)
    requires i < |runs| && (runs[i].text != [] ==> NoneEmpty(pieces))
    ensures NoneEmpty(runs) && NoneEmpty(out) ==> NoneEmpty(out + pieces)
  {}

  /** One run of the row: an application's own link as it is, other text stamped. */
  method StampedRun(run: Run, spans: seq<Span>, col: nat) returns (pieces: seq<Run>)
    requires Ordered(spans) && col + |run.text| < NO_SPAN
    ensures |Expand(pieces)| == |Columns(run)|
    ensures forall i: nat :: i < |Columns(run)| ==> Expand(pieces)[i] == Stamp(spans, col + i, Columns(run)[i])
    ensures run.text != [] ==> NoneEmpty(pieces)
  {
    hide Expand, Ordered;
    if run.url != "" {
      ExpandAppend([], run);
      assert [] + [run] == [run] && Expand([]) == [] by { NothingExpands(spans); }
      LinkKept(run, spans, col);
      pieces := [run];
    } else {
      pieces := StampRun(run, spans, col);
    }
  }

  lemma LinkKept(run: Run, spans: seq<Span>, col: nat)
    requires run.url != ""
    ensures forall i: nat :: i < |Columns(run)| ==> Columns(run)[i] == Stamp(spans, col + i, Columns(run)[i])
  {}

  lemma StampedAppend(spans: seq<Span>, before: seq<Shown>, more: seq<Shown>, stamped: seq<Shown>)
    requires |stamped| == |more|
    requires forall i: nat :: i < |more| ==> stamped[i] == Stamp(spans, |before| + i, more[i])
    ensures Stamped(spans, before + more) == Stamped(spans, before) + stamped
  {}

  lemma PrefixIsShorter(runs: seq<Run>, n: nat)
    requires n <= |runs|
    ensures |Expand(runs[..n])| <= |Expand(runs)|
  {
    assert runs == runs[..n] + runs[n..];
    ExpandConcat(runs[..n], runs[n..]);
  }
}
