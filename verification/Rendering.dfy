/** One row rendered for the wire: its cells as runs, and the links of the chain it belongs to stamped on them. */
module Rendering {
  import opened Sgr
  import opened Lines
  import opened Runs
  import opened Autolinks

  /** The URL scan, as a function of the text; what it promises is Matches. */
  type Scan = seq<Rune> -> seq<Match>

  ghost predicate ScanOk(find: Scan) { forall text :: Matches(find(text), text) }

  predicate ContinuesBelow(ls: seq<Line>, y: nat) { y + 1 < |ls| && ls[y + 1].wrapped }

  /** The columns of row `y` that are sent: all but its trailing unstyled blanks. */
  function SentCells(ls: seq<Line>, y: nat): seq<Cell>
    requires y < |ls|
  {
    if ContinuesBelow(ls, y) then ls[y].cells else ls[y].cells[..TrimmedLength(ls[y].cells)]
  }

  /** How many columns are sent: all when the next row wraps from this one, and otherwise all up to the last that is not an
      unstyled blank without a link. */
  lemma SentLength(ls: seq<Line>, y: nat)
    requires y < |ls|
    ensures var row, n := ls[y].cells, |SentCells(ls, y)|;
      && n <= |row| && SentCells(ls, y) == row[..n]
      && (y + 1 < |ls| && ls[y + 1].wrapped ==> n == |row|)
      && (!(y + 1 < |ls| && ls[y + 1].wrapped) ==>
            && (forall x :: n <= x < |row| ==> row[x].ch == 0x20 && row[x].style == PLAIN && row[x].link == "")
            && (n > 0 ==> row[n - 1].ch != 0x20 || row[n - 1].style != PLAIN || row[n - 1].link != ""))
  {
    assert ls[y].cells[..|ls[y].cells|] == ls[y].cells;
  }

  /** Column `c` as it is sent: an application's own link as it is, otherwise what the scan of `rows` puts there. */
  function SentColumn(cell: Cell, rows: seq<ChainRow>, focus: nat, ms: seq<Match>, c: nat): Shown
    requires focus < |rows| && forall k :: 0 <= k < |ms| ==> ms[k].start <= ms[k].end <= |Joined(rows)|
  {
    var link := LinkAt(rows, focus, ms, c);
    if cell.link != "" || link.None? then ShownCell(cell) else ShownCell(cell).(url := link.value.url, auto := true)
  }

  /** `runs` are row `y` with the links of `rows` stamped on it. */
  ghost predicate RendersAs(ls: seq<Line>, y: nat, find: Scan, rows: seq<ChainRow>, focus: nat, runs: seq<Run>)
    requires y < |ls| && focus < |rows|
  {
    && Matches(find(Joined(rows)), Joined(rows))
    && |Expand(runs)| == |SentCells(ls, y)|
    && forall c :: 0 <= c < |SentCells(ls, y)| ==>
      Expand(runs)[c] == SentColumn(SentCells(ls, y)[c], rows, focus, find(Joined(rows)), c)
  }

  method RenderRow(ls: seq<Line>, tail: seq<seq<Rune>>, y: nat, find: Scan)
    returns (runs: seq<Run>, ghost start: nat, ghost end: nat, ghost rows: seq<ChainRow>, ghost focus: nat)
    requires y < |ls| && |ls[y].cells| < NO_SPAN && ScanOk(find)
    ensures IsChain(ls, start, end) && start <= y <= end < |ls| && BuiltAround(ls, tail, y, start, end, rows, focus)
    ensures RendersAs(ls, y, find, rows, focus, runs)
    ensures NoneEmpty(runs) && |Expand(runs)| <= |ls[y].cells|
  {
    hide Expand, Joined, LinkAt, Matches, Maximal, BuiltAround, Stamped, ScanOk;
    var plain := CellsToRuns(ls[y].cells, ContinuesBelow(ls, y));
    MaximalIsNotEmpty(plain);
    var built, at;
    built, at, start, end := ChainRows(ls, tail, y);
    assert at < |built|;
    rows, focus := built, at;
    var joined := Joined(built);
    Finds(find, joined);
    var spans := AutolinkSpans(built, at, find(joined));
    if spans == [] {
      runs := plain;
    } else {
      runs := ApplyLinkSpans(plain, spans);
    }
    StampsLinks(SentCells(ls, y), spans, built, at, find(joined));
    assert spans == [] ==> Stamped(spans, Expand(plain)) == Expand(plain) by { StampedByNone(Expand(plain)); }
  }

  lemma Finds(find: Scan, joined: seq<Rune>)
    requires ScanOk(find)
    ensures Matches(find(joined), joined)
  {}

  lemma MaximalIsNotEmpty(runs: seq<Run>)
    requires Maximal(runs)
    ensures NoneEmpty(runs)
  {}

  lemma StampedByNone(shown: seq<Shown>)
    ensures Stamped([], shown) == shown
  {}

  lemma StampsLinks(cells: seq<Cell>, spans: seq<Span>, rows: seq<ChainRow>, focus: nat, ms: seq<Match>)
    requires focus < |rows| && Matches(ms, Joined(rows))
    requires forall c: nat :: Covering(spans, c) == LinkAt(rows, focus, ms, c)
    ensures forall c :: 0 <= c < |cells| ==> Stamped(spans, ShownCells(cells))[c] == SentColumn(cells[c], rows, focus, ms, c)
  {
    hide LinkAt, Joined, Covering;
  }

  /** A column that shows match `k` and that the application gave no link carries the match's whole URL. */
  lemma MatchIsLinked(ls: seq<Line>, y: nat, find: Scan, rows: seq<ChainRow>, focus: nat, runs: seq<Run>, k: nat, c: nat)
    requires y < |ls| && focus < |rows| && RendersAs(ls, y, find, rows, focus, runs)
    requires k < |find(Joined(rows))| && c < |SentCells(ls, y)| && SentCells(ls, y)[c].link == ""
    requires InMatch(rows, focus, find(Joined(rows))[k], c)
    ensures Expand(runs)[c].url == UrlText(Joined(rows), find(Joined(rows))[k]) && Expand(runs)[c].auto
  {
    hide Joined, UrlText, InMatch, Expand;
    LinkIsWhole(rows, focus, find(Joined(rows)), c, k);
  }

  /** Two rows of one chain of at most four, kept tail included, each rendered by itself: they scan the same text,
      and every column of either that shows a match, unless the application linked it, carries that match's whole
      URL, the same on both. */
  lemma SameLinkOnEachRow(ls: seq<Line>, tail: seq<seq<Rune>>, find: Scan, y1: nat, y2: nat,
                          start1: nat, end1: nat, rows1: seq<ChainRow>, focus1: nat, runs1: seq<Run>,
                          start2: nat, end2: nat, rows2: seq<ChainRow>, focus2: nat, runs2: seq<Run>, k: nat, c1: nat, c2: nat)
    requires IsChain(ls, start1, end1) && start1 <= y1 <= end1 && start1 <= y2 <= end1
    requires IsChain(ls, start2, end2) && start2 <= y2 <= end2
    requires BuiltAround(ls, tail, y1, start1, end1, rows1, focus1) && BuiltAround(ls, tail, y2, start2, end2, rows2, focus2)
    requires |WholeChain(ls, tail, start1, end1)| <= MAX_AUTOLINK_ROWS
    requires RendersAs(ls, y1, find, rows1, focus1, runs1) && RendersAs(ls, y2, find, rows2, focus2, runs2)
    requires k < |find(Joined(rows1))|
    ensures Joined(rows1) == Joined(rows2)
    ensures var url := UrlText(Joined(rows1), find(Joined(rows1))[k]);
      && (c1 < |Expand(runs1)| && SentCells(ls, y1)[c1].link == "" && InMatch(rows1, focus1, find(Joined(rows1))[k], c1) ==>
            Expand(runs1)[c1].url == url && Expand(runs1)[c1].auto)
      && (c2 < |Expand(runs2)| && SentCells(ls, y2)[c2].link == "" && InMatch(rows2, focus2, find(Joined(rows2))[k], c2) ==>
            Expand(runs2)[c2].url == url && Expand(runs2)[c2].auto)
  {
    ChainAgrees(ls, tail, y1, y2, start1, end1, start2, end2, rows1, focus1, rows2, focus2);
    hide Joined, UrlText, InMatch, Expand, IsChain, BuiltAround;
    if c1 < |Expand(runs1)| && SentCells(ls, y1)[c1].link == "" && InMatch(rows1, focus1, find(Joined(rows1))[k], c1) {
      MatchIsLinked(ls, y1, find, rows1, focus1, runs1, k, c1);
    }
    if c2 < |Expand(runs2)| && SentCells(ls, y2)[c2].link == "" && InMatch(rows2, focus2, find(Joined(rows2))[k], c2) {
      MatchIsLinked(ls, y2, find, rows2, focus2, runs2, k, c2);
    }
  }

  /** Rendering them one after the other, as a frame does. */
  method RenderTwoRows(ls: seq<Line>, tail: seq<seq<Rune>>, y1: nat, y2: nat, find: Scan, ghost start: nat, ghost end: nat)
    returns (runs1: seq<Run>, runs2: seq<Run>)
    requires y1 < |ls| && y2 < |ls| && |ls[y1].cells| < NO_SPAN && |ls[y2].cells| < NO_SPAN && ScanOk(find)
    requires IsChain(ls, start, end) && start <= y1 <= end && start <= y2 <= end
    requires |WholeChain(ls, tail, start, end)| <= MAX_AUTOLINK_ROWS
    ensures var all := WholeChain(ls, tail, start, end);
      && LinksEveryMatch(ls, y1, find, all, |Kept(ls, tail, start)| + (y1 - start), runs1)
      && LinksEveryMatch(ls, y2, find, all, |Kept(ls, tail, start)| + (y2 - start), runs2)
  {
    hide Joined, UrlText, InMatch, Expand, RendersAs, BuiltAround, LinksEveryMatch;
    ghost var s1, e1, rows1, f1 := 0, 0, [], 0;
    ghost var s2, e2, rows2, f2 := 0, 0, [], 0;
    runs1, s1, e1, rows1, f1 := RenderRow(ls, tail, y1, find);
    runs2, s2, e2, rows2, f2 := RenderRow(ls, tail, y2, find);
    OneChain(ls, start, end, s1, e1, y1, y1);
    OneChain(ls, start, end, s2, e2, y2, y2);
    BuiltIsWhole(ls, tail, y1, start, end, rows1, f1);
    BuiltIsWhole(ls, tail, y2, start, end, rows2, f2);
    LinkedEverywhere(ls, y1, find, rows1, f1, runs1);
    LinkedEverywhere(ls, y2, find, rows2, f2, runs2);
  }

  lemma BuiltIsWhole(ls: seq<Line>, tail: seq<seq<Rune>>, y: nat, start: nat, end: nat, rows: seq<ChainRow>, focus: nat)
    requires start <= y <= end < |ls| && BuiltAround(ls, tail, y, start, end, rows, focus)
    requires |WholeChain(ls, tail, start, end)| <= MAX_AUTOLINK_ROWS
    ensures rows == WholeChain(ls, tail, start, end) && focus == |Kept(ls, tail, start)| + (y - start) < |rows|
  {}

  /** Every column of the rendered row that shows a match of the chain's text carries the match's whole URL, unless the
      application linked it; and no column gets a link otherwise. */
  ghost predicate LinksEveryMatch(ls: seq<Line>, y: nat, find: Scan, rows: seq<ChainRow>, focus: nat, runs: seq<Run>)
    requires y < |ls| && focus < |rows|
  {
    var ms := find(Joined(rows));
    && Matches(ms, Joined(rows)) && |Expand(runs)| == |SentCells(ls, y)|
    && (forall k, c :: 0 <= k < |ms| && 0 <= c < |Expand(runs)| && SentCells(ls, y)[c].link == "" && InMatch(rows, focus, ms[k], c) ==>
          Expand(runs)[c].url == UrlText(Joined(rows), ms[k]) && Expand(runs)[c].auto)
    && (forall c :: 0 <= c < |Expand(runs)| && Expand(runs)[c] != ShownCell(SentCells(ls, y)[c]) ==>
          exists k :: 0 <= k < |ms| && InMatch(rows, focus, ms[k], c))
  }

  lemma LinkedEverywhere(ls: seq<Line>, y: nat, find: Scan, rows: seq<ChainRow>, focus: nat, runs: seq<Run>)
    requires y < |ls| && focus < |rows| && RendersAs(ls, y, find, rows, focus, runs)
    ensures LinksEveryMatch(ls, y, find, rows, focus, runs)
  {
    hide Joined, UrlText, InMatch, Expand, LinkAt;
    var ms := find(Joined(rows));
    forall k, c | 0 <= k < |ms| && 0 <= c < |Expand(runs)| && SentCells(ls, y)[c].link == "" && InMatch(rows, focus, ms[k], c)
      ensures Expand(runs)[c].url == UrlText(Joined(rows), ms[k]) && Expand(runs)[c].auto
    {
      MatchIsLinked(ls, y, find, rows, focus, runs, k, c);
    }
    forall c | 0 <= c < |Expand(runs)| && Expand(runs)[c] != ShownCell(SentCells(ls, y)[c])
      ensures exists k :: 0 <= k < |ms| && InMatch(rows, focus, ms[k], c)
    {
      if ms == [] { NoLinks(rows, focus); } else { LinkIsWhole(rows, focus, ms, c, 0); }
    }
  }
}
