/** Which rows form one logical line for the URL scan, and which columns of each row a match covers. */
module Autolinks {
  import opened Sequences
  import opened Sgr
  import opened Lines
  import opened Runs

  const MAX_AUTOLINK_ROWS: nat := 4

  predicate BlankCell(c: Cell) { c.ch == 0 || c.ch == 0x20 }

  function LeadingBlanks(row: seq<Cell>): (n: nat)
    ensures n <= |row|
  {
    if row == [] || !BlankCell(row[0]) then 0 else 1 + LeadingBlanks(row[1..])
  }

  /** The indent with which `cur` continues `prev` when the application wrapped the line itself. */
  function HardWrapIndent(prev: seq<Cell>, cur: seq<Cell>): Option<nat> {
    if |prev| == 0 || |prev| != |cur| || BlankCell(prev[|prev| - 1]) then None
    else
      var indent := LeadingBlanks(prev);
      if indent == 0 || indent >= |cur| || indent != LeadingBlanks(cur) then None else Some(indent)
  }

  /** Row `y` continues row `y - 1`: a soft wrap, or else a hard one. */
  predicate Continues(ls: seq<Line>, y: int) {
    0 < y < |ls| && (ls[y].wrapped || HardWrapIndent(ls[y - 1].cells, ls[y].cells).Some?)
  }

  /** A row shows nothing in its first `n` columns, and something in the next. */
  ghost predicate Indented(row: seq<Cell>, n: nat) {
    && n < |row| && !(row[n].ch == 0 || row[n].ch == 0x20)
    && forall x :: 0 <= x < n ==> row[x].ch == 0 || row[x].ch == 0x20
  }

  lemma {:induction false} LeadingIs(row: seq<Cell>, n: nat)
    requires n <= |row| && forall x :: 0 <= x < n ==> BlankCell(row[x])
    requires n < |row| ==> !BlankCell(row[n])
    ensures LeadingBlanks(row) == n
  {
    if n > 0 { LeadingIs(row[1..], n - 1); }
  }

  lemma {:induction false} LeadingAre(row: seq<Cell>)
    ensures forall x :: 0 <= x < LeadingBlanks(row) ==> BlankCell(row[x])
    ensures LeadingBlanks(row) < |row| ==> !BlankCell(row[LeadingBlanks(row)])
  {
    if row != [] && BlankCell(row[0]) {
      LeadingAre(row[1..]);
      forall x | 0 <= x < LeadingBlanks(row) ensures BlankCell(row[x]) { if x > 0 { assert row[x] == row[1..][x - 1]; } }
    }
  }

  /** Exactly when a row continues the one above it: it wraps from it, or both are as wide and indented alike, by a column or
      more, and the upper one is full to its last column. */
  lemma ContinuesIff(ls: seq<Line>, y: nat)
    requires 0 < y < |ls|
    ensures var prev, cur := ls[y - 1].cells, ls[y].cells;
      Continues(ls, y) <==>
        ls[y].wrapped
        || (|prev| == |cur| > 0 && prev[|prev| - 1].ch != 0 && prev[|prev| - 1].ch != 0x20
            && exists n: nat :: n > 0 && Indented(prev, n) && Indented(cur, n))
  {
    var prev, cur := ls[y - 1].cells, ls[y].cells;
    LeadingAre(prev);
    LeadingAre(cur);
    if n: nat :| n > 0 && Indented(prev, n) && Indented(cur, n) {
      LeadingIs(prev, n);
      LeadingIs(cur, n);
    }
    if HardWrapIndent(prev, cur).Some? { assert Indented(prev, LeadingBlanks(prev)) && Indented(cur, LeadingBlanks(cur)); }
  }

  /** A row takes part in the scan of its chain with all its text, but for the indent of a continuation that did not wrap. */
  lemma ChainTextIs(ls: seq<Line>, r: nat, start: nat, n: nat)
    requires r < |ls| && Indented(ls[r].cells, n)
    ensures ChainRowFor(ls, r, start) == if r > start && !ls[r].wrapped then ChainRow(RowText(ls[r].cells)[n..], n)
                                         else ChainRow(RowText(ls[r].cells), 0)
  {
    LeadingIs(ls[r].cells, n);
  }

  /** Rows `start` to `end`, both inclusive, are one chain: each continues the one above, and neither end
      can be extended. */
  ghost predicate IsChain(ls: seq<Line>, start: nat, end: nat) {
    && start <= end < |ls| && !Continues(ls, start) && !Continues(ls, end + 1)
    && forall r :: start < r <= end ==> Continues(ls, r)
  }

  /** One row's part of a chain: the text that takes part in the scan and the column it starts at. */
  datatype ChainRow = ChainRow(text: seq<Rune>, indent: nat)

  function RowText(row: seq<Cell>): (t: seq<Rune>)
    ensures |t| == |row| && forall x :: 0 <= x < |t| ==> t[x] == RuneOf(row[x])
  {
    seq(|row|, x requires 0 <= x < |row| => RuneOf(row[x]))
  }

  /** A hard-wrapped continuation leaves its indent out; a soft-wrapped row's blanks are content. */
  function ChainRowFor(ls: seq<Line>, r: nat, start: nat): ChainRow
    requires r < |ls|
  {
    var indent := if r > start && !ls[r].wrapped then LeadingBlanks(ls[r].cells) else 0;
    ChainRow(RowText(ls[r].cells)[indent..], indent)
  }

  function ChainRowsOf(ls: seq<Line>, start: nat, end: nat): (rows: seq<ChainRow>)
    requires start <= end < |ls|
    ensures |rows| == end - start + 1 && forall i :: 0 <= i < |rows| ==> rows[i] == ChainRowFor(ls, start + i, start)
  {
    seq(end - start + 1, i requires 0 <= i <= end - start => ChainRowFor(ls, start + i, start))
  }

  function TailRows(tail: seq<seq<Rune>>): (rows: seq<ChainRow>)
    ensures |rows| == |tail| && forall i :: 0 <= i < |rows| ==> rows[i] == ChainRow(tail[i], 0)
  {
    seq(|tail|, i requires 0 <= i < |tail| => ChainRow(tail[i], 0))
  }

  /** `part` is the stretch of `rows` from `from` on. */
  predicate Window(rows: seq<ChainRow>, part: seq<ChainRow>, from: nat) {
    from + |part| <= |rows| && part == rows[from..from + |part|]
  }

  /** At most MAX_AUTOLINK_ROWS rows around the focus, dropping from the end farther from it. */
  method BoundChain(rows: seq<ChainRow>, focus: nat) returns (bounded: seq<ChainRow>, at: nat)
    requires focus < |rows|
    ensures at < |bounded| && bounded[at] == rows[focus] && |bounded| == Min(|rows|, MAX_AUTOLINK_ROWS)
    ensures exists from: nat :: Window(rows, bounded, from) && from + at == focus
    ensures |rows| <= MAX_AUTOLINK_ROWS ==> bounded == rows && at == focus
  {
    bounded, at := rows, focus;
    ghost var from := 0;
    while |bounded| > MAX_AUTOLINK_ROWS
      invariant at < |bounded| && |bounded| >= Min(|rows|, MAX_AUTOLINK_ROWS)
      invariant Window(rows, bounded, from) && at + from == focus
      invariant |rows| <= MAX_AUTOLINK_ROWS ==> bounded == rows
      decreases |bounded|
    {
      if at > |bounded| - 1 - at {
        bounded, at, from := bounded[1..], at - 1, from + 1;
      } else {
        bounded := bounded[..|bounded| - 1];
      }
    }
    assert Window(rows, bounded, from);
  }

  /** The rows kept from above the screen, when the chain starting at `start` begins there. */
  function Kept(ls: seq<Line>, tail: seq<seq<Rune>>, start: nat): seq<ChainRow>
    requires ls != []
  {
    if start == 0 && ls[0].wrapped then TailRows(tail) else []
  }

  function WholeChain(ls: seq<Line>, tail: seq<seq<Rune>>, start: nat, end: nat): seq<ChainRow>
    requires start <= end < |ls|
  {
    Kept(ls, tail, start) + ChainRowsOf(ls, start, end)
  }

  /** `rows` is what the chain of row `y` is scanned as: all of it when it has at most MAX_AUTOLINK_ROWS rows. */
  predicate BuiltAround(ls: seq<Line>, tail: seq<seq<Rune>>, y: nat, start: nat, end: nat, rows: seq<ChainRow>, focus: nat)
    requires start <= y <= end < |ls|
  {
    var all := WholeChain(ls, tail, start, end);
    && focus < |rows| == Min(|all|, MAX_AUTOLINK_ROWS) && rows[focus] == ChainRowFor(ls, y, start)
    && (|all| <= MAX_AUTOLINK_ROWS ==> rows == all && focus == |Kept(ls, tail, start)| + (y - start))
  }

  /** The chain that contains row `y`, preceded by what was kept of rows already scrolled off when the chain
      begins above the screen. */
  method ChainRows(ls: seq<Line>, tail: seq<seq<Rune>>, y: nat) returns (rows: seq<ChainRow>, focus: nat, ghost start: nat, ghost end: nat)
    requires y < |ls|
    ensures IsChain(ls, start, end) && start <= y <= end && focus < |rows|
    ensures BuiltAround(ls, tail, y, start, end, rows, focus)
  {
    hide ChainRowFor, ChainRowsOf, TailRows, IsChain;
    var s, e := ChainAround(ls, y);
    assert s <= y <= e < |ls| && IsChain(ls, s, e);
    var all := CollectRows(ls, if s == 0 && ls[0].wrapped then tail else [], s, e);
    NoTail();
    start, end := s, e;
    rows, focus := BoundChain(all, |all| - (e - s + 1) + (y - s));
    assert all == WholeChain(ls, tail, s, e);
  }

  lemma NoTail()
    ensures TailRows([]) == []
  {}

  method ChainAround(ls: seq<Line>, y: nat) returns (s: nat, e: nat)
    requires y < |ls|
    ensures IsChain(ls, s, e) && s <= y <= e < |ls|
  {
    hide HardWrapIndent;
    s := y;
    while s > 0 && Continues(ls, s)
      invariant s <= y && forall r :: s < r <= y ==> Continues(ls, r)
    {
      s := s - 1;
    }
    e := y;
    while e + 1 < |ls| && Continues(ls, e + 1)
      invariant y <= e < |ls| && forall r :: s < r <= e ==> Continues(ls, r)
    {
      e := e + 1;
    }
  }

  method CollectRows(ls: seq<Line>, tail: seq<seq<Rune>>, start: nat, end: nat) returns (all: seq<ChainRow>)
    requires start <= end < |ls|
    ensures all == TailRows(tail) + ChainRowsOf(ls, start, end)
  {
    all := TailRows(tail);
    for r := start to end + 1
      invariant all == TailRows(tail) + ChainRowsOf(ls, start, end)[..r - start]
    {
      assert ChainRowsOf(ls, start, end)[..r + 1 - start] == ChainRowsOf(ls, start, end)[..r - start] + [ChainRowFor(ls, r, start)];
      all := all + [ChainRowFor(ls, r, start)];
    }
  }

  /** A row belongs to one chain only, so all rows of a chain see the same one. */
  lemma OneChain(ls: seq<Line>, start1: nat, end1: nat, start2: nat, end2: nat, y1: nat, y2: nat)
    requires IsChain(ls, start1, end1) && start1 <= y1 <= end1 && IsChain(ls, start2, end2) && start2 <= y2 <= end2
    requires start1 <= y2 <= end1
    ensures start1 == start2 && end1 == end2
  {}

  // ---- matches and spans ----

  /** A URL found in the joined text, from position `start` up to `end`. */
  datatype Match = Match(start: nat, end: nat)

  function Joined(rows: seq<ChainRow>): seq<Rune> {
    if rows == [] then [] else Joined(rows[..|rows| - 1]) + rows[|rows| - 1].text
  }

  /** Where row `i`'s text starts in the joined text. */
  function Offset(rows: seq<ChainRow>, i: nat): nat
    requires i <= |rows|
  {
    |Joined(rows[..i])|
  }

  predicate SchemeAt(joined: seq<Rune>, i: int) {
    0 <= i <= |joined| - 3 && joined[i..i + 3] == [0x3A, 0x2F, 0x2F]
  }

  predicate HasScheme(joined: seq<Rune>) { exists i | 0 <= i < |joined| :: SchemeAt(joined, i) }

  /** What the regular-expression library promises of the matches of a pattern that contains "://": they
      are in the text, not empty, left to right and apart. */
  ghost predicate Matches(ms: seq<Match>, joined: seq<Rune>) {
    && (forall i :: 0 <= i < |ms| ==> ms[i].start < ms[i].end <= |joined|)
    && (forall i, j :: 0 <= i < j < |ms| ==> ms[i].end <= ms[j].start)
    && (ms != [] ==> HasScheme(joined))
  }

  function UrlText(joined: seq<Rune>, m: Match): string
    requires m.start <= m.end <= |joined|
  {
    seq(m.end - m.start, i requires 0 <= i < m.end - m.start => if joined[m.start + i] < 0xD800 then joined[m.start + i] as char else '?')
  }

  predicate Touches(m: Match, from: nat, to: nat) { m.end > from && m.start < to }

  function SpanOn(joined: seq<Rune>, m: Match, from: nat, to: nat, indent: nat): Span
    requires m.start <= m.end <= |joined| && from <= to && Touches(m, from, to)
  {
    Span(UrlText(joined, m), Max(m.start, from) - from + indent, Min(m.end, to) - from + indent)
  }

  /** Each match's overlap with the focus row, as columns of that row carrying the whole URL. */
  method AutolinkSpans(rows: seq<ChainRow>, focus: nat, ms: seq<Match>) returns (spans: seq<Span>)
    requires focus < |rows| && Matches(ms, Joined(rows))
    ensures Ordered(spans)
    ensures forall c: nat :: Covering(spans, c) == LinkAt(rows, focus, ms, c)
  {
    hide HasScheme, Joined, UrlText, Offset;
    var joined := Joined(rows);
    spans := [];
    if !HasScheme(joined) {
      assert ms == [];
      NoLinks(rows, focus);
      return;
    }
    var rowStart, indent := Offset(rows, focus), rows[focus].indent;
    var rowEnd := rowStart + |rows[focus].text|;
    assert ms[..0] == [];
    NoLinks(rows, focus);
    for i := 0 to |ms|
      invariant Ordered(spans)
      invariant forall sp :: sp in spans ==> i > 0 && sp.end <= Max(ms[i - 1].end, rowStart) - rowStart + indent
      invariant forall c: nat :: Covering(spans, c) == LinkAt(rows, focus, ms[..i], c)
    {
      assert ms[..i + 1][..i] == ms[..i];
      if Touches(ms[i], rowStart, rowEnd) {
        var sp := SpanOn(joined, ms[i], rowStart, rowEnd, indent);
        ghost var before := spans;
        spans := spans + [sp];
        forall c: nat ensures Covering(spans, c) == LinkAt(rows, focus, ms[..i + 1], c) {
          CoveringAppend(before, sp, c);
        }
      }
    }
    assert ms[..|ms|] == ms;
  }

  lemma {:induction false} CoveringAppend(spans: seq<Span>, sp: Span, c: nat)
    ensures Covering(spans + [sp], c) == if Covering(spans, c).Some? then Covering(spans, c) else if Covers(sp, c) then Some(sp) else None
    decreases |spans|
  {
    if spans == [] {
      assert (spans + [sp])[1..] == [];
    } else {
      assert (spans + [sp])[1..] == spans[1..] + [sp];
      CoveringAppend(spans[1..], sp, c);
    }
  }

  /** The link column `c` of a row should carry: that of the match over its position in the joined text,
      if it is past the row's indent and within its text. */
  function LinkAt(rows: seq<ChainRow>, i: nat, ms: seq<Match>, c: nat): Option<Span>
    requires i < |rows| && forall k :: 0 <= k < |ms| ==> ms[k].start <= ms[k].end <= |Joined(rows)|
  {
    if ms == [] then None
    else
      var m, from := ms[|ms| - 1], Offset(rows, i);
      var to := from + |rows[i].text|;
      var earlier := LinkAt(rows, i, ms[..|ms| - 1], c);
      if earlier.Some? then earlier
      else if Touches(m, from, to) && Covers(SpanOn(Joined(rows), m, from, to, rows[i].indent), c)
      then Some(SpanOn(Joined(rows), m, from, to, rows[i].indent)) else None
  }

  lemma NoLinks(rows: seq<ChainRow>, i: nat)
    requires i < |rows|
    ensures forall c: nat :: LinkAt(rows, i, [], c) == None && Covering([], c) == None
  {}

  /** Column `c` of row `i` shows a position of match `m`. */
  predicate InMatch(rows: seq<ChainRow>, i: nat, m: Match, c: nat)
    requires i < |rows|
  {
    && rows[i].indent <= c < rows[i].indent + |rows[i].text|
    && m.start <= Offset(rows, i) + (c - rows[i].indent) < m.end
  }

  /** A match stamps its whole URL on exactly the columns that show it, on every row of the chain it
      touches, and on none of a row's indent. */
  lemma {:induction false} LinkIsWhole(rows: seq<ChainRow>, i: nat, ms: seq<Match>, c: nat, k: nat)
    requires i < |rows| && Matches(ms, Joined(rows)) && k < |ms|
    ensures InMatch(rows, i, ms[k], c) ==>
      LinkAt(rows, i, ms, c).Some? && LinkAt(rows, i, ms, c).value.url == UrlText(Joined(rows), ms[k])
    ensures LinkAt(rows, i, ms, c).Some? ==> exists n :: 0 <= n < |ms| && InMatch(rows, i, ms[n], c)
    decreases |ms|
  {
    hide UrlText, HasScheme, Joined, Offset;
    var last := |ms| - 1;
    var front := ms[..last];
    assert Matches(front, Joined(rows));
    if front != [] {
      LinkIsWhole(rows, i, front, c, if k < last then k else 0);
      if LinkAt(rows, i, front, c).Some? {
        var n :| 0 <= n < |front| && InMatch(rows, i, front[n], c);
        assert InMatch(rows, i, ms[n], c);
        assert InMatch(rows, i, ms[k], c) ==> n == k;
      }
    }
    var from, to := Offset(rows, i), Offset(rows, i) + |rows[i].text|;
    assert InMatch(rows, i, ms[last], c) ==> Touches(ms[last], from, to);
    assert LinkAt(rows, i, ms, c).Some? && LinkAt(rows, i, front, c).None? ==> InMatch(rows, i, ms[last], c);
  }

  /** The rows of a chain of at most MAX_AUTOLINK_ROWS, the kept ones included, all scan the same rows and so the
      same joined text, whichever of them is rendered; each finds itself at its own place in them. */
  lemma ChainAgrees(ls: seq<Line>, tail: seq<seq<Rune>>, y1: nat, y2: nat, start1: nat, end1: nat, start2: nat, end2: nat,
                    rows1: seq<ChainRow>, focus1: nat, rows2: seq<ChainRow>, focus2: nat)
    requires IsChain(ls, start1, end1) && start1 <= y1 <= end1 && start1 <= y2 <= end1
    requires IsChain(ls, start2, end2) && start2 <= y2 <= end2
    requires BuiltAround(ls, tail, y1, start1, end1, rows1, focus1) && BuiltAround(ls, tail, y2, start2, end2, rows2, focus2)
    requires |WholeChain(ls, tail, start1, end1)| <= MAX_AUTOLINK_ROWS
    ensures rows1 == rows2 == WholeChain(ls, tail, start1, end1) && Joined(rows1) == Joined(rows2)
    ensures focus2 - focus1 == y2 - y1
  {
    OneChain(ls, start1, end1, start2, end2, y1, y2);
    hide Joined, ChainRowFor;
  }
}
