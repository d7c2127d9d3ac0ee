/** The plain text of a session: its last logical lines, assembled from rows read newest first. */
module TextTail {
  import opened Sequences

  /** One physical row; `wrapped` says that it continues the row above it. */
  datatype Row = Row(text: string, wrapped: bool)

  function Reverse<T>(s: seq<T>): (r: seq<T>)
    ensures |r| == |s|
  {
    if s == [] then [] else Reverse(s[1..]) + [s[0]]
  }

  lemma {:induction false} ReverseAppend<T>(s: seq<T>, x: T)
    ensures Reverse(s + [x]) == [x] + Reverse(s)
  {
    if s == [] {
      assert s + [x] == [x] && Reverse<T>([x][1..]) == [];
    } else {
      assert (s + [x])[1..] == s[1..] + [x];
      ReverseAppend(s[1..], x);
    }
  }

  function TrimRight(s: string): string {
    if s != "" && s[|s| - 1] == ' ' then TrimRight(s[..|s| - 1]) else s
  }

  /** Trimming takes exactly the trailing blanks. */
  lemma {:induction false} TrimIs(s: string)
    ensures TrimRight(s) <= s && forall i :: |TrimRight(s)| <= i < |s| ==> s[i] == ' '
    ensures TrimRight(s) != "" ==> TrimRight(s)[|TrimRight(s)| - 1] != ' '
  {
    if s != "" && s[|s| - 1] == ' ' { TrimIs(s[..|s| - 1]); }
  }

  /** The rows of each logical line, oldest first. The topmost row starts a line even when its own
      start has been evicted. */
  function Groups(rows: seq<Row>): (g: seq<seq<Row>>)
    ensures rows != [] ==> g != []
  {
    if |rows| <= 1 then (if rows == [] then [] else [rows])
    else
      var rest := Groups(rows[1..]);
      if rows[1].wrapped then [[rows[0]] + rest[0]] + rest[1..] else [[rows[0]]] + rest
  }

  function Texts(rows: seq<Row>): seq<string> {
    if rows == [] then [] else [rows[0].text] + Texts(rows[1..])
  }

  /** The text of one logical line: its rows joined, without trailing blanks. */
  function LineText(group: seq<Row>): string { TrimRight(Flatten(Texts(group))) }

  function LineTexts(groups: seq<seq<Row>>): (r: seq<string>)
    ensures |r| == |groups|
  {
    if groups == [] then [] else [LineText(groups[0])] + LineTexts(groups[1..])
  }

  function WithoutTrailingEmpty(lines: seq<string>): seq<string> {
    if lines != [] && lines[|lines| - 1] == "" then WithoutTrailingEmpty(lines[..|lines| - 1]) else lines
  }

  /** Exactly the trailing empty lines are dropped. */
  lemma {:induction false} DropIs(lines: seq<string>)
    ensures var r := WithoutTrailingEmpty(lines);
      && r <= lines && (forall i :: |r| <= i < |lines| ==> lines[i] == "") && (r != [] ==> r[|r| - 1] != "")
  {
    if lines != [] && lines[|lines| - 1] == "" { DropIs(lines[..|lines| - 1]); }
  }

  /** The specification: all logical lines, oldest first, trailing empty ones dropped. */
  function LogicalLines(rows: seq<Row>): seq<string> {
    WithoutTrailingEmpty(LineTexts(Groups(rows)))
  }

  function Last<T>(s: seq<T>, max: int): seq<T> {
    if max <= 0 || |s| <= max then s else s[|s| - max..]
  }

  /** A group is a logical line: only its first row may start one, and it does unless it is the
      topmost row of all. */
  ghost predicate IsLine(group: seq<Row>, topmost: bool) {
    && group != []
    && (topmost || !group[0].wrapped)
    && forall i :: 1 <= i < |group| ==> group[i].wrapped
  }

  ghost predicate AreLines(groups: seq<seq<Row>>) {
    forall i :: 0 <= i < |groups| ==> IsLine(groups[i], i == 0)
  }

  /** Grouping loses no row, keeps their order, and cuts exactly before the rows that do not wrap. */
  lemma {:induction false} GroupsAreTheLines(rows: seq<Row>)
    ensures Flatten(Groups(rows)) == rows
    ensures AreLines(Groups(rows))
    ensures rows != [] ==> Groups(rows)[0] != [] && Groups(rows)[0][0] == rows[0]
  {
    if |rows| == 1 {
      FlattenSingleton(rows);
    } else if |rows| > 1 {
      GroupsAreTheLines(rows[1..]);
      var rest := Groups(rows[1..]);
      assert rest[0][0] == rows[1];
      assert rows == [rows[0]] + rows[1..];
      if rows[1].wrapped {
        assert ([[rows[0]] + rest[0]] + rest[1..])[1..] == rest[1..];
        assert Flatten(rest) == rest[0] + Flatten(rest[1..]);
      } else {
        assert ([[rows[0]]] + rest)[1..] == rest;
      }
    }
  }

  /** How one more row on top changes the groups. */
  function Topped(row: Row, joins: bool, groups: seq<seq<Row>>): seq<seq<Row>>
    requires joins ==> groups != []
  {
    if joins then [[row] + groups[0]] + groups[1..] else [[row]] + groups
  }

  lemma GroupsTopped(row: Row, rows: seq<Row>)
    ensures Groups([row] + rows) == Topped(row, rows != [] && rows[0].wrapped, Groups(rows))
  {
    assert ([row] + rows)[1..] == rows;
    assert rows == [] ==> [row] + rows == [row];
  }

  lemma GroupsOfNone()
    ensures Groups([]) == []
  {
  }

  /** Lines above a row that starts a line do not affect those below it. */
  lemma {:induction false} GroupsSplit(above: seq<Row>, below: seq<Row>)
    requires below != [] && !below[0].wrapped
    ensures Groups(above + below) == Groups(above) + Groups(below)
  {
    hide Groups;
    if above == [] {
      assert above + below == below;
      GroupsOfNone();
    } else {
      GroupsSplit(above[1..], below);
      assert above == [above[0]] + above[1..];
      assert above + below == [above[0]] + (above[1..] + below);
      GroupsTopped(above[0], above[1..]);
      GroupsTopped(above[0], above[1..] + below);
    }
  }

  lemma {:induction false} LineTextsConcat(a: seq<seq<Row>>, b: seq<seq<Row>>)
    ensures LineTexts(a + b) == LineTexts(a) + LineTexts(b)
  {
    if a == [] {
      assert a + b == b;
    } else {
      assert (a + b)[1..] == a[1..] + b;
      LineTextsConcat(a[1..], b);
    }
  }

  lemma {:induction false} TrimConcat(a: seq<string>, b: seq<string>)
    ensures WithoutTrailingEmpty(b) != [] ==> WithoutTrailingEmpty(a + b) == a + WithoutTrailingEmpty(b)
    ensures WithoutTrailingEmpty(b) == [] ==> WithoutTrailingEmpty(a + b) == WithoutTrailingEmpty(a)
    decreases |b|
  {
    if b == [] {
      assert a + b == a;
    } else if b[|b| - 1] == "" {
      assert (a + b)[..|a + b| - 1] == a + b[..|b| - 1];
      TrimConcat(a, b[..|b| - 1]);
    }
  }

  /** Stopping at `max` complete lines loses nothing that the answer needs. */
  lemma EarlyExitIsExact(rows: seq<Row>, i: nat, max: nat)
    requires i < |rows| && !rows[i].wrapped
    requires 0 < max == |LogicalLines(rows[i..])|
    ensures LogicalLines(rows[i..]) == Last(LogicalLines(rows), max)
  {
    hide Groups, LineTexts, WithoutTrailingEmpty;
    var above, below := LineTexts(Groups(rows[..i])), LineTexts(Groups(rows[i..]));
    assert rows == rows[..i] + rows[i..];
    GroupsSplit(rows[..i], rows[i..]);
    LineTextsConcat(Groups(rows[..i]), Groups(rows[i..]));
    TrimConcat(above, below);
    assert LogicalLines(rows) == above + LogicalLines(rows[i..]);
  }

  /** The part of the newest rows that is a complete line when `open` is the group still being
      assembled. */
  function Complete(rows: seq<Row>): seq<seq<Row>> {
    if rows == [] then [] else if rows[0].wrapped then Groups(rows)[1..] else Groups(rows)
  }

  function Assembling(rows: seq<Row>): seq<Row> {
    if rows == [] || !rows[0].wrapped then [] else Groups(rows)[0]
  }

  /** One more row above `rows` joins the line being assembled and, unless it wraps, completes it. */
  lemma RowAbove(row: Row, rows: seq<Row>)
    ensures var more := [row] + rows;
      && (row.wrapped ==> Assembling(more) == [row] + Assembling(rows) && Complete(more) == Complete(rows))
      && (!row.wrapped ==> Complete(more) == [[row] + Assembling(rows)] + Complete(rows))
  {
    var more := [row] + rows;
    assert more[1..] == rows;
    if rows != [] {
      assert more[1] == rows[0];
      if rows[0].wrapped {
        assert Groups(more) == [[row] + Groups(rows)[0]] + Groups(rows)[1..];
      } else {
        assert Groups(more) == [[row]] + Groups(rows);
        assert [row] + Assembling(rows) == [row];
      }
    } else {
      assert more == [row] && [row] + Assembling(rows) == [row];
    }
  }

  /** The completed lines, newest first, once the line assembled from `parts` is complete. */
  function Flushed(lines: seq<string>, parts: seq<string>): seq<string> {
    var line := TrimRight(Flatten(Reverse(parts)));
    if parts == [] || (line == "" && lines == []) then lines else lines + [line]
  }

  /** Flushing completes the line `group`, above the lines already complete. */
  lemma FlushCompletes(lines: seq<string>, parts: seq<string>, group: seq<Row>, complete: seq<seq<Row>>)
    requires group != [] && Reverse(parts) == Texts(group)
    requires Reverse(lines) == WithoutTrailingEmpty(LineTexts(complete))
    ensures Reverse(Flushed(lines, parts)) == WithoutTrailingEmpty(LineTexts([group] + complete))
  {
    var line := LineText(group);
    assert ([group] + complete)[1..] == complete;
    TrimConcat([line], LineTexts(complete));
    assert LineTexts([group] + complete) == [line] + LineTexts(complete);
    ReverseAppend(lines, line);
    assert WithoutTrailingEmpty([line]) == if line == "" then [] else [line] by {
      assert line == "" ==> [line][..0] == [];
    }
  }

  class TextTail {
    var lines: seq<string>
    var parts: seq<string>
    const max: int

    constructor (max: int)
      ensures lines == [] && parts == [] && this.max == max && Holds([])
    {
      lines, parts := [], [];
      this.max := max;
    }

    /** What has been fed so far is `rows`. */
    ghost predicate Holds(rows: seq<Row>)
      reads this
    {
      && Reverse(parts) == Texts(Assembling(rows))
      && Reverse(lines) == WithoutTrailingEmpty(LineTexts(Complete(rows)))
    }

    method Flush()
      modifies this
      ensures parts == [] && lines == Flushed(old(lines), old(parts))
    {
      if parts == [] { return; }
      var line := TrimRight(Flatten(Reverse(parts)));
      parts := [];
      if line == "" && lines == [] { return; }
      lines := lines + [line];
    }

    /** Adds the row above every row fed so far; false once `max` lines are complete. */
    method Push(text: string, wrapped: bool, ghost rows: seq<Row>) returns (more: bool)
      requires Holds(rows)
      modifies this
      ensures Holds([Row(text, wrapped)] + rows)
      ensures more == (wrapped || max <= 0 || |lines| < max)
      ensures |old(lines)| <= |lines| <= |old(lines)| + 1
      ensures wrapped ==> |lines| == |old(lines)|
    {
      ghost var row := Row(text, wrapped);
      RowAbove(row, rows);
      ReverseAppend(parts, text);
      parts := parts + [text];
      ghost var group := [row] + Assembling(rows);
      assert Reverse(parts) == Texts(group) by { assert group[1..] == Assembling(rows); }
      if wrapped { return true; }
      FlushCompletes(lines, parts, group, Complete(rows));
      Flush();
      return max <= 0 || |lines| < max;
    }

    /** Feeds `source`, newest row first, above the rows already fed. */
    method Feed(source: seq<Row>, ghost below: seq<Row>) returns (more: bool, ghost fed: nat)
      requires Holds(below) && (0 < max ==> |lines| < max)
      modifies this
      ensures fed <= |source| && Holds(source[fed..] + below)
      ensures more ==> fed == 0 && (0 < max ==> |lines| < max)
      ensures !more ==> fed < |source| && !source[fed].wrapped && 0 < max == |lines|
    {
      hide Groups, LineTexts, WithoutTrailingEmpty, Reverse, Texts, Complete, Assembling;
      var i := |source|;
      assert source[i..] + below == below;
      while i > 0
        invariant i <= |source| && Holds(source[i..] + below)
        invariant 0 < max ==> |lines| < max
      {
        i := i - 1;
        assert source[i..] + below == [source[i]] + (source[i + 1..] + below);
        more := Push(source[i].text, source[i].wrapped, source[i + 1..] + below);
        if !more { return false, i; }
      }
      return true, 0;
    }
  }

  /** Every row that is text, oldest first: the ring, the pending drain unless it is alternate-screen
      content, and the main screen. */
  function AllRows(ring: seq<Row>, drained: seq<Row>, screen: seq<Row>, drainIsHistory: bool): seq<Row> {
    ring + ((if drainIsHistory then drained else []) + screen)
  }

  /** The early exit is the right answer when it happens `fed` rows into `source`. */
  lemma StoppedExactly(source: seq<Row>, below: seq<Row>, above: seq<Row>, fed: nat, max: nat, lines: seq<string>)
    requires fed < |source| && !source[fed].wrapped && 0 < max == |lines|
    requires Reverse(lines) == WithoutTrailingEmpty(LineTexts(Complete(source[fed..] + below)))
    ensures Reverse(lines) == Last(LogicalLines(above + (source + below)), max)
  {
    hide WithoutTrailingEmpty, LineTexts, Reverse, Groups;
    var rows := above + (source + below);
    var i := |above| + fed;
    assert rows[i..] == source[fed..] + below;
    assert rows[i] == source[fed];
    EarlyExitIsExact(rows, i, max);
  }

  /** Feeding all rows and flushing gives every logical line. */
  lemma FedAll(lines: seq<string>, parts: seq<string>, rows: seq<Row>)
    requires Reverse(parts) == Texts(Assembling(rows))
    requires Reverse(lines) == WithoutTrailingEmpty(LineTexts(Complete(rows)))
    ensures Reverse(Flushed(lines, parts)) == LogicalLines(rows)
  {
    if rows != [] && rows[0].wrapped {
      assert Groups(rows) == [Groups(rows)[0]] + Groups(rows)[1..];
      GroupsAreTheLines(rows);
      FlushCompletes(lines, parts, Groups(rows)[0], Groups(rows)[1..]);
    }
  }

  lemma FlushedSize(lines: seq<string>, parts: seq<string>)
    ensures |Flushed(lines, parts)| <= |lines| + 1
  {
  }

  /** The text is exactly the last `maxLines` logical lines, every line when `maxLines` is not
      positive. */
  method Text(ring: seq<Row>, drained: seq<Row>, screen: seq<Row>, inAltScreen: bool, altTransitionPending: bool,
              maxLines: int)
    returns (lines: seq<string>)
    ensures lines == Last(LogicalLines(AllRows(ring, drained, screen, !inAltScreen && !altTransitionPending)), maxLines)
  {
    hide Groups, LineTexts, WithoutTrailingEmpty, Reverse, Texts, Complete, Assembling, LogicalLines, Flushed;
    var t := new TextTail(maxLines);
    ghost var history := if !inAltScreen && !altTransitionPending then drained else [];
    var more, fed := t.Feed(screen, []);
    assert screen + [] == screen;
    if !more {
      StoppedExactly(screen, [], ring + history, fed, maxLines, t.lines);
      assert ring + history + (screen + []) == ring + (history + screen);
      return Reverse(t.lines);
    }
    assert screen[0..] + [] == screen;
    if !inAltScreen && !altTransitionPending {
      more, fed := t.Feed(drained, screen);
      if !more {
        StoppedExactly(drained, screen, ring, fed, maxLines, t.lines);
        return Reverse(t.lines);
      }
      assert drained[0..] == drained;
    }
    assert history == [] ==> history + screen == screen;
    more, fed := t.Feed(ring, history + screen);
    if !more {
      StoppedExactly(ring, history + screen, [], fed, maxLines, t.lines);
      assert [] + (ring + (history + screen)) == ring + (history + screen);
      return Reverse(t.lines);
    }
    assert ring[0..] == ring;
    FedAll(t.lines, t.parts, ring + (history + screen));
    FlushedSize(t.lines, t.parts);
    t.Flush();
    lines := Reverse(t.lines);
  }
}
