/** The bounded scrollback ring, and history paging over it.

    A line's absolute index is the number of lines committed before it. The ring is proved to hold
    the newest lines of an unbounded append-only log, through growth, eviction and Clear. */
module Scrollback {
  import opened Sequences
  import opened Wire

  datatype Line = Line(row: Row, wrapped: bool)

  /** What `Append(lines, wrapped)` adds to the log; a missing wrap flag is false. */
  function Entries(lines: seq<Row>, wrapped: seq<bool>): (r: seq<Line>)
    ensures |r| == |lines|
    ensures forall i :: 0 <= i < |r| ==> r[i] == Line(lines[i], i < |wrapped| && wrapped[i])
  {
    seq(|lines|, i requires 0 <= i < |lines| => Line(lines[i], i < |wrapped| && wrapped[i]))
  }

  function RowsOf(lines: seq<Line>): (r: seq<Row>)
    ensures |r| == |lines| && forall i :: 0 <= i < |r| ==> r[i] == lines[i].row
  {
    seq(|lines|, i requires 0 <= i < |lines| => lines[i].row)
  }

  lemma Wraps(a: nat, n: nat)
    requires a < 2 * n
    ensures a % n == if a < n then a else a - n
  {}

  /** The slot `i` places after slot `start` in a ring of `n`. */
  function Slot(start: nat, i: nat, n: nat): (r: nat)
    requires start < n && i < n
    ensures r == (if start + i < n then start + i else start + i - n)
  {
    Wraps(start + i, n);
    (start + i) % n
  }

  class ScrollbackRing {
    var buf: seq<Row>
    var wrap: seq<bool>
    const capacity: nat
    var start: nat
    var count: nat
    var committed: nat

    /** Every line ever appended. */
    ghost var log: seq<Line>

    ghost predicate Shape() reads this {
      && |buf| == |wrap| == count <= capacity && count <= committed == |log|
      && (if count == capacity then start < Max(capacity, 1) else start == 0)
    }

    /** The retained line `i` places after the oldest. */
    function LineAt(i: nat): Line
      requires Shape() && i < count
      reads this
    {
      Line(buf[Slot(start, i, count)], wrap[Slot(start, i, count)])
    }

    ghost predicate Valid() reads this {
      Shape() && forall i :: 0 <= i < count ==> LineAt(i) == log[committed - count + i]
    }

    constructor (limit: int)
      ensures Valid() && capacity == Max(limit, 0) && log == [] && fresh(this)
    {
      capacity := Max(limit, 0);
      buf, wrap, start, count, committed, log := [], [], 0, 0, 0, [];
    }

    /** The log grows by exactly the lines, and as many of its newest as fit are retained. */
    method Append(lines: seq<Row>, wrapped: seq<bool>)
      requires Valid()
      modifies this
      ensures Valid() && log == old(log) + Entries(lines, wrapped)
      ensures count == Min(capacity, old(count) + |lines|)
    {
      if capacity == 0 {
        committed := committed + |lines|;
        log := log + Entries(lines, wrapped);
        return;
      }
      var i := 0;
      while i < |lines|
        invariant 0 <= i <= |lines| && Valid()
        invariant log == old(log) + Entries(lines, wrapped)[..i]
        invariant count == Min(capacity, old(count) + i)
      {
        Push(lines[i], i < |wrapped| && wrapped[i]);
        assert Entries(lines, wrapped)[..i + 1] == Entries(lines, wrapped)[..i] + [Entries(lines, wrapped)[i]];
        i := i + 1;
      }
    }

    method Push(line: Row, w: bool)
      requires Valid() && capacity > 0
      modifies this
      ensures Valid() && log == old(log) + [Line(line, w)]
      ensures count == Min(capacity, old(count) + 1)
    {
      ghost var before := log;
      if |buf| < capacity {
        buf := buf + [line];
        wrap := wrap + [w];
        count := count + 1;
      } else {
        buf := buf[start := line];
        wrap := wrap[start := w];
        Wraps(start + 1, capacity);
        start := (start + 1) % capacity;
      }
      committed := committed + 1;
      log := log + [Line(line, w)];
      forall i | 0 <= i < count ensures LineAt(i) == log[committed - count + i] {
        if i < count - 1 {
          assert log[committed - count + i] == before[committed - count + i];
          if old(count) < capacity { assert old(LineAt(i)) == LineAt(i); } else { assert old(LineAt(i + 1)) == LineAt(i); }
        }
      }
    }

    /** The absolute index of the oldest retained line. */
    function OldestIndex(): (n: nat)
      requires Valid()
      reads this
      ensures n <= committed
    {
      committed - count
    }

    method LinesFrom(abs: nat) returns (firstAbs: nat, lines: seq<Row>)
      requires Valid()
      ensures firstAbs == Min(Max(abs, OldestIndex()), committed) && lines == RowsOf(log[firstAbs..])
    {
      if count == 0 || abs >= committed {
        assert log[committed..] == [];
        return committed, [];
      }
      var oldest := OldestIndex();
      firstAbs := Max(abs, oldest);
      var skip := firstAbs - oldest;
      lines := [];
      var i := skip;
      while i < count
        invariant skip <= i <= count
        invariant lines == RowsOf(log[firstAbs..oldest + i])
      {
        assert log[firstAbs..oldest + i + 1] == log[firstAbs..oldest + i] + [log[oldest + i]];
        lines := lines + [LineAt(i).row];
        i := i + 1;
      }
      assert log[firstAbs..oldest + i] == log[firstAbs..];
    }

    method LinesRange(abs: nat, maxLines: int) returns (firstAbs: nat, lines: seq<Row>)
      requires Valid()
      ensures count == 0 || abs >= committed || maxLines <= 0 ==> firstAbs == committed && lines == []
      ensures 0 < count && abs < committed && maxLines > 0 ==>
        firstAbs == Max(abs, OldestIndex()) && lines == RowsOf(log[firstAbs..Min(firstAbs + maxLines, committed)])
    {
      if count == 0 || abs >= committed || maxLines <= 0 {
        return committed, [];
      }
      var oldest := OldestIndex();
      firstAbs := Max(abs, oldest);
      var skip := firstAbs - oldest;
      var take := Min(count - skip, maxLines);
      lines := [];
      var i := skip;
      while i < skip + take
        invariant skip <= i <= skip + take
        invariant lines == RowsOf(log[firstAbs..oldest + i])
      {
        assert log[firstAbs..oldest + i + 1] == log[firstAbs..oldest + i] + [log[oldest + i]];
        lines := lines + [LineAt(i).row];
        i := i + 1;
      }
    }

    /** Forgets every line and reuses no index. */
    method Clear()
      requires Valid()
      modifies this
      ensures Valid() && count == 0 && log == old(log)
    {
      buf, wrap, start, count := [], [], 0, 0;
    }
  }
}
