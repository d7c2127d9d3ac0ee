/** Cursor motion: up, down, left and right within the margins, backspace with reverse wrap, line and tab
    controls. */
module Motion {
  import opened Sequences
  import opened Lines
  import opened Grid

  predicate InRegion(s: Screen) reads s`curY, s`scrollTop, s`scrollBottom { s.scrollTop <= s.curY <= s.scrollBottom }

  /** CUU: a cursor at or below the region's top stops there, one above it at the screen's top. */
  method CursorUp(s: Screen, n: nat)
    requires s.Valid()
    modifies s`curY
    ensures s.Valid()
    ensures s.curY == Max(old(s.curY) - n, if old(s.curY) >= s.scrollTop then s.scrollTop else 0)
    ensures old(InRegion(s)) ==> InRegion(s)
  {
    s.curY := Max(s.curY - n, if s.curY >= s.scrollTop then s.scrollTop else 0);
  }

  /** CUD: a cursor at or above the region's bottom stops there, one below it at the screen's bottom. */
  method CursorDown(s: Screen, n: nat)
    requires s.Valid()
    modifies s`curY
    ensures s.Valid()
    ensures s.curY == Min(old(s.curY) + n, if old(s.curY) <= s.scrollBottom then s.scrollBottom else s.height - 1)
    ensures old(InRegion(s)) ==> InRegion(s)
  {
    s.curY := Min(s.curY + n, if s.curY <= s.scrollBottom then s.scrollBottom else s.height - 1);
  }

  method CursorRight(s: Screen, n: nat)
    requires s.Valid()
    modifies s`curX
    ensures s.Valid()
    ensures s.curX == Min(old(s.curX) + n, if old(s.curX) <= s.RightBound() then s.RightBound() else s.width - 1)
    ensures old(s.WithinHMargins(s.curX)) ==> s.WithinHMargins(s.curX)
  {
    s.curX := Min(s.curX + n, if s.curX <= s.RightBound() then s.RightBound() else s.width - 1);
  }

  /** CNL and CPL: the region's rows first, then the left margin, from wherever the column was. */
  method CursorLine(s: Screen, up: bool, n: nat)
    requires s.Valid()
    modifies s`curX, s`curY
    ensures s.Valid() && s.curX == s.LeftBound() && (old(InRegion(s)) ==> InRegion(s))
    ensures up ==> s.curY == Max(old(s.curY) - n, if old(s.curY) >= s.scrollTop then s.scrollTop else 0)
    ensures !up ==> s.curY == Min(old(s.curY) + n, if old(s.curY) <= s.scrollBottom then s.scrollBottom else s.height - 1)
  {
    if up { CursorUp(s, n); } else { CursorDown(s, n); }
    s.curX := s.LeftBound();
  }

  /** HPR: a relative move that knows no margin, only the screen. */
  method CursorRelative(s: Screen, n: nat)
    requires s.Valid()
    modifies s`curX
    ensures s.Valid() && s.curX == Min(old(s.curX) + n, s.width - 1)
  {
    s.curX := Min(s.curX + n, s.width - 1);
  }

  /** CHA and HPA place the column, VPA the row, each as CUP places it. */
  method CursorColumn(s: Screen, x: nat)
    requires s.Valid()
    modifies s`curX
    ensures s.Valid() && s.curX == if s.originMode then Min(x + s.LeftBound(), s.RightBound()) else Min(x, s.width - 1)
  {
    s.curX := if s.originMode then Min(x + s.LeftBound(), s.RightBound()) else Min(x, s.width - 1);
  }

  method CursorRow(s: Screen, y: nat)
    requires s.Valid()
    modifies s`curY
    ensures s.Valid() && s.curY == if s.originMode then Min(y + s.scrollTop, s.scrollBottom) else Min(y, s.height - 1)
  {
    s.curY := if s.originMode then Min(y + s.scrollTop, s.scrollBottom) else Min(y, s.height - 1);
  }

  /** The position a cursor report gives, one-based and relative to the margins in origin mode. */
  function Reported(s: Screen): (int, int)
    reads s
  {
    if s.originMode then (Max(s.curY - s.scrollTop + 1, 1), Max(s.curX - s.LeftBound() + 1, 1)) else (s.curY + 1, s.curX + 1)
  }

  /** A cursor placed by CUP, or by CHA and VPA, reports the position asked for, cut at the last row and column of
      the screen, or in origin mode of the region and the margins. */
  method PositionReadsBack(s: Screen, row: nat, col: nat, separately: bool) returns (report: (int, int))
    requires s.Valid() && row > 0 && col > 0
    modifies s`curX, s`curY
    ensures s.Valid()
    ensures var (rows, columns) := if s.originMode then (s.scrollBottom - s.scrollTop + 1, s.RightBound() - s.LeftBound() + 1)
                                   else (s.height, s.width);
            report == (Min(row, rows), Min(col, columns))
  {
    if separately {
      CursorColumn(s, col - 1);
      CursorRow(s, row - 1);
    } else {
      s.CursorPosition(row - 1, col - 1);
    }
    report := Reported(s);
  }

  /** The cursor's place, and whether its next character wraps first. */
  datatype Place = Place(y: nat, x: nat, pending: bool)

  function PlaceOf(s: Screen): Place reads s { Place(s.curY, s.curX, s.pendingWrap) }

  /** The box the cursor wraps back inside. */
  function Bounds(s: Screen): Box
    requires s.width > 0
    reads s
  {
    s.MarginBox(s.scrollTop)
  }

  predicate InBox(p: Place, b: Box) { b.top <= p.y <= b.bottom && b.left <= p.x <= b.right }

  /** One backspace. With reverse wrap a pending wrap is only cancelled, and at the left margin the cursor goes
      to the end of the row above, from the region's top to the end of its bottom row. */
  function Back(p: Place, b: Box, revWrap: bool): Place {
    if p.pending && revWrap then p.(pending := false)
    else if p.x > b.left then Place(p.y, p.x - 1, false)
    else if revWrap then if p.y > b.top then Place(p.y - 1, b.right, false) else Place(b.bottom, b.right, false)
    else if 0 < p.x < b.left then Place(p.y, p.x - 1, false)
    else p.(pending := false)
  }

  function BackTimes(p: Place, b: Box, revWrap: bool, n: nat): Place {
    if n == 0 then p else Back(BackTimes(p, b, revWrap, n - 1), b, revWrap)
  }

  method Backspace(s: Screen)
    requires s.Valid()
    modifies s`curX, s`curY, s`pendingWrap
    ensures s.Valid()
    ensures PlaceOf(s) == Back(old(PlaceOf(s)), Bounds(s), s.reverseWrap && s.autoWrap)
  {
    var revWrap := s.reverseWrap && s.autoWrap;
    var left, wasPending := s.LeftBound(), s.pendingWrap;
    s.pendingWrap := false;
    if wasPending && revWrap {
      return;
    } else if s.curX > left {
      s.curX := s.curX - 1;
    } else if revWrap && s.curY > s.scrollTop {
      s.curY := s.curY - 1;
      s.curX := s.RightBound();
    } else if revWrap && s.curY <= s.scrollTop {
      s.curY := s.scrollBottom;
      s.curX := s.RightBound();
    } else if 0 < s.curX < left {
      s.curX := s.curX - 1;
    }
  }

  /** CUB: under reverse wrap exactly as many backspaces, else one step that stops at the left margin. */
  method CursorLeft(s: Screen, n: nat)
    requires s.Valid()
    modifies s`curX, s`curY, s`pendingWrap
    ensures s.Valid()
    ensures s.reverseWrap && s.autoWrap ==> PlaceOf(s) == BackTimes(old(PlaceOf(s)), Bounds(s), true, Max(n, 1))
    ensures !(s.reverseWrap && s.autoWrap) ==>
      && s.curY == old(s.curY) && s.pendingWrap == old(s.pendingWrap)
      && s.curX == Max(old(s.curX) - Max(n, 1), if old(s.curX) >= s.LeftBound() then s.LeftBound() else 0)
  {
    var count := Max(n, 1);
    if s.reverseWrap && s.autoWrap {
      for i := 0 to count
        invariant s.Valid() && PlaceOf(s) == BackTimes(old(PlaceOf(s)), Bounds(s), true, i)
      {
        Backspace(s);
      }
      return;
    }
    s.curX := Max(s.curX - count, if s.curX >= s.LeftBound() then s.LeftBound() else 0);
  }

  /** How far into its box a place is, row by row. */
  function Rank(p: Place, b: Box): int { (p.y - b.top) * (b.right - b.left + 1) + (p.x - b.left) }

  function Cells(b: Box): int { (b.bottom - b.top + 1) * (b.right - b.left + 1) }

  lemma OneRowMore(rows: int, columns: int)
    ensures (rows + 1) * columns == rows * columns + columns
  {}

  /** A reverse-wrapping backspace walks the box backwards one cell at a time and, from its first cell, on to its
      last: the whole box is one cycle, and the cursor never leaves it. */
  lemma BackWalksTheBox(p: Place, b: Box)
    requires b.top <= b.bottom && b.left <= b.right && InBox(p, b) && !p.pending
    ensures var q := Back(p, b, true);
      && InBox(q, b) && !q.pending
      && Rank(q, b) == if Rank(p, b) == 0 then Cells(b) - 1 else Rank(p, b) - 1
  {
    var columns := b.right - b.left + 1;
    OneRowMore(p.y - b.top - 1, columns);
    OneRowMore(b.bottom - b.top, columns);
    RankIsNatural(p.y - b.top, columns, p.x - b.left);
  }

  lemma RankIsNatural(row: nat, columns: int, column: nat)
    requires columns > 0
    ensures row * columns >= 0
    ensures row * columns + column == 0 <==> row == 0 && column == 0
  {}

  /** So `n` backspaces from cell `n` of the box or past it go back exactly `n` cells, and as many as the box has
      cells come back to where they began. */
  lemma {:induction false} BackManyCells(p: Place, b: Box, n: nat)
    requires b.top <= b.bottom && b.left <= b.right && InBox(p, b) && !p.pending && n <= Rank(p, b)
    ensures var q := BackTimes(p, b, true, n); InBox(q, b) && !q.pending && Rank(q, b) == Rank(p, b) - n
  {
    if n > 0 {
      BackManyCells(p, b, n - 1);
      BackWalksTheBox(BackTimes(p, b, true, n - 1), b);
    }
  }

  // ---- lines ----

  /** CR: to the left margin from it or the right of it, else to the screen's edge. */
  method CarriageReturn(s: Screen)
    requires s.Valid()
    modifies s`curX, s`pendingWrap
    ensures s.Valid() && !s.pendingWrap && s.curX == if old(s.curX) >= s.LeftBound() then s.LeftBound() else 0
  {
    s.curX := if s.curX >= s.LeftBound() then s.LeftBound() else 0;
    s.pendingWrap := false;
  }

  /** LF, VT and FF; in newline mode the cursor returns first. */
  method LineFeed(s: Screen)
    requires s.Valid()
    modifies s`cells, s`wrapped, s`drained, s`curX, s`curY, s`pendingWrap, s.RowSet()
    ensures s.Valid() && fresh(s.RowSet() - old(s.RowSet())) && !s.pendingWrap
    ensures s.curX == if s.newLineMode then 0 else old(s.curX)
    ensures s.curY == if old(s.curY) == s.scrollBottom then old(s.curY) else Min(old(s.curY) + 1, s.height - 1)
    ensures s.ScrolledOnce(old(s.View()), old(s.drained), old(s.curY) == s.scrollBottom && s.WithinHMargins(s.curX))
  {
    hide Screen.View, Screen.BuffersOk, LinesOf;
    s.pendingWrap := false;
    if s.newLineMode {
      s.curX := 0;
    }
    s.LineDown();
  }

  /** NEL: the line feed looks at the column it starts from; the return comes after. */
  method NextLine(s: Screen)
    requires s.Valid()
    modifies s`cells, s`wrapped, s`drained, s`curX, s`curY, s`pendingWrap, s.RowSet()
    ensures s.Valid() && fresh(s.RowSet() - old(s.RowSet())) && !s.pendingWrap
    ensures s.curX == if old(s.curX) >= s.LeftBound() then s.LeftBound() else 0
    ensures s.curY == if old(s.curY) == s.scrollBottom then old(s.curY) else Min(old(s.curY) + 1, s.height - 1)
    ensures s.ScrolledOnce(old(s.View()), old(s.drained), old(s.curY) == s.scrollBottom && s.WithinHMargins(old(s.curX)))
  {
    hide Screen.View, Screen.BuffersOk, LinesOf;
    s.pendingWrap := false;
    s.LineDown();
    CarriageReturn(s);
  }

  /** RI: up one row; at the region's top the region scrolls down, from inside the margins only. Nothing drains. */
  method ReverseIndex(s: Screen)
    requires s.Valid()
    modifies s`cells, s`wrapped, s`curY, s`pendingWrap, s.RowSet()
    ensures s.Valid() && fresh(s.RowSet() - old(s.RowSet())) && !s.pendingWrap
    ensures s.curY == if old(s.curY) == s.scrollTop || old(s.curY) == 0 then old(s.curY) else old(s.curY) - 1
    ensures s.View() == if old(s.curY) == s.scrollTop && s.WithinHMargins(s.curX)
      then ShiftDown(old(s.View()), s.MarginBox(s.scrollTop), 1, s.width, s.style.bg) else old(s.View())
  {
    hide Screen.View, Screen.BuffersOk, LinesOf, ShiftDown;
    s.pendingWrap := false;
    if s.curY == s.scrollTop {
      if s.WithinHMargins(s.curX) {
        s.BoxOrRowsDown(s.scrollTop);
      }
    } else if s.curY > 0 {
      s.curY := s.curY - 1;
    }
  }

  // ---- tabs ----

  /** There is a stop at column `c`. */
  predicate StopIn(stops: Option<seq<bool>>, c: nat) {
    if stops.None? then c % 8 == 0 else c < |stops.value| && stops.value[c]
  }

  predicate IsStop(s: Screen, c: nat) reads s`tabStops { StopIn(s.tabStops, c) }

  method SetTabStop(s: Screen, col: nat, on: bool)
    requires s.Valid() && s.TabsOk()
    modifies s`tabStops
    ensures s.TabsOk()
    ensures forall c :: 0 < c < s.width ==> (IsStop(s, c) <==> if c == col then on else old(IsStop(s, c)))
  {
    var stops := if s.tabStops.Some? then s.tabStops.value else WidenedStops([], s.width);
    if col < |stops| {
      stops := stops[col := on];
    }
    s.tabStops := Some(stops);
  }

  method ClearAllTabStops(s: Screen)
    requires s.Valid()
    modifies s`tabStops
    ensures s.TabsOk() && forall c: nat :: !IsStop(s, c)
  {
    s.tabStops := Some(seq(s.width, i => false));
  }

  /** The first stop past `col`, or a column off the screen when there is none. */
  method NextTabStop(s: Screen, col: nat) returns (next: nat)
    requires s.Valid() && s.TabsOk()
    ensures col < next || s.width <= next
    ensures next < s.width ==> IsStop(s, next)
    ensures forall c: nat :: col < c < next && c < s.width ==> !IsStop(s, c)
  {
    if s.tabStops.None? {
      return col / 8 * 8 + 8;
    }
    var i := col + 1;
    while i < s.width
      invariant forall c: nat :: col < c < i && c < s.width ==> !IsStop(s, c)
    {
      if s.tabStops.value[i] { return i; }
      i := i + 1;
    }
    return s.width;
  }

  /** The last stop before `col`, or column 0. */
  method PrevTabStop(s: Screen, col: nat) returns (prev: nat)
    requires s.Valid() && s.TabsOk() && col < s.width
    ensures prev <= col && (prev > 0 ==> prev < col && IsStop(s, prev))
    ensures forall c: nat :: prev < c < col ==> !IsStop(s, c)
  {
    if s.tabStops.None? {
      return if col == 0 then 0 else (col - 1) / 8 * 8;
    }
    var i := col - 1;
    while i >= 0
      invariant -1 <= i < Max(col, 1)
      invariant forall c: nat :: i < c < col ==> !IsStop(s, c)
    {
      if s.tabStops.value[i] { return i; }
      i := i - 1;
    }
    return 0;
  }

  /** Where a tab from column `x` stops at the latest: the right margin, or the screen's edge from past it. */
  function TabLimit(s: Screen, x: nat): nat
    requires s.width > 0
    reads s
  {
    if x <= s.RightBound() then s.RightBound() else s.width - 1
  }

  /** The cursor is where one tab from column `from` takes it: at the next stop, or at the limit when none comes before. */
  ghost predicate OneTabFrom(s: Screen, from: nat)
    requires s.width > 0
    reads s
  {
    var limit := TabLimit(s, from);
    if from >= limit then s.curX == from
    else from < s.curX <= limit && (s.curX < limit ==> IsStop(s, s.curX)) && forall c: nat :: from < c < s.curX ==> !IsStop(s, c)
  }

  /** HT: false when the cursor is already at the limit. */
  method TabOnce(s: Screen) returns (advanced: bool)
    requires s.Valid() && s.TabsOk()
    modifies s`curX
    ensures s.Valid() && OneTabFrom(s, old(s.curX))
    ensures advanced <==> old(s.curX) < TabLimit(s, old(s.curX))
  {
    var right := s.RightBound();
    var next := NextTabStop(s, s.curX);
    if s.curX <= right && next > right {
      if s.curX == right { return false; }
      s.curX := right;
    } else if next >= s.width {
      if s.curX == s.width - 1 { return false; }
      s.curX := s.width - 1;
    } else {
      s.curX := next;
    }
    return true;
  }

  /** The number of stops in columns `a + 1..b`. */
  ghost function Stops(s: Screen, a: int, b: int): nat
    reads s`tabStops
    decreases b - a
  {
    if b <= a then 0 else Stops(s, a, b - 1) + if b >= 0 && IsStop(s, b) then 1 else 0
  }

  lemma {:induction false} NoStopsMore(s: Screen, a: int, b: int, c: int)
    requires a <= b <= c && forall k: nat :: b < k <= c ==> !IsStop(s, k)
    ensures Stops(s, a, c) == Stops(s, a, b)
    decreases c - b
  {
    if b < c { NoStopsMore(s, a, b, c - 1); }
  }

  lemma {:induction false} StopsSplit(s: Screen, a: int, b: int, c: int)
    requires a <= b <= c
    ensures Stops(s, a, c) == Stops(s, a, b) + Stops(s, b, c)
    decreases c - b
  {
    if b < c { StopsSplit(s, a, b, c - 1); }
  }

  /** The cursor is at the `n`th stop past column `from`, or at the limit when fewer come before it. */
  ghost predicate ForwardFrom(s: Screen, from: nat, n: nat)
    requires s.width > 0
    reads s
  {
    var limit := TabLimit(s, from);
    && from <= s.curX <= limit
    && (s.curX < limit ==> Stops(s, from, s.curX) == n && (n > 0 ==> IsStop(s, s.curX)))
    && (s.curX == limit > from ==> Stops(s, from, s.curX - 1) < n)
    && (n >= s.width ==> s.curX == limit)
  }

  /** CHT: to the `n`th stop past the column, or to the limit when fewer come before it. */
  method TabForward(s: Screen, n: nat)
    requires s.Valid() && s.TabsOk()
    modifies s`curX
    ensures s.Valid() && s.TabsOk() && ForwardFrom(s, old(s.curX), n)
  {
    ghost var from, limit := s.curX, TabLimit(s, s.curX);
    for i := 0 to n
      invariant s.Valid() && s.TabsOk() && from <= s.curX <= limit == TabLimit(s, s.curX)
      invariant s.curX == limit || s.curX >= from + i
      invariant s.curX < limit ==> Stops(s, from, s.curX) == i && (i > 0 ==> IsStop(s, s.curX))
      invariant s.curX == limit > from ==> Stops(s, from, limit - 1) < i
    {
      ghost var at := s.curX;
      var advanced := TabOnce(s);
      if !advanced { break; }
      NoStopsMore(s, from, at, s.curX - 1);
    }
  }

  /** The cursor is at the `n`th stop before column `from`, or at column 0 when there are fewer. */
  ghost predicate BackwardFrom(s: Screen, from: nat, n: nat)
    reads s
  {
    && s.curX <= from
    && (s.curX > 0 ==> Stops(s, s.curX - 1, from - 1) == n && (n > 0 ==> IsStop(s, s.curX)))
    && (s.curX == 0 < from ==> Stops(s, 0, from - 1) < n)
    && (n >= s.width ==> s.curX == 0)
  }

  /** CBT: to the `n`th stop before the column, or to column 0 when there are fewer. */
  method TabBackward(s: Screen, n: nat)
    requires s.Valid() && s.TabsOk()
    modifies s`curX
    ensures s.Valid() && s.TabsOk() && BackwardFrom(s, old(s.curX), n)
  {
    hide Screen.Core;
    ghost var from: int := s.curX;
    assert Stops(s, from - 1, from - 1) == 0;
    hide Stops, IsStop;
    for i := 0 to n
      invariant s.Valid() && s.TabsOk() && s.curX <= from
      invariant s.curX == 0 || s.curX + i <= from
      invariant s.curX > 0 ==> Stops(s, s.curX - 1, from - 1) == i && (i > 0 ==> IsStop(s, s.curX))
      invariant s.curX == 0 < from ==> Stops(s, 0, from - 1) < i
    {
      ghost var at := s.curX;
      s.curX := PrevTabStop(s, s.curX);
      if at > 0 { CountBack(s, s.curX, at, from); }
      if s.curX == 0 { break; }
    }
  }

  /** One more stop, at `to`, between `to` and the column `at` the count had reached. */
  lemma CountBack(s: Screen, to: nat, at: nat, from: nat)
    requires to < at <= from && forall k: nat :: to < k < at ==> !IsStop(s, k)
    ensures Stops(s, to, from - 1) == Stops(s, at - 1, from - 1)
    ensures to > 0 && IsStop(s, to) ==> Stops(s, to - 1, from - 1) == Stops(s, at - 1, from - 1) + 1
  {
    NoStopsMore(s, to, to, at - 1);
    StopsSplit(s, to, at - 1, from - 1);
    StopsSplit(s, to - 1, to, from - 1);
  }

  /** The tab control: a pending wrap makes it do nothing, or with the more fix is carried out first. */
  method Tab(s: Screen)
    requires s.Valid() && s.TabsOk()
    modifies s`cells, s`wrapped, s`drained, s`curX, s`curY, s`pendingWrap, s.RowSet()
    ensures s.Valid() && s.TabsOk() && fresh(s.RowSet() - old(s.RowSet()))
    ensures !old(s.pendingWrap) ==>
      && OneTabFrom(s, old(s.curX)) && s.curY == old(s.curY) && !s.pendingWrap && s.View() == old(s.View()) && s.drained == old(s.drained)
    ensures old(s.pendingWrap) && !s.moreFix ==>
      PlaceOf(s) == old(PlaceOf(s)) && s.View() == old(s.View()) && s.drained == old(s.drained)
    ensures old(s.pendingWrap) && s.moreFix ==>
      && OneTabFrom(s, old(s.WrapColumn())) && s.curY == Min(old(s.curY) + 1, s.scrollBottom) && !s.pendingWrap
      && s.ScrolledOnce(old(s.View()), old(s.drained), old(s.curY) + 1 > s.scrollBottom)
  {
    hide Screen.View, Screen.BuffersOk, LinesOf, OneTabFrom;
    if !s.pendingWrap {
      var _ := TabOnce(s);
    } else if s.moreFix {
      s.pendingWrap := false;
      s.curX := s.WrapColumn();
      s.curY := s.curY + 1;
      s.ScrollIfNeeded();
      var _ := TabOnce(s);
    }
  }
}
