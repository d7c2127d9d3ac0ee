/** Split-view layouts: over session ids as viewers share them, over positions as they are stored. */
module Layouts {
  import opened Sequences

  type Id = string

  /** A side as a client may send it; only the first two are accepted. */
  datatype Side = Left | Right | Unknown

  function Other(s: Side): Side { if s == Left then Right else Left }

  /** `T` is a session id in the shared layout and a position in a stored one. */
  datatype Layout<T> = Layout(left: Option<T>, right: Option<T>, selected: Side, handle: real, open: bool)

  function DefaultLayout<T>(): Layout<T> { Layout(None, None, Left, 0.5, false) }

  function Pane<T>(l: Layout<T>, s: Side): Option<T> { if s == Right then l.right else l.left }

  datatype Rule = BadSide | BadHandle | ClosedSplit | SameTwice | EmptySelected | OutOfRange | NothingShown

  /** The first consistency rule `l` breaks. */
  function InvalidShape<T(==)>(l: Layout<T>): Option<Rule> {
    if l.selected == Unknown then Some(BadSide)
    else if l.handle < 0.0 || l.handle > 1.0 then Some(BadHandle)
    else if !l.open && (l.right.Some? || l.selected != Left) then Some(ClosedSplit)
    else if l.left.Some? && l.left == l.right then Some(SameTwice)
    else if Pane(l, l.selected).None? && Pane(l, Other(l.selected)).Some? then Some(EmptySelected)
    else None
  }

  /** Exactly which layouts are well shaped. */
  lemma WellShapedIff<T>(l: Layout<T>)
    ensures InvalidShape(l).None? <==>
      && (l.selected == Left || l.selected == Right) && 0.0 <= l.handle <= 1.0
      && (l.open || (l.right.None? && l.selected == Left))
      && (l.left.None? || l.left != l.right)
      && ((l.left.None? && l.right.None?) || (l.selected == Left && l.left.Some?) || (l.selected == Right && l.right.Some?))
  {}

  predicate InRange(side: Option<int>, n: nat) { side.Some? ==> 0 <= side.value < n }

  /** The first rule a stored layout breaks against a set of `n` entries. */
  function Invalid(l: Layout<int>, n: nat): Option<Rule> {
    if !InRange(l.left, n) || !InRange(l.right, n) then Some(OutOfRange)
    else if l.left.Some? && l.left == l.right then Some(SameTwice)
    else InvalidShape(l)
  }

  function IndexOf(ids: seq<Id>, id: Id): (r: Option<int>)
    ensures r.None? ==> id !in ids
    ensures r.Some? ==> 0 <= r.value < |ids| && ids[r.value] == id && id !in ids[..r.value]
  {
    if ids == [] then None
    else if ids[0] == id then Some(0)
    else
      var r := IndexOf(ids[1..], id);
      assert r.Some? ==> ids[..r.value + 1] == [ids[0]] + ids[1..][..r.value];
      if r.None? then None else Some(r.value + 1)
  }

  function IndexSide(side: Option<Id>, ids: seq<Id>): Option<int> {
    if side.None? then None else IndexOf(ids, side.value)
  }

  function IdSide(side: Option<int>, ids: seq<Id>): Option<Id> {
    if side.None? || !InRange(side, |ids|) then None else Some(ids[side.value])
  }

  function IndexLayout(l: Layout<Id>, ids: seq<Id>): Layout<int> {
    Layout(IndexSide(l.left, ids), IndexSide(l.right, ids), l.selected, l.handle, l.open)
  }

  function IdLayout(l: Layout<int>, ids: seq<Id>): Layout<Id> {
    Layout(IdSide(l.left, ids), IdSide(l.right, ids), l.selected, l.handle, l.open)
  }

  /** The one rule set every derived layout passes through, for a set of `n` entries. */
  function NormalizeSetLayout(l: Layout<int>, n: nat): Layout<int> {
    if n == 0 then DefaultLayout()
    else
      var closed := if l.open then l else l.(right := None, selected := Left, handle := 0.5);
      var other := Other(closed.selected);
      var moved :=
        if Pane(closed, closed.selected).None? && Pane(closed, other).Some? then closed.(selected := other) else closed;
      if moved.left.Some? || moved.right.Some? then moved
      else if moved.selected == Right then moved.(right := Some(0))
      else moved.(left := Some(0))
  }

  function NormalizePaneLayout(l: Layout<Id>, order: seq<Id>): Layout<Id> {
    IdLayout(NormalizeSetLayout(IndexLayout(l, order), |order|), order)
  }

  /** A layout fit to show a set of `n` sessions: well shaped, and something selected is shown. */
  predicate Presentable<T(==)>(l: Layout<T>, n: nat) {
    && InvalidShape(l).None?
    && (n > 0 ==> Pane(l, l.selected).Some?)
    && (!l.open ==> l.handle == 0.5)
  }

  /** For every layout whatever, normalizing twice is normalizing once. */
  lemma NormalizeIsIdempotent(l: Layout<int>, n: nat)
    ensures NormalizeSetLayout(NormalizeSetLayout(l, n), n) == NormalizeSetLayout(l, n)
  {
  }

  /** Exactly which layouts normalizing makes acceptable: it repairs empty panes and closed splits,
      never an index, a handle, a repeated session or an unknown side of an open split. */
  lemma NormalizedIsValidIff(l: Layout<int>, n: nat)
    ensures Invalid(NormalizeSetLayout(l, n), n).None? <==>
      n == 0 || (
        && InRange(l.left, n)
        && (l.open ==> l.selected != Unknown && 0.0 <= l.handle <= 1.0 && InRange(l.right, n)
                       && !(l.left.Some? && l.left == l.right)))
    ensures Invalid(NormalizeSetLayout(l, n), n).None? ==> Presentable(NormalizeSetLayout(l, n), n)
  {
  }

  /** Normalizing leaves a layout that is already presentable alone. */
  lemma PresentableIsNormal(l: Layout<int>, n: nat)
    requires n > 0 && Presentable(l, n)
    ensures NormalizeSetLayout(l, n) == l
  {
  }

  ghost predicate NoDup<T(!new)>(s: seq<T>) {
    forall i, j :: 0 <= i < j < |s| ==> s[i] != s[j]
  }

  lemma NoDupAppend(s: seq<Id>, x: Id)
    ensures NoDup(s + [x]) <==> NoDup(s) && x !in s
  {
    assert NoDup(s + [x]) ==> NoDup(s) by {
      if NoDup(s + [x]) {
        forall i, j | 0 <= i < j < |s| ensures s[i] != s[j] { assert (s + [x])[i] != (s + [x])[j]; }
      }
    }
    if i :| 0 <= i < |s| && s[i] == x { assert (s + [x])[i] == (s + [x])[|s|]; }
  }

  lemma NoDupFront(s: seq<Id>)
    requires s != []
    ensures NoDup(s) <==> NoDup(s[..|s| - 1]) && s[|s| - 1] !in s[..|s| - 1]
  {}

  lemma NoDupConcat(a: seq<Id>, b: seq<Id>)
    requires NoDup(a) && NoDup(b) && forall k :: k in a ==> k !in b
    ensures NoDup(a + b)
  {
    forall i, j | 0 <= i < j < |a + b| ensures (a + b)[i] != (a + b)[j] {
      if i < |a| <= j { assert a[i] in a && b[j - |a|] in b; }
    }
  }

  /** Positions to ids and back is the identity on in-range layouts. */
  lemma IndexOfIds(l: Layout<int>, ids: seq<Id>)
    requires NoDup(ids) && InRange(l.left, |ids|) && InRange(l.right, |ids|)
    ensures IndexLayout(IdLayout(l, ids), ids) == l
  {}

  /** Ids to positions and back empties exactly the panes whose session is not in `ids`. */
  lemma IdsOfIndices(l: Layout<Id>, ids: seq<Id>)
    ensures IdLayout(IndexLayout(l, ids), ids) ==
      l.(left := if l.left.Some? && l.left.value in ids then l.left else None,
         right := if l.right.Some? && l.right.value in ids then l.right else None)
  {
  }

  ghost predicate Names(l: Layout<Id>, ids: seq<Id>) {
    (l.left.Some? ==> l.left.value in ids) && (l.right.Some? ==> l.right.value in ids)
  }

  /** What a derived layout may start from: its shown sessions differ and its numbers are in range. */
  predicate Repairable(l: Layout<Id>, order: seq<Id>) {
    && l.selected != Unknown && 0.0 <= l.handle <= 1.0
    && !(l.left.Some? && l.left == l.right && l.left.value in order)
  }

  /** Normalizing over an order yields a layout that shows only its members and shows something. */
  lemma NormalizedPanes(l: Layout<Id>, order: seq<Id>)
    requires NoDup(order) && Repairable(l, order)
    ensures var r := NormalizePaneLayout(l, order); Names(r, order) && Presentable(r, |order|)
  {
    var index := IndexLayout(l, order);
    assert !(index.left.Some? && index.left == index.right) by {
      assert index.left.Some? && index.right.Some? ==>
        order[index.left.value] == l.left.value && order[index.right.value] == l.right.value;
    }
    var r := NormalizeSetLayout(index, |order|);
    NormalizedIsValidIff(index, |order|);
    assert r.left.Some? && r.right.Some? ==> order[r.left.value] != order[r.right.value];
  }

  /** A pane showing a session that stays keeps it, unless a closed split hides the pane; the split
      and its handle stay, and the selection moves only off an emptied pane. */
  lemma NormalizingKeeps(l: Layout<Id>, order: seq<Id>)
    requires NoDup(order) && Repairable(l, order) && order != []
    ensures var r := NormalizePaneLayout(l, order);
      && r.open == l.open
      && (l.open ==> r.handle == l.handle)
      && (l.left.Some? && l.left.value in order ==> r.left == l.left)
      && (l.open && l.right.Some? && l.right.value in order ==> r.right == l.right)
      && (Pane(l, l.selected).Some? && Pane(l, l.selected).value in order && (l.open || l.selected == Left) ==>
            r.selected == l.selected)
  {
  }

  lemma {:induction false} NoDupSize(s: seq<Id>)
    requires NoDup(s)
    ensures |set x | x in s| == |s|
  {
    if s != [] {
      var front := s[..|s| - 1];
      NoDupSize(front);
      assert (set x | x in s) == (set x | x in front) + {s[|s| - 1]};
    }
  }

  lemma {:induction false} SameSizeSubset<T>(a: set<T>, b: set<T>)
    requires a <= b && |a| == |b|
    ensures a == b
  {
    if b - a != {} {
      var x :| x in b - a;
      SubsetSize(a, b - {x});
    }
  }
}
