/** The session manager: which sessions live, their shared order and layout, capture and restore. */
module Sessions {
  import opened Sequences
  import opened Layouts

  datatype Session = Session(alias: string, pinned: string)

  datatype SessionSet = SessionSet(entries: seq<Session>, layout: Layout<int>)

  datatype Verdict = Accepted | Refused(rule: Rule) | Stale

  /** One critical section of any client, of the reaper, of a restore or of the shutdown. */
  datatype Op =
    | Creating(id: Id, alias: string, pinned: string, minted: string)
    | Closing(id: Id)
    | Ordering(ids: seq<Id>)
    | LayingOut(layout: Layout<Id>)
    | Naming(id: Id, alias: string)
    | Reaping(activeClients: nat, windowOver: bool)
    | Arranging(stored: Layout<int>, created: seq<Option<Id>>, orderGen: nat, layoutGen: nat)
    | ShuttingDown

  const NO_ID: Id := ""
  const MAX_SET := 512

  predicate AliasByte(c: char) {
    'A' <= c <= 'Z' || 'a' <= c <= 'z' || '0' <= c <= '9' || c == '-' || c == '_'
  }

  predicate ValidAlias(s: string) { 0 < |s| <= 64 && forall i :: 0 <= i < |s| ==> AliasByte(s[i]) }

  /** An alias is of letters, digits, hyphens and underscores, one to 64 of them. */
  lemma AliasesByExample(s: string)
    ensures ValidAlias("Build-2_a") && !ValidAlias("") && !ValidAlias("a b") && !ValidAlias("a/b") && !ValidAlias("a.b")
    ensures |s| > 64 ==> !ValidAlias(s)
    ensures ValidAlias(s) ==> forall c :: c in s ==> c != ' ' && c != '/' && c != '.' && c != ':' && c <= 'z'
  {
    assert "a b"[1] == ' ' && "a/b"[1] == '/' && "a.b"[1] == '.';
  }

  predicate Held(sessions: map<Id, Session>, alias: string) {
    exists k :: k in sessions && sessions[k].alias == alias
  }

  /** The alias a new session gets: the one asked for when it is valid and free, else the minted one. */
  function Granted(sessions: map<Id, Session>, alias: string, minted: string): string {
    if !ValidAlias(alias) || Held(sessions, alias) then minted else alias
  }

  /** The alias is well formed and no other live session holds it. */
  ghost predicate MayTake(sessions: map<Id, Session>, id: Id, alias: string) {
    && ValidAlias(alias) && id in sessions
    && forall k :: k in sessions && sessions[k].alias == alias ==> k == id
  }

  /** `order` lists every live session once. */
  ghost predicate ListsLive(order: seq<Id>, sessions: map<Id, Session>) {
    NoDup(order) && forall k :: k in order <==> k in sessions
  }

  ghost predicate AliasesDiffer(sessions: map<Id, Session>) {
    forall j, k :: j in sessions && k in sessions && sessions[j].alias == sessions[k].alias ==> j == k
  }

  lemma ListSize(order: seq<Id>, sessions: map<Id, Session>)
    requires ListsLive(order, sessions)
    ensures |order| == |sessions|
  {
    NoDupSize(order);
    assert (set k | k in order) == sessions.Keys;
    assert |sessions| == |sessions.Keys|;
  }

  lemma RepeatRefutes(ids: seq<Id>, i: nat)
    requires i < |ids| && ids[i] in ids[..i]
    ensures !NoDup(ids)
  {
  }

  lemma NoDupNone()
    ensures NoDup<Id>([])
  {
  }

  /** The live entries of a list, in its order. */
  function Present(live: seq<Option<Id>>): seq<Id> {
    if live == [] then []
    else Present(live[..|live| - 1]) + (if live[|live| - 1].Some? then [live[|live| - 1].value] else [])
  }

  function Others(current: seq<Id>, first: seq<Id>): seq<Id> {
    if current == [] then []
    else
      var last := current[|current| - 1];
      Others(current[..|current| - 1], first) + (if last in first then [] else [last])
  }

  /** Each entry a different session. */
  predicate Separate(live: seq<Option<Id>>) {
    forall i, j :: 0 <= i < j < |live| && live[i].Some? ==> live[i] != live[j]
  }

  lemma {:induction false} PresentIsSeparate(live: seq<Option<Id>>)
    requires Separate(live)
    ensures NoDup(Present(live))
    ensures forall k :: k in Present(live) <==> Some(k) in live
  {
    hide NoDup;
    if live != [] {
      var front, last := live[..|live| - 1], live[|live| - 1];
      PresentIsSeparate(front);
      assert live == front + [last];
      if last.Some? {
        assert last !in front;
        NoDupAppend(Present(front), last.value);
      } else {
        assert Present(front) + [] == Present(front);
      }
    } else {
      NoDupNone();
    }
  }

  lemma {:induction false} OthersKeepOrder(current: seq<Id>, first: seq<Id>)
    requires NoDup(current)
    ensures NoDup(Others(current, first))
    ensures forall k :: k in Others(current, first) <==> k in current && k !in first
  {
    hide NoDup;
    if current != [] {
      var front, last := current[..|current| - 1], current[|current| - 1];
      NoDupFront(current);
      OthersKeepOrder(front, first);
      assert current == front + [last];
      NoDupAppend(Others(front, first), last);
      assert Others(front, first) + [] == Others(front, first);
    } else {
      NoDupNone();
    }
  }

  /** The restored order is a permutation of the live sessions: the restored ones, then the rest. */
  lemma RestoredOrderListsLive(live: seq<Option<Id>>, current: seq<Id>, sessions: map<Id, Session>)
    requires Separate(live) && ListsLive(current, sessions)
    requires forall k :: Some(k) in live ==> k in sessions
    ensures ListsLive(Present(live) + Others(current, Present(live)), sessions)
  {
    hide NoDup, Present, Others;
    PresentIsSeparate(live);
    OthersKeepOrder(current, Present(live));
    NoDupConcat(Present(live), Others(current, Present(live)));
  }

  lemma {:induction false} OthersOfAbsent(order: seq<Id>, id: Id)
    requires id !in order
    ensures Others(order, [id]) == order
  {
    if order != [] {
      var front, last := order[..|order| - 1], order[|order| - 1];
      assert order == front + [last];
      OthersOfAbsent(front, id);
    }
  }

  /** Closing the gap that a removed session leaves. */
  lemma {:induction false} OthersSplit(before: seq<Id>, id: Id, after: seq<Id>)
    requires id !in before && id !in after
    ensures Others(before + [id] + after, [id]) == before + after
    decreases |after|
  {
    if after == [] {
      assert (before + [id] + after)[..|before|] == before && before + after == before;
      OthersOfAbsent(before, id);
    } else {
      var front, last := after[..|after| - 1], after[|after| - 1];
      assert (before + [id] + after)[..|before| + |after|] == before + [id] + front;
      assert after == front + [last];
      OthersSplit(before, id, front);
    }
  }

  method RestoredOrder(live: seq<Option<Id>>, current: seq<Id>) returns (order: seq<Id>)
    requires Separate(live) && NoDup(current)
    ensures order == Present(live) + Others(current, Present(live))
  {
    order := [];
    for i := 0 to |live|
      invariant order == Present(live[..i])
    {
      assert live[..i + 1][..i] == live[..i];
      if live[i].Some? { order := order + [live[i].value]; }
    }
    assert live[..|live|] == live;
    ghost var first := order;
    for i := 0 to |current|
      invariant order == first + Others(current[..i], first)
    {
      assert current[..i + 1][..i] == current[..i];
      OthersKeepOrder(current[..i], first);
      assert current[i] !in current[..i];
      if current[i] !in order { order := order + [current[i]]; }
    }
    assert current[..|current|] == current;
  }

  /** The ids of a list, no id standing for an entry that is not live. */
  function LiveIDs(live: seq<Option<Id>>): (ids: seq<Id>)
    ensures |ids| == |live| && forall i :: 0 <= i < |ids| ==> ids[i] == if live[i].Some? then live[i].value else NO_ID
  {
    seq(|live|, i requires 0 <= i < |live| => if live[i].Some? then live[i].value else NO_ID)
  }

  /** The sessions a capture keeps: not exited cleanly, the first `MAX_SET` of them. */
  function Kept(order: seq<Id>, cleanExit: seq<bool>): (kept: seq<Id>)
    requires |cleanExit| == |order|
    ensures |kept| <= MAX_SET
  {
    if order == [] then []
    else
      var n := |order| - 1;
      var front := Kept(order[..n], cleanExit[..n]);
      if !cleanExit[n] && |front| < MAX_SET then front + [order[n]] else front
  }

  lemma {:induction false} KeptAreListed(order: seq<Id>, cleanExit: seq<bool>)
    requires |cleanExit| == |order| && NoDup(order)
    ensures NoDup(Kept(order, cleanExit))
    ensures forall k :: k in Kept(order, cleanExit) ==> k in order
  {
    hide NoDup;
    if order != [] {
      var n := |order| - 1;
      NoDupFront(order);
      KeptAreListed(order[..n], cleanExit[..n]);
      assert order == order[..n] + [order[n]];
      NoDupAppend(Kept(order[..n], cleanExit[..n]), order[n]);
    } else {
      NoDupNone();
    }
  }

  lemma {:induction false} NothingDropped(order: seq<Id>, cleanExit: seq<bool>)
    requires |cleanExit| == |order| <= MAX_SET
    requires forall i :: 0 <= i < |cleanExit| ==> !cleanExit[i]
    ensures Kept(order, cleanExit) == order
  {
    if order != [] {
      NothingDropped(order[..|order| - 1], cleanExit[..|order| - 1]);
    }
  }

  function EntriesOf(ids: seq<Id>, sessions: map<Id, Session>): (r: seq<Session>)
    requires forall i :: 0 <= i < |ids| ==> ids[i] in sessions
    ensures |r| == |ids| && forall i :: 0 <= i < |r| ==> r[i] == sessions[ids[i]]
  {
    seq(|ids|, i requires 0 <= i < |ids| => sessions[ids[i]])
  }

  /** A set a host may store and hand back; an entry without an alias gets a minted one. */
  ghost predicate Parses(set_: SessionSet) {
    && |set_.entries| <= MAX_SET
    && (forall i :: 0 <= i < |set_.entries| ==> set_.entries[i].alias == "" || ValidAlias(set_.entries[i].alias))
    && (forall i, j :: 0 <= i < j < |set_.entries| && set_.entries[i].alias != "" ==> set_.entries[i].alias != set_.entries[j].alias)
    && Invalid(set_.layout, |set_.entries|).None?
  }

  /** The selected pane shows a session that is still listed. */
  predicate SelectionStays(l: Layout<Id>, order: seq<Id>) {
    && (l.open || l.selected == Left)
    && Pane(l, l.selected).Some? && Pane(l, l.selected).value in order
  }

  function Captured(order: seq<Id>, sessions: map<Id, Session>, layout: Layout<Id>, cleanExit: seq<bool>): SessionSet
    requires |cleanExit| == |order| && forall k :: k in Kept(order, cleanExit) ==> k in sessions
  {
    var kept := Kept(order, cleanExit);
    SessionSet(EntriesOf(kept, sessions), NormalizeSetLayout(IndexLayout(layout, kept), |kept|))
  }

  /** A stored set whose layout shows something and, with no entry, is the default. */
  ghost predicate Settled(set_: SessionSet) {
    Parses(set_) && Presentable(set_.layout, |set_.entries|) && (set_.entries == [] ==> set_.layout == DefaultLayout())
  }

  lemma ParsesLayout(stored: SessionSet)
    requires Parses(stored)
    ensures Invalid(stored.layout, |stored.entries|).None?
  {}

  function Named(s: Session, minted: string): Session { if s.alias == "" then s.(alias := minted) else s }

  /** The entries as they are re-created, each with an alias. */
  function NamedEntries(entries: seq<Session>, minted: seq<string>): (r: seq<Session>)
    requires |minted| == |entries|
    ensures |r| == |entries| && forall i :: 0 <= i < |r| ==> r[i] == Named(entries[i], minted[i])
  {
    seq(|entries|, i requires 0 <= i < |entries| => Named(entries[i], minted[i]))
  }

  function Filled(plan: seq<Option<Session>>, minted: seq<string>): (r: seq<Option<Session>>)
    requires |minted| == |plan|
    ensures |r| == |plan|
    ensures forall i :: 0 <= i < |r| ==> r[i] == if plan[i].Some? then Some(Named(plan[i].value, minted[i])) else None
  {
    seq(|plan|, i requires 0 <= i < |plan| => if plan[i].Some? then Some(Named(plan[i].value, minted[i])) else None)
  }

  lemma SettledParts(stored: SessionSet, minted: seq<string>)
    requires Parses(stored) && |minted| == |stored.entries| && Spare(minted, Planned(stored.entries))
    ensures Invalid(stored.layout, |stored.entries|).None?
    ensures Filled(Planned(stored.entries), minted) == Planned(NamedEntries(stored.entries, minted))
    ensures AllDiffer(Filled(Planned(stored.entries), minted))
    ensures Settled(stored) ==> Presentable(stored.layout, |stored.entries|)
    ensures Settled(stored) ==> Settled(stored.(entries := NamedEntries(stored.entries, minted)))
  {
    hide Invalid, Presentable;
  }

  /** A captured set always parses. */
  lemma CapturedIsSettled(order: seq<Id>, sessions: map<Id, Session>, layout: Layout<Id>, cleanExit: seq<bool>)
    requires ListsLive(order, sessions) && AliasesDiffer(sessions) && |cleanExit| == |order|
    requires forall k :: k in sessions ==> ValidAlias(sessions[k].alias)
    requires InvalidShape(layout).None?
    requires forall k :: k in Kept(order, cleanExit) ==> k in sessions
    ensures Settled(Captured(order, sessions, layout, cleanExit))
  {
    var kept := Kept(order, cleanExit);
    KeptAreListed(order, cleanExit);
    var index := IndexLayout(layout, kept);
    NormalizedIsValidIff(index, |kept|);
  }

  /** Stored positions over distinct ids, shown and captured again, are the stored positions. */
  lemma ArrangementRoundTrip(stored: Layout<int>, ids: seq<Id>)
    requires NoDup(ids) && Invalid(stored, |ids|).None? && Presentable(stored, |ids|) && ids != []
    ensures NormalizePaneLayout(IdLayout(stored, ids), ids) == IdLayout(stored, ids)
    ensures NormalizeSetLayout(IndexLayout(IdLayout(stored, ids), ids), |ids|) == stored
  {}

  function AllOf(ids: seq<Id>): (r: seq<Option<Id>>)
    ensures |r| == |ids| && forall i :: 0 <= i < |r| ==> r[i] == Some(ids[i])
  {
    seq(|ids|, i requires 0 <= i < |ids| => Some(ids[i]))
  }

  lemma {:induction false} PresentAll(live: seq<Option<Id>>, ids: seq<Id>)
    requires live == AllOf(ids)
    ensures Present(live) == ids
    ensures Others(ids, ids) == []
  {
    if ids != [] {
      var front := ids[..|ids| - 1];
      assert live[..|live| - 1] == AllOf(front);
      PresentAll(AllOf(front), front);
    }
    NoOthers(ids, ids);
  }

  lemma {:induction false} NoOthers(current: seq<Id>, first: seq<Id>)
    requires forall k :: k in current ==> k in first
    ensures Others(current, first) == []
  {
    if current != [] { NoOthers(current[..|current| - 1], first); }
  }

  /** `created` with the sessions that are gone left out. */
  function LiveIn(sessions: map<Id, Session>, created: seq<Option<Id>>): (live: seq<Option<Id>>)
    ensures |live| == |created|
    ensures forall i :: 0 <= i < |live| ==>
      live[i] == if created[i].Some? && created[i].value in sessions then created[i] else None
  {
    seq(|created|, i requires 0 <= i < |created| =>
      if created[i].Some? && created[i].value in sessions then created[i] else None)
  }

  predicate AnyLive(live: seq<Option<Id>>) { exists i :: 0 <= i < |live| && live[i].Some? }

  lemma LiveIsSeparate(sessions: map<Id, Session>, created: seq<Option<Id>>)
    requires Separate(created)
    ensures Separate(LiveIn(sessions, created))
    ensures forall k :: Some(k) in LiveIn(sessions, created) ==> k in sessions
  {
  }

  /** Two positions of one set never name one session. */
  lemma StoredIsRepairable(stored: Layout<int>, live: seq<Option<Id>>, order: seq<Id>)
    requires Separate(live) && Invalid(stored, |live|).None? && NO_ID !in order
    ensures Repairable(IdLayout(stored, LiveIDs(live)), order)
  {
  }

  function Planned(entries: seq<Session>): (r: seq<Option<Session>>)
    ensures |r| == |entries| && forall i :: 0 <= i < |r| ==> r[i] == Some(entries[i])
  {
    seq(|entries|, i requires 0 <= i < |entries| => Some(entries[i]))
  }

  /** The minted aliases are well formed, differ, and none is one the host asks for. */
  ghost predicate Spare(minted: seq<string>, plan: seq<Option<Session>>) {
    && (forall i :: 0 <= i < |minted| ==> ValidAlias(minted[i]))
    && (forall i, j :: 0 <= i < j < |minted| ==> minted[i] != minted[j])
    && (forall i, j :: 0 <= i < |minted| && 0 <= j < |plan| && plan[j].Some? ==> minted[i] != plan[j].value.alias)
  }

  /** Every entry is asked for, with a valid alias of its own. */
  ghost predicate AllDiffer(plan: seq<Option<Session>>) {
    && (forall i :: 0 <= i < |plan| ==> plan[i].Some? && ValidAlias(plan[i].value.alias))
    && (forall i, j :: 0 <= i < j < |plan| ==> plan[i].value.alias != plan[j].value.alias)
  }

  ghost predicate IsCreated(created: seq<Option<Id>>, ids: seq<Id>, plan: seq<Option<Session>>, closed: bool) {
    && |created| == |ids| == |plan|
    && forall i :: 0 <= i < |created| ==> created[i] == if plan[i].Some? && !closed then Some(ids[i]) else None
  }

  ghost predicate ReCreated(sessions: map<Id, Session>, ids: seq<Id>, plan: seq<Option<Session>>) {
    && |ids| == |plan|
    && (forall k :: k in sessions <==> k in ids)
    && forall i :: 0 <= i < |ids| ==> Some(sessions[ids[i]]) == plan[i]
  }

  lemma SomeMember(order: seq<Id>)
    ensures order != [] ==> exists k :: k in order
  {
    if order != [] { assert order[0] in order; }
  }

  lemma NothingLive(order: seq<Id>, sessions: map<Id, Session>)
    requires ListsLive(order, sessions) && sessions == map[]
    ensures order == [] && ReCreated(sessions, [], [])
  {
    SomeMember(order);
  }

  lemma DistinctFrom(ids: seq<Id>, i: nat)
    requires NoDup(ids) && i < |ids|
    ensures forall j :: 0 <= j < |ids| && j != i ==> ids[j] != ids[i]
  {
  }

  lemma NotAllPlanned(plan: seq<Option<Session>>, i: nat)
    requires i < |plan| && plan[i].None?
    ensures !AllDiffer(plan)
  {
  }

  lemma StillFree(sessions: map<Id, Session>, id: Id, s: Session, alias: string)
    requires !Held(sessions, alias) && s.alias != alias
    ensures !Held(sessions[id := s], alias)
  {
  }

  /** A planned session whose alias no earlier one holds is created exactly as planned. */
  lemma ReCreatedOneMore(sessions: map<Id, Session>, ids: seq<Id>, plan: seq<Option<Session>>, i: nat, minted: string)
    requires NoDup(ids) && AllDiffer(plan) && i < |ids| == |plan| && !Held(sessions, minted)
    requires ReCreated(sessions, ids[..i], plan[..i])
    ensures Granted(sessions, plan[i].value.alias, minted) == plan[i].value.alias
    ensures ReCreated(sessions[ids[i] := plan[i].value], ids[..i + 1], plan[..i + 1])
  {}

  lemma NoAliasGetsMinted(sessions: map<Id, Session>, minted: string)
    ensures Granted(sessions, "", minted) == minted
  {}

  lemma PlannedAreSeparate(ids: seq<Id>, plan: seq<Option<Session>>, closed: bool, created: seq<Option<Id>>)
    requires NoDup(ids) && IsCreated(created, ids, plan, closed)
    ensures Separate(created)
  {
  }

  function NoneExited(n: nat): (r: seq<bool>)
    ensures |r| == n && forall i :: 0 <= i < n ==> !r[i]
  {
    seq(n, _ => false)
  }

  /** Capturing again, with every session still running, gives back `stored`. */
  ghost predicate CapturedWhole(order: seq<Id>, sessions: map<Id, Session>, layout: Layout<Id>, stored: SessionSet) {
    && (forall k :: k in Kept(order, NoneExited(|order|)) ==> k in sessions)
    && Captured(order, sessions, layout, NoneExited(|order|)) == stored
  }

  lemma RestoredCapturesBack(ids: seq<Id>, sessions: map<Id, Session>, layout: Layout<Id>, stored: SessionSet)
    requires NoDup(ids) && Settled(stored)
    requires ReCreated(sessions, ids, Planned(stored.entries))
    requires ids != [] ==> layout == IdLayout(stored.layout, ids)
    ensures CapturedWhole(ids, sessions, layout, stored)
  {
    NothingDropped(ids, NoneExited(|ids|));
    if ids != [] { ArrangementRoundTrip(stored.layout, ids); }
    assert EntriesOf(ids, sessions) == stored.entries by {
      forall i | 0 <= i < |ids| ensures sessions[ids[i]] == stored.entries[i] {
        assert Some(sessions[ids[i]]) == Planned(stored.entries)[i];
      }
    }
  }

  class SessionManager {
    var sessions: map<Id, Session>
    var order: seq<Id>
    var layout: Layout<Id>
    var orderGen: nat
    var layoutGen: nat
    var closed: bool

    constructor ()
      ensures Valid() && sessions == map[] && order == [] && layout == DefaultLayout() && !closed
      ensures orderGen == 0 && layoutGen == 0
    {
      sessions, order, layout, orderGen, layoutGen, closed := map[], [], DefaultLayout(), 0, 0, false;
    }

    /** The order lists the live sessions once each; the layout is well shaped, names only live
        sessions and shows one in the selected pane when any lives. */
    ghost predicate Valid()
      reads this
    {
      && ListsLive(order, sessions)
      && NO_ID !in sessions
      && Names(layout, order) && Presentable(layout, |order|)
      && AliasesDiffer(sessions)
      && (forall k :: k in sessions ==> ValidAlias(sessions[k].alias))
      && (closed ==> sessions == map[])
    }

    /** The second half of a create, after the process has started under `id`: `minted` is the fresh
        alias to fall back on. */
    method Create(id: Id, alias: string, pinned: string, minted: string) returns (created: Option<Session>)
      requires Valid() && id != NO_ID && id !in sessions
      requires ValidAlias(minted) && !Held(sessions, minted)
      modifies this
      ensures Valid() && closed == old(closed) && orderGen == old(orderGen) && layoutGen == old(layoutGen)
      ensures created.None? <==> closed
      ensures closed ==> sessions == old(sessions) && order == old(order) && layout == old(layout)
      ensures !closed ==>
        && created == Some(Session(Granted(old(sessions), alias, minted), pinned))
        && sessions == old(sessions)[id := created.value]
        && order == old(order) + [id]
        && layout == if old(sessions) == map[] then old(layout).(left := Some(id), selected := Left) else old(layout)
    {
      if closed { return None; }
      ListSize(order, sessions);
      var s := Session(Granted(sessions, alias, minted), pinned);
      sessions := sessions[id := s];
      order := order + [id];
      if layout.left.None? && layout.right.None? { layout := layout.(left := Some(id), selected := Left); }
      return Some(s);
    }

    /** Closing a session empties its panes; another shown session keeps its pane, and an emptied
        layout shows the first session that is left. */
    method Close(id: Id) returns (found: bool)
      requires Valid()
      modifies this
      ensures Valid() && closed == old(closed) && orderGen == old(orderGen) && layoutGen == old(layoutGen)
      ensures found == (id in old(sessions))
      ensures sessions == old(sessions) - {id}
      ensures order == Others(old(order), [id])
      ensures !found ==> layout == old(layout)
      ensures found && old(layout).left.Some? && old(layout).left != Some(id) ==> layout.left == old(layout).left
      ensures found && old(layout).right.Some? && old(layout).right != Some(id) ==> layout.right == old(layout).right
      ensures found && Pane(old(layout), old(layout).selected) != Some(id) && sessions != map[] ==>
        layout.selected == old(layout).selected
    {
      hide NormalizePaneLayout, Others, NoDup;
      OthersKeepOrder(order, [id]);
      if id !in sessions {
        OthersOfAbsent(order, id);
        return false;
      }
      sessions := sessions - {id};
      DropFromOrder(id);
      DropFromLayout(id);
      return true;
    }

    /** The panes that showed `id` are emptied and the layout repaired over the remaining order. */
    method DropFromLayout(id: Id)
      requires NoDup(order) && id !in order && Repairable(layout, order)
      modifies this`layout
      ensures Names(layout, order) && Presentable(layout, |order|)
      ensures order != [] ==>
        && layout.open == old(layout).open && (layout.open ==> layout.handle == old(layout).handle)
        && (old(layout).left.Some? && old(layout).left.value in order ==> layout.left == old(layout).left)
        && (layout.open && old(layout).right.Some? && old(layout).right.value in order ==>
              layout.right == old(layout).right)
        && (SelectionStays(old(layout), order) ==> layout.selected == old(layout).selected)
      ensures order == [] ==> layout == DefaultLayout()
    {
      var l := layout;
      if l.left == Some(id) { l := l.(left := None); }
      if l.right == Some(id) { l := l.(right := None); }
      NormalizedPanes(l, order);
      if order != [] { NormalizingKeeps(l, order); }
      layout := NormalizePaneLayout(l, order);
    }

    method DropFromOrder(id: Id)
      requires NoDup(order)
      modifies this`order
      ensures order == Others(old(order), [id])
    {
      var i := IndexOf(order, id);
      if i.Some? {
        assert order == order[..i.value] + [id] + order[i.value + 1..];
        assert id !in order[i.value + 1..] by { assert order[i.value] == id; }
        OthersSplit(order[..i.value], id, order[i.value + 1..]);
        order := order[..i.value] + order[i.value + 1..];
      } else {
        OthersOfAbsent(order, id);
      }
    }

    /** Accepted exactly when `ids` names the live set once each. */
    method SetSessionOrder(ids: seq<Id>) returns (ok: bool)
      requires Valid()
      modifies this`order, this`orderGen
      ensures Valid()
      ensures ok <==> ListsLive(ids, sessions)
      ensures order == (if ok then ids else old(order)) && orderGen == old(orderGen) + (if ok then 1 else 0)
    {
      hide NoDup;
      ok := NameLive(ids);
      if !ok { return; }
      ListSize(ids, sessions);
      ListSize(order, sessions);
      order := ids;
      orderGen := orderGen + 1;
    }

    method NameLive(ids: seq<Id>) returns (ok: bool)
      ensures ok <==> ListsLive(ids, sessions)
    {
      if |ids| != |sessions| {
        if ListsLive(ids, sessions) { ListSize(ids, sessions); }
        return false;
      }
      var seen: set<Id> := {};
      for i := 0 to |ids|
        invariant seen == set k | k in ids[..i]
        invariant NoDup(ids[..i])
        invariant forall k :: k in ids[..i] ==> k in sessions
      {
        NoDupAppend(ids[..i], ids[i]);
        assert ids[..i + 1] == ids[..i] + [ids[i]];
        if ids[i] !in sessions || ids[i] in seen {
          assert ids[i] in ids;
          if ids[i] in seen { RepeatRefutes(ids, i); }
          return false;
        }
        seen := seen + {ids[i]};
      }
      assert ids[..|ids|] == ids;
      NoDupSize(ids);
      assert |sessions| == |sessions.Keys|;
      SameSizeSubset(seen, sessions.Keys);
      return true;
    }

    /** The verdict names the first rule broken; a refusal changes nothing. */
    method SetPaneLayout(l: Layout<Id>) returns (v: Verdict)
      requires Valid()
      modifies this`layout, this`layoutGen
      ensures Valid()
      ensures v == Accepted <==>
        && InvalidShape(l).None? && Names(l, order)
        && (sessions != map[] ==> Pane(l, l.selected).Some?)
      ensures v == Stale ==> InvalidShape(l).None? && !Names(l, order)
      ensures v == Accepted ==>
        layout == l.(handle := if l.open then l.handle else 0.5) && layoutGen == old(layoutGen) + 1
      ensures v != Accepted ==> layout == old(layout) && layoutGen == old(layoutGen)
    {
      ListSize(order, sessions);
      var shape := InvalidShape(l);
      if shape.Some? { return Refused(shape.value); }
      if |sessions| > 0 && Pane(l, l.selected).None? { return Refused(NothingShown); }
      if l.left.Some? && l.left.value !in sessions { return Stale; }
      if l.right.Some? && l.right.value !in sessions { return Stale; }
      layout := if l.open then l else l.(handle := 0.5);
      layoutGen := layoutGen + 1;
      return Accepted;
    }

    /** Refused when the alias is malformed or another live session holds it. */
    method SetSessionAlias(id: Id, alias: string) returns (ok: bool)
      requires Valid()
      modifies this`sessions
      ensures Valid()
      ensures ok <==> MayTake(old(sessions), id, alias)
      ensures sessions == if ok then old(sessions)[id := old(sessions)[id].(alias := alias)] else old(sessions)
    {
      if !ValidAlias(alias) || id !in sessions { return false; }
      if sessions[id].alias != alias && Held(sessions, alias) { return false; }
      sessions := sessions[id := sessions[id].(alias := alias)];
      return true;
    }

    /** With no client connected and the idle window over, every session goes. */
    method MaybeReap(activeClients: nat, windowOver: bool)
      requires Valid()
      modifies this`sessions, this`order, this`layout
      ensures Valid()
      ensures activeClients == 0 && windowOver && old(sessions) != map[] ==>
        sessions == map[] && layout == DefaultLayout()
      ensures activeClients > 0 || !windowOver || old(sessions) == map[] ==>
        sessions == old(sessions) && order == old(order) && layout == old(layout)
    {
      if activeClients > 0 || |sessions| == 0 || !windowOver { return; }
      sessions, order, layout := map[], [], DefaultLayout();
    }

    method Shutdown()
      modifies this
      ensures Valid() && closed && sessions == map[] && layout == DefaultLayout()
      ensures orderGen == old(orderGen) && layoutGen == old(layoutGen)
    {
      sessions, order, layout, closed := map[], [], DefaultLayout(), true;
    }

    /** The arrangement of a restore: the order and the layout are each replaced only when a restored
        session is live and no client wrote its own since the restore began. */
    method ApplyRestored(stored: Layout<int>, created: seq<Option<Id>>, orderGen: nat, layoutGen: nat)
      requires Valid() && Separate(created) && Some(NO_ID) !in created
      requires Invalid(stored, |created|).None?
      modifies this`order, this`layout
      ensures Valid()
      ensures !AnyLive(LiveIn(sessions, created)) || this.orderGen != orderGen ==> order == old(order)
      ensures !AnyLive(LiveIn(sessions, created)) || this.layoutGen != layoutGen ==> layout == old(layout)
      ensures var live := LiveIn(sessions, created);
        AnyLive(live) && this.orderGen == orderGen ==> order == Present(live) + Others(old(order), Present(live))
      ensures var live := LiveIn(sessions, created);
        AnyLive(live) && this.layoutGen == layoutGen ==>
          layout == NormalizePaneLayout(IdLayout(stored, LiveIDs(live)), order)
    {
      hide NoDup, Present, Others, NormalizePaneLayout, Invalid, Presentable;
      var live, anyLive := LiveOf(created);
      if !anyLive { return; }
      LiveIsSeparate(sessions, created);
      if this.orderGen == orderGen {
        RestoredOrderListsLive(live, order, sessions);
        ListSize(order, sessions);
        order := RestoredOrder(live, order);
        ListSize(order, sessions);
      }
      if this.layoutGen == layoutGen {
        StoredIsRepairable(stored, live, order);
        NormalizedPanes(IdLayout(stored, LiveIDs(live)), order);
        layout := NormalizePaneLayout(IdLayout(stored, LiveIDs(live)), order);
      }
    }

    method LiveOf(created: seq<Option<Id>>) returns (live: seq<Option<Id>>, anyLive: bool)
      ensures live == LiveIn(sessions, created)
      ensures anyLive <==> AnyLive(live)
    {
      live, anyLive := [], false;
      for i := 0 to |created|
        invariant live == LiveIn(sessions, created[..i])
        invariant anyLive <==> AnyLive(live)
      {
        var id := created[i];
        ghost var was := live;
        if id.Some? && id.value in sessions {
          live := live + [id];
          assert live[i].Some?;
          anyLive := true;
        } else {
          live := live + [None];
          assert forall j :: 0 <= j < |was| ==> live[j] == was[j];
        }
        assert live == LiveIn(sessions, created[..i + 1]);
      }
      assert created[..|created|] == created;
    }

    /** A session whose process exited cleanly is left out, and so is any past the first 512. */
    method CaptureSessionSet(cleanExit: seq<bool>) returns (captured: SessionSet)
      requires Valid() && |cleanExit| == |order|
      ensures forall k :: k in Kept(order, cleanExit) ==> k in sessions
      ensures captured == Captured(order, sessions, layout, cleanExit)
      ensures Settled(captured)
    {
      KeptAreListed(order, cleanExit);
      CapturedIsSettled(order, sessions, layout, cleanExit);
      var kept := Kept(order, cleanExit);
      captured := SessionSet(EntriesOf(kept, sessions), NormalizeSetLayout(IndexLayout(layout, kept), |kept|));
    }

    /** Re-creates `stored` under the fresh ids `ids`; `plan[i]` is what the host asks for in place of
        entry `i`, None when it skips the entry or its process fails to start. */
    method RestoreSessionSet(stored: SessionSet, ids: seq<Id>, plan: seq<Option<Session>>, minted: seq<string>)
      requires Valid() && Parses(stored)
      requires |ids| == |plan| == |minted| == |stored.entries|
      requires NoDup(ids) && forall k :: k in ids ==> k != NO_ID && k !in sessions
      requires Spare(minted, plan) && forall m :: m in minted ==> !Held(sessions, m)
      modifies this
      ensures Valid() && closed == old(closed)
      ensures closed ==> sessions == map[]
      ensures forall k :: k in old(sessions) ==> k in sessions && sessions[k] == old(sessions)[k]
      ensures forall i :: 0 <= i < |ids| ==> (ids[i] in sessions <==> plan[i].Some? && !closed)
      ensures old(sessions) == map[] && !closed && plan == Planned(stored.entries) && Settled(stored) ==>
        order == ids && CapturedWhole(order, sessions, layout, stored.(entries := NamedEntries(stored.entries, minted)))
    {
      hide NoDup, Names, Presentable, AliasesDiffer, ListsLive, Held, ReCreated, AllDiffer, ValidAlias, Present, Others,
        NormalizePaneLayout, CapturedWhole, Captured, Settled, Parses, Invalid;
      ghost var perfect := sessions == map[] && !closed && plan == Planned(stored.entries) && Settled(stored);
      var orderGen, layoutGen := this.orderGen, this.layoutGen;
      assert Invalid(stored.layout, |stored.entries|).None? by { ParsesLayout(stored); }
      if perfect { SettledParts(stored, minted); }
      var created := CreatePlanned(ids, plan, minted);
      assert Separate(created) by { PlannedAreSeparate(ids, plan, closed, created); }
      ghost var was := order;
      ApplyRestored(stored.layout, created, orderGen, layoutGen);
      if perfect {
        assert created == AllOf(ids) && LiveIn(sessions, created) == created && LiveIDs(created) == ids;
        PresentAll(created, ids);
        assert ids + [] == ids;
        if ids != [] {
          assert created[0].Some?;
          ArrangementRoundTrip(stored.layout, ids);
        }
        RestoredCapturesBack(ids, sessions, layout, stored.(entries := NamedEntries(stored.entries, minted)));
      }
    }

    method CreatePlanned(ids: seq<Id>, plan: seq<Option<Session>>, minted: seq<string>)
      returns (created: seq<Option<Id>>)
      requires Valid() && |ids| == |plan| == |minted|
      requires NoDup(ids) && forall k :: k in ids ==> k != NO_ID && k !in sessions
      requires Spare(minted, plan) && forall m :: m in minted ==> !Held(sessions, m)
      modifies this
      ensures Valid() && closed == old(closed) && orderGen == old(orderGen) && layoutGen == old(layoutGen)
      ensures IsCreated(created, ids, plan, closed)
      ensures forall k :: k in old(sessions) ==> k in sessions && sessions[k] == old(sessions)[k]
      ensures forall i :: 0 <= i < |ids| ==> (ids[i] in sessions <==> created[i].Some?)
      ensures old(sessions) == map[] && !closed && AllDiffer(Filled(plan, minted)) ==> order == ids && ReCreated(sessions, ids, Filled(plan, minted))
    {
      hide NoDup, Names, Presentable, AliasesDiffer, ListsLive, Held, ReCreated, AllDiffer, ValidAlias;
      created := [];
      ghost var filled := Filled(plan, minted);
      if sessions == map[] { NothingLive(order, sessions); }
      for i := 0 to |ids|
        invariant Valid() && closed == old(closed) && orderGen == old(orderGen) && layoutGen == old(layoutGen)
        invariant IsCreated(created, ids[..i], plan[..i], closed)
        invariant forall k :: k in old(sessions) ==> k in sessions && sessions[k] == old(sessions)[k]
        invariant forall j :: 0 <= j < i ==> (ids[j] in sessions <==> created[j].Some?)
        invariant forall j :: i <= j < |ids| ==> ids[j] !in sessions
        invariant forall j :: i <= j < |ids| ==> !Held(sessions, minted[j])
        invariant old(sessions) == map[] && !closed && AllDiffer(filled) ==>
          order == ids[..i] && ReCreated(sessions, ids[..i], filled[..i])
      {
        DistinctFrom(ids, i);
        assert ids[..i + 1] == ids[..i] + [ids[i]] && plan[..i + 1] == plan[..i] + [plan[i]];
        if plan[i].Some? {
          ghost var before := sessions;
          var r := Create(ids[i], plan[i].value.alias, plan[i].value.pinned, minted[i]);
          if r.Some? {
            forall j | i + 1 <= j < |ids| ensures !Held(sessions, minted[j]) {
              StillFree(before, ids[i], r.value, minted[j]);
            }
            if old(sessions) == map[] && AllDiffer(filled) {
              NoAliasGetsMinted(before, minted[i]);
              ReCreatedOneMore(before, ids, filled, i, minted[i]);
            }
          }
          created := created + [if r.Some? then Some(ids[i]) else None];
        } else {
          created := created + [None];
          NotAllPlanned(filled, i);
        }
      }
      assert ids[..|ids|] == ids && plan[..|ids|] == plan && filled[..|ids|] == filled;
    }

    /** What the source of an operation guarantees: a drawn id or alias is new, and a restore hands
        over a layout that parsed and sessions it created itself. */
    predicate Possible(op: Op)
      reads this
    {
      match op
      case Creating(id, _, _, minted) => id != NO_ID && id !in sessions && ValidAlias(minted) && !Held(sessions, minted)
      case Arranging(stored, created, _, _) =>
        Separate(created) && Some(NO_ID) !in created && Invalid(stored, |created|).None?
      case _ => true
    }

    method Perform(op: Op)
      requires Valid() && Possible(op)
      modifies this
      ensures Valid()
      ensures old(closed) ==> closed
      ensures old(orderGen) <= orderGen && old(layoutGen) <= layoutGen
    {
      match op {
        case Creating(id, alias, pinned, minted) => var _ := Create(id, alias, pinned, minted);
        case Closing(id) => var _ := Close(id);
        case Ordering(ids) => var _ := SetSessionOrder(ids);
        case LayingOut(l) => var _ := SetPaneLayout(l);
        case Naming(id, alias) => var _ := SetSessionAlias(id, alias);
        case Reaping(clients, over) => MaybeReap(clients, over);
        case Arranging(stored, created, og, lg) => ApplyRestored(stored, created, og, lg);
        case ShuttingDown => Shutdown();
      }
    }

    /** Every interleaving keeps the order a permutation of the live sessions and the layout fit to
        show, and once shut down the manager stays empty. */
    method Run(ops: seq<Op>)
      requires Valid()
      modifies this
      ensures Valid()
      ensures old(closed) ==> sessions == map[] && order == []
    {
      for i := 0 to |ops|
        invariant Valid() && (old(closed) ==> closed)
      {
        if Possible(ops[i]) { Perform(ops[i]); }
      }
      if closed { NothingLive(order, sessions); }
    }
  }
}
