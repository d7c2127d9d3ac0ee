/** The parser's flat parameter array against the text it was fed: semicolon-separated groups of
    colon-separated values, as in section 5.4.2 of ECMA-48. */
module Params {
  import opened Sequences

  const MAX_PARAMS: nat := 32
  const MAX_CSI_ARG_VALUE: nat := 65535
  const MAX_GROUP: nat := 8

  type Groups = gs: seq<seq<nat>> | |gs| > 0 witness [[]]

  // ---- the text ----

  predicate ParamChar(c: char) { '0' <= c <= '9' || c == ';' || c == ':' }

  /** The pieces of `t` between the separators. */
  function Split(t: string, sep: char): (parts: seq<string>)
    ensures |parts| > 0
  {
    if t == "" then [""]
    else
      var rest, c := Split(t[..|t| - 1], sep), t[|t| - 1];
      if c == sep then rest + [""] else rest[|rest| - 1 := rest[|rest| - 1] + [c]]
  }

  function Decimal(digits: string): nat {
    if digits == "" then 0
    else
      var c := digits[|digits| - 1];
      10 * Decimal(digits[..|digits| - 1]) + if '0' <= c <= '9' then (c - '0') as nat else 0
  }

  function Value(digits: string): (v: nat)
    ensures v <= MAX_CSI_ARG_VALUE
  {
    Min(Decimal(digits), MAX_CSI_ARG_VALUE)
  }

  function Values(parts: seq<string>): (r: seq<nat>)
    ensures |r| == |parts| && forall i :: 0 <= i < |r| ==> r[i] == Value(parts[i])
  {
    seq(|parts|, i requires 0 <= i < |parts| => Value(parts[i]))
  }

  /** The values a parameter text denotes: one group per semicolon-separated piece, one value per
      colon-separated piece of that, an empty piece being 0. */
  function GroupsOf(t: string): (gs: Groups)
    ensures forall i :: 0 <= i < |gs| ==> |gs[i]| > 0
  {
    var parts := Split(t, ';');
    seq(|parts|, i requires 0 <= i < |parts| => Values(Split(parts[i], ':')))
  }

  /** The first `room` values of `gs`, in their groups. */
  function Keep(gs: seq<seq<nat>>, room: nat): seq<seq<nat>> {
    if gs == [] || room == 0 then []
    else if |gs[0]| >= room then [gs[0][..room]]
    else [gs[0]] + Keep(gs[1..], room - |gs[0]|)
  }

  function PushLast(gs: Groups, v: nat): Groups { gs[|gs| - 1 := gs[|gs| - 1] + [v]] }

  function DropLast(gs: Groups): Groups
    requires gs[|gs| - 1] != []
  {
    gs[|gs| - 1 := gs[|gs| - 1][..|gs[|gs| - 1]| - 1]]
  }

  function LastValue(gs: Groups): nat
    requires gs[|gs| - 1] != []
  {
    gs[|gs| - 1][|gs[|gs| - 1]| - 1]
  }

  lemma SplitStep(t: string, c: char, sep: char)
    ensures var parts := Split(t, sep);
      Split(t + [c], sep) == if c == sep then parts + [""] else parts[|parts| - 1 := parts[|parts| - 1] + [c]]
  {}

  function LastPiece(t: string, sep: char): string { Split(t, sep)[|Split(t, sep)| - 1] }

  /** What a change of the last piece does to the values denoted. */
  lemma LastGroup(t: string, u: string, last: string)
    requires Split(u, ';') == Split(t, ';')[|Split(t, ';')| - 1 := last]
    ensures GroupsOf(t)[|GroupsOf(t)| - 1] == Values(Split(LastPiece(t, ';'), ':'))
    ensures GroupsOf(u) == GroupsOf(t)[|GroupsOf(t)| - 1 := Values(Split(last, ':'))]
  {}

  lemma ColonValues(last: string)
    ensures Values(Split(last + [':'], ':')) == Values(Split(last, ':')) + [0]
  {}

  lemma DigitValues(last: string, c: char)
    requires '0' <= c <= '9'
    ensures var vals := Values(Split(last, ':'));
      Values(Split(last + [c], ':'))
        == vals[..|vals| - 1] + [Min(10 * vals[|vals| - 1] + (c - '0') as nat, MAX_CSI_ARG_VALUE)]
  {
    SplitStep(last, c, ':');
    var digits := LastPiece(last, ':');
    hide Split;
    assert (digits + [c])[..|digits|] == digits;
    assert Value(digits + [c]) == Min(10 * Value(digits) + (c - '0') as nat, MAX_CSI_ARG_VALUE);
  }

  lemma NextGroup(t: string)
    ensures GroupsOf(t + ";") == GroupsOf(t) + [[0]]
  {
    SplitStep(t, ';', ';');
    assert t + ";" == t + [';'];
    assert Split("", ':') == [""] && Values([""]) == [0];
    hide Split, Values;
    assert GroupsOf(t + ";") == GroupsOf(t) + [Values(Split("", ':'))];
  }

  lemma NextValue(t: string)
    ensures GroupsOf(t + [':']) == PushLast(GroupsOf(t), 0)
  {
    hide Split, Values, GroupsOf;
    SplitStep(t, ':', ';');
    ColonValues(LastPiece(t, ';'));
    LastGroup(t, t + [':'], LastPiece(t, ';') + [':']);
  }

  lemma NextDigit(t: string, c: char)
    requires '0' <= c <= '9'
    ensures GroupsOf(t + [c]) ==
      PushLast(DropLast(GroupsOf(t)), Min(10 * LastValue(GroupsOf(t)) + (c - '0') as nat, MAX_CSI_ARG_VALUE))
  {
    hide Split, Values, GroupsOf;
    SplitStep(t, c, ';');
    DigitValues(LastPiece(t, ';'), c);
    LastGroup(t, t + [c], LastPiece(t, ';') + [c]);
  }

  /** What one more character does to the values denoted. */
  lemma GroupsStep(t: string, c: char)
    requires ParamChar(c)
    ensures c == ';' ==> GroupsOf(t + [c]) == GroupsOf(t) + [[0]]
    ensures c == ':' ==> GroupsOf(t + [c]) == PushLast(GroupsOf(t), 0)
    ensures c != ';' && c != ':' ==>
      GroupsOf(t + [c]) == PushLast(DropLast(GroupsOf(t)), Min(10 * LastValue(GroupsOf(t)) + (c - '0') as nat, MAX_CSI_ARG_VALUE))
  {
    hide GroupsOf;
    if c == ';' {
      NextGroup(t);
    } else if c == ':' {
      NextValue(t);
    } else {
      NextDigit(t, c);
    }
  }

  // ---- keeping the first values ----

  lemma {:induction false} KeepAll(gs: seq<seq<nat>>, room: nat)
    requires |Flatten(gs)| <= room && (gs != [] ==> gs[|gs| - 1] != [])
    ensures Keep(gs, room) == gs
    decreases |gs|
  {
    if gs != [] {
      LastFits(gs);
      if |gs[0]| < room {
        KeepAll(gs[1..], room - |gs[0]|);
      } else {
        assert gs == [gs[0]];
        FlattenSingleton(gs[0]);
        assert gs[0][..room] == gs[0];
      }
    }
  }

  lemma LastFits(gs: seq<seq<nat>>)
    requires gs != [] && gs[|gs| - 1] != []
    ensures |gs| > 1 ==> |Flatten(gs[1..])| > 0
    decreases |gs|
  {
    if |gs| > 1 { LastFits(gs[1..]); }
  }

  lemma {:induction false} KeepPushLast(gs: Groups, v: nat, room: nat)
    requires |Flatten(gs)| >= room
    ensures Keep(PushLast(gs, v), room) == Keep(gs, room)
    decreases |gs|
  {
    if |gs| == 1 {
      assert Flatten(gs) == gs[0] + Flatten<nat>([]);
      assert (gs[0] + [v])[..room] == gs[0][..room];
    } else if |gs[0]| < room {
      assert PushLast(gs, v)[1..] == PushLast(gs[1..], v);
      KeepPushLast(gs[1..], v, room - |gs[0]|);
    }
  }

  lemma {:induction false} KeepAppend(gs: seq<seq<nat>>, more: seq<seq<nat>>, room: nat)
    requires |Flatten(gs)| >= room
    ensures Keep(gs + more, room) == Keep(gs, room)
    decreases |gs|
  {
    if gs != [] && |gs[0]| < room {
      assert (gs + more)[1..] == gs[1..] + more;
      KeepAppend(gs[1..], more, room - |gs[0]|);
    }
  }

  lemma {:induction false} KeepLength(gs: seq<seq<nat>>, room: nat)
    ensures |Flatten(Keep(gs, room))| == Min(|Flatten(gs)|, room)
    decreases |gs|
  {
    if gs != [] && room > 0 {
      if |gs[0]| >= room {
        FlattenSingleton(gs[0][..room]);
      } else {
        KeepLength(gs[1..], room - |gs[0]|);
        assert ([gs[0]] + Keep(gs[1..], room - |gs[0]|))[1..] == Keep(gs[1..], room - |gs[0]|);
      }
    }
  }

  lemma FlattenPushLast(gs: Groups, v: nat)
    ensures Flatten(PushLast(gs, v)) == Flatten(gs) + [v]
  {
    var front, last := gs[..|gs| - 1], gs[|gs| - 1];
    assert gs == front + [last] && PushLast(gs, v) == front + [last + [v]];
    FlattenAppend(front, last);
    FlattenAppend(front, last + [v]);
  }

  /** What the array holds of values `d` while more text may follow. */
  function Held(d: Groups): seq<seq<nat>> {
    if |Flatten(d)| < MAX_PARAMS then d else Keep(d, MAX_PARAMS)
  }

  /** Where group `g` starts in the flat array. */
  function Start(gs: seq<seq<nat>>, g: nat): nat
    requires g <= |gs|
  {
    |Flatten(gs[..g])|
  }

  lemma StartNext(gs: seq<seq<nat>>, g: nat)
    requires g < |gs|
    ensures Start(gs, g + 1) == Start(gs, g) + |gs[g]|
  {
    assert gs[..g + 1] == gs[..g] + [gs[g]];
    FlattenAppend(gs[..g], gs[g]);
  }

  lemma {:induction false} StartMonotone(gs: seq<seq<nat>>, g: nat, h: nat)
    requires g <= h <= |gs|
    ensures Start(gs, g) <= Start(gs, h)
    ensures g < h && gs[g] != [] ==> Start(gs, g) < Start(gs, h)
    decreases h - g
  {
    if g < h {
      StartNext(gs, g);
      StartMonotone(gs, g + 1, h);
    }
  }

  lemma {:induction false} CountBelowStart(gs: seq<seq<nat>>, g: nat)
    requires g <= |gs| && forall i :: 0 <= i < g ==> gs[i] != []
    ensures g <= Start(gs, g)
  {
    if g > 0 {
      StartNext(gs, g - 1);
      CountBelowStart(gs, g - 1);
    }
  }

  // ---- the machine ----

  class ParserState {
    const params: array<nat>
    const groupLen: array<nat>
    var numParams: nat
    var numGroups: nat
    var curParam: nat
    var ignoring: bool

    /** The groups that `params` and `groupLen` encode. */
    ghost var groups: seq<seq<nat>>

    ghost predicate Valid() reads this, params, groupLen {
      && params.Length == groupLen.Length == MAX_PARAMS && params != groupLen
      && 0 < numGroups == |groups| && numParams <= MAX_PARAMS && curParam <= MAX_CSI_ARG_VALUE
      && Flatten(groups) == params[..numParams]
      && (forall g :: 0 <= g < |groups| ==> Start(groups, g) < MAX_PARAMS && groupLen[Start(groups, g)] == |groups[g]|)
      && (forall g :: 0 <= g < |groups| - 1 ==> groups[g] != [])
    }

    /** The machine has read the parameter text `t`. */
    ghost predicate Tracks(t: string) reads this {
      var all := GroupsOf(t);
      && groups == Held(DropLast(all))
      && (numParams < MAX_PARAMS ==> !ignoring && curParam == LastValue(all))
    }

    constructor ()
      ensures Valid() && Tracks("") && fresh(params) && fresh(groupLen)
    {
      params := new nat[MAX_PARAMS](i => 0);
      groupLen := new nat[MAX_PARAMS](i => 0);
      numParams, numGroups, curParam, ignoring := 0, 1, 0, false;
      groups := [[]];
      new;
      Cleared();
    }

    method ParserClear()
      requires params.Length == groupLen.Length == MAX_PARAMS && params != groupLen
      modifies this, groupLen
      ensures Valid() && Tracks("")
    {
      numParams, numGroups, curParam, ignoring := 0, 1, 0, false;
      groupLen[0] := 0;
      groups := [[]];
      Cleared();
    }

    method GroupStartIdx(g: nat) returns (idx: nat)
      requires Valid() && g < numGroups
      ensures idx == Start(groups, g)
    {
      idx := 0;
      for k := 0 to g
        invariant idx == Start(groups, k)
      {
        StartNext(groups, k);
        idx := idx + groupLen[idx];
      }
    }

    /** Stores the current value in the last group. */
    method Store()
      requires Valid() && numParams < MAX_PARAMS
      modifies this`numParams, this`groups, params, groupLen
      ensures Valid() && groups == PushLast(old(groups), curParam) && numParams == old(numParams) + 1
    {
      var gStart := GroupStartIdx(numGroups - 1);
      params[numParams] := curParam;
      numParams := numParams + 1;
      groupLen[gStart] := groupLen[gStart] + 1;
      FlattenPushLast(groups, curParam);
      groups := PushLast(groups, curParam);
      forall g | 0 <= g < |groups|
        ensures Start(groups, g) < MAX_PARAMS && groupLen[Start(groups, g)] == |groups[g]|
      {
        assert groups[..g] == old(groups)[..g];
        if g < |groups| - 1 { StartMonotone(old(groups), g, |groups| - 1); }
      }
    }

    lemma AllFilled()
      requires Valid() && groups[|groups| - 1] != []
      ensures numGroups <= numParams
    {
      assert groups[..|groups|] == groups;
      CountBelowStart(groups, |groups|);
    }

    /** Starts an empty group after the last value. */
    method OpenGroup()
      requires Valid() && groups[|groups| - 1] != [] && numParams < MAX_PARAMS
      modifies this`numGroups, this`groups, groupLen
      ensures Valid() && groups == old(groups) + [[]]
    {
      ghost var before := groups;
      groupLen[numParams] := 0;
      numGroups := numGroups + 1;
      FlattenAppend(groups, []);
      groups := groups + [[]];
      assert groups[..|before|] == before;
      forall g | 0 <= g < |groups|
        ensures Start(groups, g) < MAX_PARAMS && groupLen[Start(groups, g)] == |groups[g]|
      {
        if g < |before| {
          assert groups[..g] == before[..g] && before[..|before|] == before;
          StartMonotone(before, g, |before|);
        }
      }
    }

    method PushParam(newGroup: bool)
      requires Valid()
      modifies this`numParams, this`numGroups, this`curParam, this`ignoring, this`groups, params, groupLen
      ensures Valid()
      ensures old(numParams) >= MAX_PARAMS ==> ignoring && groups == old(groups) && numParams == old(numParams)
      ensures old(numParams) < MAX_PARAMS ==>
        && ignoring == old(ignoring) && curParam == 0 && numParams == old(numParams) + 1
        && var pushed := PushLast(old(groups), old(curParam));
           groups == if newGroup && numParams < MAX_PARAMS then pushed + [[]] else pushed
    {
      if numParams >= MAX_PARAMS {
        ignoring := true;
        return;
      }
      Store();
      curParam := 0;
      if newGroup {
        AllFilled();
        if numGroups < MAX_PARAMS && numParams < MAX_PARAMS {
          OpenGroup();
        }
      }
    }

    /** A digit or a semicolon. */
    method HandleParam(c: char)
      requires Valid() && ('0' <= c <= '9' || c == ';')
      modifies this`numParams, this`numGroups, this`curParam, this`ignoring, this`groups, params, groupLen
      ensures Valid()
      ensures forall t :: old(Tracks(t)) ==> Tracks(t + [c])
    {
      hide GroupsOf, Held, DropLast, LastValue, PushLast, Start;
      ghost var before, n := groups, numParams;
      if ignoring {
        forall t | old(Tracks(t)) ensures Tracks(t + [c]) { FullStaysFull(t, c, groups); }
        return;
      }
      if c == ';' {
        PushParam(true);
        forall t | old(Tracks(t)) ensures Tracks(t + [c]) {
          if n < MAX_PARAMS { NewGroupTracks(t, before); } else { FullStaysFull(t, c, groups); }
        }
      } else {
        curParam := Min(curParam * 10 + (c - '0') as nat, MAX_CSI_ARG_VALUE);
        forall t | old(Tracks(t)) ensures Tracks(t + [c]) { DigitTracks(t, c); }
      }
    }

    /** A colon. */
    method HandleSubparam()
      requires Valid()
      modifies this`numParams, this`numGroups, this`curParam, this`ignoring, this`groups, params, groupLen
      ensures Valid()
      ensures forall t :: old(Tracks(t)) ==> Tracks(t + [':'])
    {
      hide GroupsOf, Held, DropLast, LastValue, PushLast, Start;
      ghost var before, n := groups, numParams;
      if !ignoring {
        PushParam(false);
      }
      forall t | old(Tracks(t)) ensures Tracks(t + [':']) {
        if n < MAX_PARAMS { NewValueTracks(t, before); } else { FullStaysFull(t, ':', groups); }
      }
    }

    /** The final byte arrived: what is held is the first MAX_PARAMS values of the text. */
    method FinalizeParams()
      requires Valid()
      modifies this`numParams, this`groups, params, groupLen
      ensures Valid()
      ensures forall t :: old(Tracks(t)) ==> groups == Keep(GroupsOf(t), MAX_PARAMS)
    {
      ghost var before, n := groups, numParams;
      if !ignoring && numParams < MAX_PARAMS {
        Store();
      }
      forall t | old(Tracks(t)) ensures groups == Keep(GroupsOf(t), MAX_PARAMS) {
        if n < MAX_PARAMS { FinalTracks(t, before); } else { FullIsFinal(t, before); }
      }
    }

    /** Group `i`, at most its first MAX_GROUP values. */
    method ParamGroup(i: nat) returns (g: seq<nat>)
      requires Valid()
      ensures g == if i < numGroups then groups[i][..Min(|groups[i]|, MAX_GROUP)] else []
    {
      if i >= numGroups {
        return [];
      }
      var startIdx := 0;
      for k := 0 to i
        invariant startIdx == Start(groups, k)
      {
        StartNext(groups, k);
        if startIdx >= MAX_PARAMS {
          return [];
        }
        startIdx := startIdx + groupLen[startIdx];
      }
      if startIdx >= MAX_PARAMS {
        return [];
      }
      GroupInArray(i);
      var length := groupLen[startIdx];
      if length == 0 {
        return [];
      }
      length := Min(length, Min(MAX_GROUP, MAX_PARAMS - startIdx));
      g := [];
      for j := 0 to length
        invariant g == groups[i][..j]
      {
        g := g + [params[startIdx + j]];
      }
    }

    /** The values of a group lie where its start says. */
    lemma GroupInArray(i: nat)
      requires Valid() && i < |groups|
      ensures Start(groups, i) + |groups[i]| <= numParams
      ensures forall j :: 0 <= j < |groups[i]| ==> params[Start(groups, i) + j] == groups[i][j]
    {
      SliceOfFlatten(groups, i);
    }
  }

  lemma SliceOfFlatten(gs: seq<seq<nat>>, i: nat)
    requires i < |gs|
    ensures Start(gs, i) + |gs[i]| <= |Flatten(gs)|
    ensures forall j :: 0 <= j < |gs[i]| ==> Flatten(gs)[Start(gs, i) + j] == gs[i][j]
  {
    assert gs == gs[..i] + ([gs[i]] + gs[i + 1..]);
    FlattenConcat(gs[..i], [gs[i]] + gs[i + 1..]);
    assert ([gs[i]] + gs[i + 1..])[1..] == gs[i + 1..];
  }

  // ---- one character of text, one call ----

  lemma DropThenPush(gs: Groups)
    requires gs[|gs| - 1] != []
    ensures PushLast(DropLast(gs), LastValue(gs)) == gs
    ensures |Flatten(gs)| == |Flatten(DropLast(gs))| + 1
  {
    var last := gs[|gs| - 1];
    assert last[..|last| - 1] + [last[|last| - 1]] == last;
    FlattenPushLast(DropLast(gs), LastValue(gs));
  }

  lemma HeldShort(d: Groups)
    requires |Flatten(Held(d))| < MAX_PARAMS
    ensures Held(d) == d
  {
    KeepLength(d, MAX_PARAMS);
  }

  lemma PushThenDrop(gs: Groups, v: nat)
    ensures DropLast(PushLast(gs, v)) == gs && LastValue(PushLast(gs, v)) == v
  {}

  /** Once MAX_PARAMS values are held, more text changes nothing. */
  lemma FullStaysFull(t: string, c: char, held: seq<seq<nat>>)
    requires ParamChar(c) && held == Held(DropLast(GroupsOf(t))) && |Flatten(held)| >= MAX_PARAMS
    ensures held == Held(DropLast(GroupsOf(t + [c])))
  {
    var all := GroupsOf(t);
    var d := DropLast(all);
    GroupsStep(t, c);
    DropThenPush(all);
    KeepPushLast(d, LastValue(all), MAX_PARAMS);
    if c == ';' {
      var all' := GroupsOf(t + [c]);
      assert DropLast(all') == all + [[]];
      KeepAppend(all, [[]], MAX_PARAMS);
      FlattenAppend(all, []);
    } else if c == ':' {
      PushThenDrop(all, 0);
    } else {
      PushThenDrop(d, Min(10 * LastValue(all) + (c - '0') as nat, MAX_CSI_ARG_VALUE));
    }
  }

  lemma NewGroupTracks(t: string, before: seq<seq<nat>>)
    requires before == Held(DropLast(GroupsOf(t))) && |Flatten(before)| < MAX_PARAMS
    ensures var all := GroupsOf(t + [';']);
            && LastValue(all) == 0 && before != [] && PushLast(before, LastValue(GroupsOf(t))) == GroupsOf(t)
            && Held(DropLast(all)) == if |Flatten(before)| + 1 < MAX_PARAMS then GroupsOf(t) + [[]] else GroupsOf(t)
  {
    var all := GroupsOf(t);
    HeldShort(DropLast(all));
    GroupsStep(t, ';');
    DropThenPush(all);
    assert DropLast(all + [[0]]) == all + [[]];
    FlattenAppend(all, []);
    if |Flatten(all)| == MAX_PARAMS {
      KeepAppend(all, [[]], MAX_PARAMS);
      KeepAll(all, MAX_PARAMS);
    }
  }

  lemma NewValueTracks(t: string, before: seq<seq<nat>>)
    requires before == Held(DropLast(GroupsOf(t))) && |Flatten(before)| < MAX_PARAMS
    ensures Held(DropLast(GroupsOf(t + [':']))) == GroupsOf(t) && LastValue(GroupsOf(t + [':'])) == 0
    ensures before != [] && PushLast(before, LastValue(GroupsOf(t))) == GroupsOf(t)
  {
    var all := GroupsOf(t);
    HeldShort(DropLast(all));
    GroupsStep(t, ':');
    DropThenPush(all);
    PushThenDrop(all, 0);
    if |Flatten(all)| == MAX_PARAMS { KeepAll(all, MAX_PARAMS); }
  }

  lemma DigitTracks(t: string, c: char)
    requires '0' <= c <= '9'
    ensures DropLast(GroupsOf(t + [c])) == DropLast(GroupsOf(t))
    ensures LastValue(GroupsOf(t + [c])) == Min(10 * LastValue(GroupsOf(t)) + (c - '0') as nat, MAX_CSI_ARG_VALUE)
  {
    GroupsStep(t, c);
    PushThenDrop(DropLast(GroupsOf(t)), Min(10 * LastValue(GroupsOf(t)) + (c - '0') as nat, MAX_CSI_ARG_VALUE));
  }

  lemma FinalTracks(t: string, before: seq<seq<nat>>)
    requires before == Held(DropLast(GroupsOf(t))) && |Flatten(before)| < MAX_PARAMS
    ensures before != [] && PushLast(before, LastValue(GroupsOf(t))) == Keep(GroupsOf(t), MAX_PARAMS)
  {
    HeldShort(DropLast(GroupsOf(t)));
    DropThenPush(GroupsOf(t));
    KeepAll(GroupsOf(t), MAX_PARAMS);
  }

  lemma FullIsFinal(t: string, before: seq<seq<nat>>)
    requires before == Held(DropLast(GroupsOf(t))) && |Flatten(before)| >= MAX_PARAMS
    ensures before == Keep(GroupsOf(t), MAX_PARAMS)
  {
    DropThenPush(GroupsOf(t));
    KeepPushLast(DropLast(GroupsOf(t)), LastValue(GroupsOf(t)), MAX_PARAMS);
  }

  lemma Cleared()
    ensures GroupsOf("") == [[0]] && DropLast([[0]]) == [[]] && LastValue([[0]]) == 0 && Flatten<nat>([[]]) == []
    ensures Start([[]], 0) == 0
  {
    assert Split("", ';') == [""] && Split("", ':') == [""];
    assert Values([""]) == [0];
    var one: seq<seq<nat>> := [[]];
    assert one[..0] == [];
    FlattenSingleton<nat>([]);
  }
}
