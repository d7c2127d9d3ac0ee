/** The OSC 7501 record set: which records a terminal holds and which one its status shows. */
module ProgramStatus {
  import opened Sequences

  datatype State = Idle | Working | Done | Blocked | Error

  /** `touched` is the number of the report that last wrote the record. */
  datatype Record = Record(state: State, kind: string, app: string, progress: int, touched: nat)

  datatype Report = Clear | Write(state: State, kind: string, app: string, progress: int)

  datatype Change = Reported(id: string, report: Report, number: nat) | Prompt | Exit | Reset

  datatype Shown = Shown(id: string, state: State, kind: string)

  type Records = map<string, Record>

  /** `number` numbers the newest report; `occurrence` the newest one that changed what is shown. */
  datatype Status = Status(records: Records, shown: Option<Shown>, number: nat, occurrence: nat,
                           reported: bool, exited: bool)

  const MAX_RECORDS := 64

  predicate Unfinished(r: Record) { r.state == Working || r.state == Blocked }

  /** `k` is `id` or below it; everything is below the root. */
  predicate InSubtree(id: string, k: string) { id == "" || k == id || id + "/" <= k }

  /** The ids below one are those that go on from it after a slash. */
  lemma SubtreeIff(id: string, k: string)
    requires id != ""
    ensures InSubtree(id, k) <==> k == id || exists rest: string :: k == id + "/" + rest
    ensures InSubtree("", k)
  {
    if id + "/" <= k { assert k == id + "/" + k[|id| + 1..]; }
  }

  function Finished(records: Records): Records {
    map k | k in records && !Unfinished(records[k]) :: records[k]
  }

  function Cleared(records: Records, id: string): Records {
    map k | k in records && !InSubtree(id, k) :: records[k]
  }

  /** No two records were last written by one report. */
  ghost predicate Distinct(records: Records) {
    forall i, j :: i in records && j in records && records[i].touched == records[j].touched ==> i == j
  }

  ghost predicate IsOldest(records: Records, id: string) {
    id in records && forall k :: k in records ==> records[id].touched <= records[k].touched
  }

  predicate IsBlocked(records: Records, id: string) { id in records && records[id].state == Blocked }

  ghost predicate IsNewestBlocked(records: Records, id: string) {
    IsBlocked(records, id) && forall k :: IsBlocked(records, k) ==> records[k].touched <= records[id].touched
  }

  lemma {:induction false} HasOldest(records: Records)
    requires records != map[]
    ensures exists id :: IsOldest(records, id)
    decreases |records|
  {
    var k :| k in records;
    var rest := records - {k};
    if rest == map[] {
      assert records.Keys == {k} by {
        forall j | j in records ensures j == k { assert j in rest || j == k; }
      }
      assert IsOldest(records, k);
    } else {
      assert |rest| < |records| by { assert rest.Keys == records.Keys - {k}; assert |rest.Keys| == |records.Keys| - 1; }
      HasOldest(rest);
      var id :| IsOldest(rest, id);
      var oldest := if records[k].touched < records[id].touched then k else id;
      forall j | j in records ensures records[oldest].touched <= records[j].touched {
        assert j == k || j in rest;
      }
      assert IsOldest(records, oldest);
    }
  }

  lemma {:induction false} HasNewestBlocked(records: Records, id: string)
    requires IsBlocked(records, id)
    ensures exists b :: IsNewestBlocked(records, b)
    decreases |records|
  {
    var rest := records - {id};
    assert |rest| < |records| by { assert rest.Keys == records.Keys - {id}; assert |rest.Keys| == |records.Keys| - 1; }
    if other :| IsBlocked(rest, other) {
      HasNewestBlocked(rest, other);
      var b :| IsNewestBlocked(rest, b);
      forall k | IsBlocked(records, k) && k != id ensures records[k].touched <= records[b].touched {
        assert IsBlocked(rest, k);
      }
      assert IsNewestBlocked(records, if records[id].touched < records[b].touched then b else id);
    } else {
      forall k | IsBlocked(records, k) ensures k == id { assert !IsBlocked(rest, k); }
      assert IsNewestBlocked(records, id);
    }
  }

  ghost function Oldest(records: Records): (id: string)
    requires records != map[]
    ensures IsOldest(records, id)
  {
    HasOldest(records);
    var id :| IsOldest(records, id);
    id
  }

  /** The record the status shows: a blocked root, else the newest blocked record, else the root. */
  ghost function Fold(records: Records): (id: Option<string>)
    ensures id.Some? ==> id.value in records
  {
    if IsBlocked(records, "") then Some("")
    else if b :| IsBlocked(records, b) then
      HasNewestBlocked(records, b);
      var newest :| IsNewestBlocked(records, newest);
      Some(newest)
    else if "" in records then Some("") else None
  }

  function ShownAs(records: Records, id: Option<string>): Option<Shown>
    requires id.Some? ==> id.value in records
  {
    if id.None? then None else Some(Shown(id.value, records[id.value].state, records[id.value].kind))
  }

  ghost function View(records: Records): Option<Shown> { ShownAs(records, Fold(records)) }

  ghost function Stored(records: Records, id: string, rec: Record): Records {
    (if id !in records && |records| >= MAX_RECORDS then records - {Oldest(records)} else records)[id := rec]
  }

  function Stamped(w: Report, number: nat): Record
    requires w.Write?
  {
    Record(w.state, w.kind, w.app, w.progress, number)
  }

  /** The records after `c`, before the removal that an exited process forces. */
  ghost function Written(records: Records, c: Change): Records {
    match c
    case Reported(id, Clear, _) => Cleared(records, id)
    case Reported(id, w, number) => Stored(records, id, Stamped(w, number))
    case Prompt => Finished(records)
    case Exit => records
    case Reset => map[]
  }

  /** The report created a record, changed one's state or kind, or cleared. */
  predicate Changes(records: Records, c: Change) {
    c.Reported? && (
      c.report.Clear? || c.id !in records
      || records[c.id].state != c.report.state || records[c.id].kind != c.report.kind)
  }

  ghost function Applied(s: Status, c: Change): Status {
    var exited := s.exited || c.Exit?;
    var written := Written(s.records, c);
    var records := if exited then Finished(written) else written;
    Status(records, View(records),
           if c.Reported? then c.number else s.number,
           if Changes(s.records, c) && View(records) != s.shown then c.number else s.occurrence,
           c.Reported? || (s.reported && !c.Reset?),
           exited)
  }

  /** The conditions that hold of the records alone. */
  ghost predicate Sound(records: Records, number: nat) {
    && |records| <= MAX_RECORDS
    && Distinct(records)
    && forall k :: k in records ==> records[k].touched <= number
  }

  ghost predicate Inv(s: Status) {
    && Sound(s.records, s.number)
    && s.occurrence <= s.number
    && s.shown == View(s.records)
    && (s.exited ==> forall k :: k in s.records ==> !Unfinished(s.records[k]))
  }

  lemma Fewer(a: Records, b: Records)
    requires a.Keys <= b.Keys
    ensures |a| <= |b|
  {
    SubsetSize(a.Keys, b.Keys);
    assert |a| == |a.Keys| && |b| == |b.Keys|;
  }

  lemma StoredFits(records: Records, id: string, rec: Record)
    requires |records| <= MAX_RECORDS
    ensures |Stored(records, id, rec)| <= MAX_RECORDS
    ensures |records| == MAX_RECORDS ==> |Stored(records, id, rec)| == MAX_RECORDS
  {}

  /** A report's number is past every number either channel has used (Screen.NextStatusSeq). */
  predicate Fresh(s: Status, c: Change) { c.Reported? ==> s.number < c.number }

  lemma FinishedSound(records: Records, number: nat)
    requires Sound(records, number)
    ensures Sound(Finished(records), number)
    ensures forall k :: k in Finished(records) ==> !Unfinished(Finished(records)[k])
  {
    Fewer(Finished(records), records);
  }

  lemma WrittenSound(s: Status, c: Change)
    requires Sound(s.records, s.number) && Fresh(s, c)
    ensures Sound(Written(s.records, c), if c.Reported? then c.number else s.number)
  {
    if c.Reported? && c.report.Write? {
      StoredFits(s.records, c.id, Stamped(c.report, c.number));
    } else if c.Reported? {
      Fewer(Cleared(s.records, c.id), s.records);
    } else if c.Prompt? {
      FinishedSound(s.records, s.number);
    }
  }

  lemma InvStep(s: Status, c: Change)
    requires Inv(s) && Fresh(s, c)
    ensures Inv(Applied(s, c))
    ensures s.number <= Applied(s, c).number && s.occurrence <= Applied(s, c).occurrence
    ensures s.exited ==> Applied(s, c).exited
  {
    hide Fold, Written, Sound;
    WrittenSound(s, c);
    FinishedSound(Written(s.records, c), if c.Reported? then c.number else s.number);
  }

  ghost function AfterAll(s: Status, changes: seq<Change>): Status {
    if changes == [] then s else Applied(AfterAll(s, changes[..|changes| - 1]), changes[|changes| - 1])
  }

  /** Every report in the run carries a number past the ones before it. */
  ghost predicate FreshRun(s: Status, changes: seq<Change>) {
    forall i :: 0 <= i < |changes| ==> Fresh(AfterAll(s, changes[..i]), changes[i])
  }

  const START := Status(map[], None, 0, 0, false, false)

  lemma StartInv()
    ensures Inv(START)
  {
  }

  /** Over every run: the bound, distinct numbers, the shown record, and monotone counters. */
  lemma {:induction false} InvRun(changes: seq<Change>)
    requires FreshRun(START, changes)
    ensures Inv(AfterAll(START, changes))
  {
    if changes == [] {
      StartInv();
    } else {
      var front := changes[..|changes| - 1];
      forall i | 0 <= i < |front| ensures Fresh(AfterAll(START, front[..i]), front[i]) {
        assert front[..i] == changes[..i];
      }
      InvRun(front);
      InvStep(AfterAll(START, front), changes[|changes| - 1]);
    }
  }

  /** Once the process has exited, no later change leaves a working or blocked record, so the status
      never shows one again. */
  lemma {:induction false} NothingUnfinishedAfterExit(changes: seq<Change>, i: nat)
    requires FreshRun(START, changes) && i < |changes| && changes[i] == Exit
    ensures var s := AfterAll(START, changes);
      && (forall k :: k in s.records ==> !Unfinished(s.records[k]))
      && (s.shown.Some? ==> s.shown.value.state !in {Working, Blocked})
  {
    InvRun(changes);
    StaysExited(changes, i);
  }

  lemma {:induction false} StaysExited(changes: seq<Change>, i: nat)
    requires i < |changes| && changes[i] == Exit
    ensures AfterAll(START, changes).exited
  {
    if i < |changes| - 1 { StaysExited(changes[..|changes| - 1], i); }
  }

  /** The status is blocked exactly when some record is, and then it shows the root or the record
      reported last among the blocked ones. */
  lemma ShowsWhoWaits(s: Status)
    requires Inv(s)
    ensures (exists k :: IsBlocked(s.records, k)) <==> s.shown.Some? && s.shown.value.state == Blocked
    ensures s.shown.Some? && s.shown.value.id != "" ==>
      && !IsBlocked(s.records, "")
      && IsNewestBlocked(s.records, s.shown.value.id)
  {}

  /** `occurrence` moves only for a report that changed a record's state or kind, or cleared. */
  lemma OnlyChangesOccur(s: Status, c: Change)
    requires Inv(s) && Fresh(s, c)
    ensures Applied(s, c).occurrence != s.occurrence <==>
      c.Reported? && Changes(s.records, c) && Applied(s, c).shown != s.shown
    ensures Applied(s, c).occurrence != s.occurrence ==> Applied(s, c).occurrence == Applied(s, c).number
  {
  }

  /** `last` is when each id was last reported, in a run of writes alone. */
  ghost predicate KeepsTheNewest(records: Records, last: map<string, nat>) {
    && (forall k :: k in records ==> k in last && last[k] == records[k].touched)
    && (forall k :: k in last && k !in records ==> |records| == MAX_RECORDS)
    && (forall k, j :: k in last && k !in records && j in records ==> last[k] < records[j].touched)
  }

  lemma StoredKeepsTheNewest(records: Records, id: string, rec: Record, last: map<string, nat>)
    requires |records| <= MAX_RECORDS && Distinct(records) && KeepsTheNewest(records, last)
    requires forall k :: k in last ==> last[k] < rec.touched
    ensures KeepsTheNewest(Stored(records, id, rec), last[id := rec.touched])
  {}

  ghost predicate OnlyWrites(changes: seq<Change>) {
    forall i :: 0 <= i < |changes| ==> changes[i].Reported? && changes[i].report.Write?
  }

  /** When each id was last reported. */
  function LastReported(changes: seq<Change>): map<string, nat>
    requires OnlyWrites(changes)
  {
    if changes == [] then map[]
    else LastReported(changes[..|changes| - 1])[changes[|changes| - 1].id := changes[|changes| - 1].number]
  }

  lemma WriteKeepsTheNewest(s: Status, c: Change, last: map<string, nat>, next: map<string, nat>)
    requires Inv(s) && !s.exited && Fresh(s, c) && c.Reported? && c.report.Write? && next == last[c.id := c.number] && KeepsTheNewest(s.records, last)
    requires forall k :: k in last ==> last[k] <= s.number
    ensures var t := Applied(s, c);
      && !t.exited && t.number == c.number >= s.number && KeepsTheNewest(t.records, next)
      && forall k :: k in next ==> next[k] <= t.number
  {
    hide Fold, Oldest, KeepsTheNewest, Changes;
    StoredKeepsTheNewest(s.records, c.id, Stamped(c.report, c.number), last);
  }

  /** Eviction is least-recently-reported: after any run of reports, an id that is missing was last
      reported before every one of the 64 records that remain. */
  lemma {:induction false} EvictionKeepsTheNewest(changes: seq<Change>)
    requires FreshRun(START, changes) && OnlyWrites(changes)
    ensures var s := AfterAll(START, changes);
      && !s.exited
      && KeepsTheNewest(s.records, LastReported(changes))
      && forall k :: k in LastReported(changes) ==> LastReported(changes)[k] <= s.number
  {
    hide Fold, Oldest, KeepsTheNewest, Applied, Inv, Fresh;
    if changes == [] {
      NothingReported();
    } else {
      var front, c := changes[..|changes| - 1], changes[|changes| - 1];
      forall i | 0 <= i < |front| ensures Fresh(AfterAll(START, front[..i]), front[i]) {
        assert front[..i] == changes[..i];
      }
      EvictionKeepsTheNewest(front);
      InvRun(front);
      assert c == changes[|front|] && Fresh(AfterAll(START, front), c);
      WriteKeepsTheNewest(AfterAll(START, front), c, LastReported(front), LastReported(changes));
    }
  }

  lemma NothingReported()
    ensures KeepsTheNewest(map[], map[])
  {
  }

  /** `k` is `id` or one of the ids it lies below. */
  predicate IsAncestor(k: string, id: string) { k == "" || k == id || k + "/" <= id }

  /** An ancestor of `id` no longer than `at` is `at` itself or ends at one of its slashes. */
  lemma AncestorEndsAtSlash(j: string, at: string, id: string)
    requires at <= id && IsAncestor(j, id)
    ensures |j| == |at| ==> j == at
    ensures 0 < |j| < |at| ==> at[|j|] == '/'
  {}

  class ProgramStatus {
    var records: Records
    var shown: Option<Shown>
    var number: nat
    var occurrence: nat
    var reported: bool
    var exited: bool

    constructor ()
      ensures Value() == START
    {
      records, shown, number, occurrence, reported, exited := map[], None, 0, 0, false, false;
    }

    ghost function Value(): Status
      reads this
    {
      Status(records, shown, number, occurrence, reported, exited)
    }

    /** The walk visits the records in any order; distinct numbers make the answer one and the same. */
    method Evict()
      requires records != map[] && Distinct(records)
      modifies this`records
      ensures records == old(records) - {Oldest(old(records))}
    {
      var oldest, oldestSeq, first := "", 0, true;
      var left := records.Keys;
      while left != {}
        invariant left <= records.Keys
        invariant first ==> left == records.Keys
        invariant !first ==> oldest in records && oldestSeq == records[oldest].touched
        invariant !first ==> forall k :: k in records && k !in left ==> oldestSeq <= records[k].touched
        decreases left
      {
        var id :| id in left;
        left := left - {id};
        if first || records[id].touched < oldestSeq {
          oldest, oldestSeq, first := id, records[id].touched, false;
        }
      }
      assert !first;
      assert IsOldest(records, oldest);
      records := records - {oldest};
    }

    method DropUnfinished()
      modifies this`records
      ensures records == Finished(old(records))
    {
      var left := records.Keys;
      ghost var was := records;
      while left != {}
        invariant left <= was.Keys && records.Keys <= was.Keys
        invariant forall k :: k in records ==> records[k] == was[k]
        invariant forall k :: k in was ==> (k in records <==> k in left || !Unfinished(was[k]))
        decreases left
      {
        var id :| id in left;
        left := left - {id};
        if Unfinished(records[id]) { records := records - {id}; }
      }
    }

    method ClearBelow(id: string)
      modifies this`records
      ensures records == Cleared(old(records), id)
    {
      if id == "" {
        records := map[];
        return;
      }
      ghost var was := records;
      records := records - {id};
      var left := records.Keys;
      while left != {}
        invariant left <= was.Keys - {id} && records.Keys <= was.Keys - {id}
        invariant forall k :: k in records ==> records[k] == was[k]
        invariant forall k :: k in was && k != id ==> (k in records <==> k in left || !(id + "/" <= k))
        decreases left
      {
        var k :| k in left;
        left := left - {k};
        if id + "/" <= k { records := records - {k}; }
      }
    }

    method Store(id: string, w: Report, number: nat) returns (changed: bool)
      requires w.Write? && Distinct(records)
      modifies this`records
      ensures records == Stored(old(records), id, Stamped(w, number))
      ensures changed == Changes(old(records), Reported(id, w, number))
    {
      var held := id in records;
      changed := !held || records[id].state != w.state || records[id].kind != w.kind;
      if !held && |records| >= MAX_RECORDS { Evict(); }
      records := records[id := Record(w.state, w.kind, w.app, w.progress, number)];
    }

    /** Any visiting order gives the same fold. */
    method FoldRecords() returns (id: Option<string>)
      requires Distinct(records)
      ensures id == Fold(records)
    {
      if "" in records && records[""].state == Blocked { return Some(""); }
      var blockedID: Option<string> := None;
      var left := records.Keys;
      while left != {}
        invariant left <= records.Keys
        invariant blockedID.Some? ==> IsBlocked(records, blockedID.value)
        invariant forall k :: IsBlocked(records, k) && k !in left ==>
          blockedID.Some? && records[k].touched <= records[blockedID.value].touched
        decreases left
      {
        var k :| k in left;
        left := left - {k};
        if records[k].state == Blocked && (blockedID.None? || records[k].touched > records[blockedID.value].touched) {
          blockedID := Some(k);
        }
      }
      if blockedID.Some? {
        assert IsNewestBlocked(records, blockedID.value);
        return blockedID;
      }
      return if "" in records then Some("") else None;
    }

    method Apply(c: Change)
      requires Inv(Value()) && Fresh(Value(), c)
      modifies this
      ensures Value() == Applied(old(Value()), c)
      ensures Inv(Value())
    {
      InvStep(Value(), c);
      var changed := false;
      match c {
        case Reported(id, report, n) =>
          number, reported := n, true;
          if report.Clear? {
            ClearBelow(id);
            changed := true;
          } else {
            changed := Store(id, report, n);
          }
        case Prompt => DropUnfinished();
        case Exit => exited := true;
        case Reset => records, reported := map[], false;
      }
      assert records == Written(old(records), c);
      if exited { DropUnfinished(); }
      assert records == Applied(old(Value()), c).records;
      var id := FoldRecords();
      var now := ShownAs(records, id);
      if changed && now != shown { occurrence := c.number; }
      shown := now;
    }

    /** The app of the record, else of its nearest ancestor that has one. */
    method App(id: string) returns (app: string)
      ensures app == "" ==> forall k :: k in records && IsAncestor(k, id) ==> records[k].app == ""
      ensures app != "" ==> exists k ::
        && k in records && IsAncestor(k, id) && records[k].app == app
        && forall j :: j in records && IsAncestor(j, id) && |k| < |j| ==> records[j].app == ""
    {
      var at := id;
      while true
        invariant at <= id && IsAncestor(at, id)
        invariant forall j :: j in records && IsAncestor(j, id) && |at| < |j| ==> records[j].app == ""
        decreases |at|
      {
        if at in records && records[at].app != "" { return records[at].app; }
        if at == "" { return ""; }
        var i := LastSlash(at);
        var next := at[..Max(i, 0)];
        forall j | j in records && IsAncestor(j, id) && |next| < |j| ensures records[j].app == "" {
          AncestorEndsAtSlash(j, at, id);
        }
        at := next;
      }
    }
  }

  method LastSlash(s: string) returns (i: int)
    ensures -1 <= i < |s|
    ensures i >= 0 ==> s[i] == '/'
    ensures forall j :: i < j < |s| ==> s[j] != '/'
  {
    i := |s| - 1;
    while i >= 0 && s[i] != '/'
      invariant -1 <= i < |s|
      invariant forall j :: i < j < |s| ==> s[j] != '/'
    {
      i := i - 1;
    }
  }

  /** The screen's two status channels draw their numbers from one counter. */
  class Screen {
    const program: ProgramStatus
    var notificationSeq: nat

    constructor ()
      ensures fresh(program) && program.Value() == START && notificationSeq == 0
    {
      program := new ProgramStatus();
      notificationSeq := 0;
    }

    function NextStatusSeq(): (n: nat)
      reads this, program
      ensures n > notificationSeq && n > program.number
    {
      Max(notificationSeq, program.number) + 1
    }

    method Notify()
      modifies this
      ensures notificationSeq > old(notificationSeq) && notificationSeq > program.number
    {
      notificationSeq := NextStatusSeq();
    }

    /** One accepted report; its number tells which channel spoke last. */
    method Report(id: string, report: Report)
      requires Inv(program.Value())
      modifies program
      ensures Inv(program.Value())
      ensures program.Value() == Applied(old(program.Value()), Reported(id, report, old(NextStatusSeq())))
      ensures program.number > old(program.number) && program.number > notificationSeq
    {
      program.Apply(Reported(id, report, NextStatusSeq()));
    }
  }
}
