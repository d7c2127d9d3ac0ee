/** The registry in its own form: maps updated in place, one method per critical section, each
    proved to be exactly one step of the transition system in Registry. The garbage collector and
    the cap eviction are the loops that forget ledgers. */
module ClientRegistry {
  import opened Sequences
  import opened Registry

  const MAX_RESUME_SESSIONS: nat := 1024

  /** Sixty minutes, in nanoseconds. */
  const RETENTION: nat := 3_600_000_000_000

  /** The ledgers a registered socket's session pointer names. */
  function Attached(conns: map<Sock, Conn>): (r: set<LedgerId>)
    ensures forall l :: l in r <==> exists s :: s in conns && conns[s].registered && conns[s].session == Some(l)
  {
    set s | s in conns && conns[s].registered && conns[s].session.Some? :: conns[s].session.value
  }

  /** What a pass of the garbage collector leaves. */
  function Retained(sessions: map<Key, LedgerId>, attached: set<LedgerId>, lastSeen: map<LedgerId, nat>, now: nat): map<Key, LedgerId>
    requires sessions.Values <= lastSeen.Keys
  {
    map k | k in sessions && (sessions[k] in attached || now <= lastSeen[sessions[k]] + RETENTION) :: sessions[k]
  }

  /** `k` is a rightful victim: the oldest of the unattached sessions, or of all when none is unattached. */
  ghost predicate Victim(sessions: map<Key, LedgerId>, attached: set<LedgerId>, lastSeen: map<LedgerId, nat>, k: Key)
    requires sessions.Values <= lastSeen.Keys
  {
    && k in sessions
    && (sessions[k] in attached ==> forall j :: j in sessions ==> sessions[j] in attached)
    && forall j :: j in sessions && (sessions[k] in attached || sessions[j] !in attached) ==>
         lastSeen[sessions[k]] <= lastSeen[sessions[j]]
  }

  /** The ledgers of `later` are those of `earlier` but for forgotten ones, which nobody was attached to. */
  ghost predicate ForgetsOnly(earlier: map<Key, LedgerId>, later: map<Key, LedgerId>, attached: set<LedgerId>) {
    && later.Keys <= earlier.Keys
    && forall k :: k in earlier ==> if k in later then later[k] == earlier[k] else earlier[k] !in attached
  }

  /** Forgetting is a run of Reclaim steps, one key after another. */
  ghost predicate Reclaims(st: State, keys: seq<Key>, st': State)
    decreases |keys|
  {
    if keys == [] then st' == st
    else Enabled(st, Reclaim(keys[0])) && Reclaims(Next(st, Reclaim(keys[0])), keys[1..], st')
  }

  lemma {:induction false} ForgettingIsReclaiming(st: State, later: map<Key, LedgerId>) returns (keys: seq<Key>)
    requires later.Keys <= st.sessions.Keys && forall k :: k in later ==> later[k] == st.sessions[k]
    ensures Reclaims(st, keys, st.(sessions := later))
    ensures forall k :: k in keys <==> k in st.sessions && k !in later
    decreases |st.sessions|
  {
    if k :| k in st.sessions && k !in later {
      var st1 := Next(st, Reclaim(k));
      ReclaimForgets(st, k);
      hide Next;
      var rest := ForgettingIsReclaiming(st1, later);
      assert st1.(sessions := later) == st.(sessions := later);
      keys := [k] + rest;
      assert keys[1..] == rest;
    } else {
      assert st.sessions == later;
      keys := [];
    }
  }

  lemma ReclaimForgets(st: State, k: Key)
    requires k in st.sessions
    ensures Enabled(st, Reclaim(k)) && Next(st, Reclaim(k)) == st.(sessions := st.sessions - {k})
    ensures |st.sessions - {k}| < |st.sessions|
  {
    assert st.sessions.Keys == (st.sessions - {k}).Keys + {k};
  }

  lemma ForgettingKeepsInv(st: State, later: map<Key, LedgerId>, attached: set<LedgerId>)
    requires Inv(st) && ForgetsOnly(st.sessions, later, attached)
    ensures Inv(st.(sessions := later))
    ensures "" !in st.sessions ==> "" !in later
  {}

  lemma ForgetsNothing(sessions: map<Key, LedgerId>, attached: set<LedgerId>)
    ensures ForgetsOnly(sessions, sessions, attached)
  {}

  /** What a lookup does, field by field; the ledger it makes is unattached. */
  lemma LookupFacts(st: State, s: Sock, key: Key, newId: LedgerId)
    requires Inv(st) && Enabled(st, Lookup(s, key, newId))
    ensures var created := key !in st.sessions;
            var l := if created then newId else st.sessions[key];
            var st' := Next(st, Lookup(s, key, newId));
            && Inv(st') && s in st.conns && newId !in st.ledgers && newId !in Attached(st.conns)
            && (!created ==> l in st.ledgers) && st.sessions.Values <= st.ledgers.Keys
            && st'.conns == st.conns[s := st.conns[s].(session := Some(l), phase := Swapped(st.conns[s].session, l, created))]
            && st'.sessions == st.sessions[key := l]
            && st'.ledgers == if created then st.ledgers[newId := Ledger(key, None, None, 0, [], 0)] else st.ledgers
  {
    InvLookup(st, s, key, newId);
    hide LedgerOk;
    forall t | t in st.conns ensures st.conns[t].session != Some(newId) { assert ConnOk(st, t); }
  }

  function Fence(conns: map<Sock, Conn>, s: Sock): map<Sock, Conn> {
    if s in conns then conns[s := conns[s].(fenced := true)] else conns
  }

  /** Reading the fence and taking the ledger, together: both sections are enabled and keep the invariant. */
  lemma TakeOverEnabled(st: State, s: Sock)
    requires Inv(st) && Enabled(st, ReadFence(s))
    ensures var st1, c := Next(st, ReadFence(s)), st.conns[s];
            && Inv(st1) && c.phase.next in st.ledgers
            && (!c.fenced ==> Enabled(st1, Take(s)) && Inv(Next(st1, Take(s))))
  {
    InvStep(st, ReadFence(s));
    hide Inv;
    if !st.conns[s].fenced {
      InvStep(Next(st, ReadFence(s)), Take(s));
    }
  }

  /** What they change, field by field. */
  lemma TakeOverFacts(st: State, s: Sock)
    requires Inv(st) && Enabled(st, ReadFence(s))
    ensures st.conns[s].fenced ==>
      Next(st, ReadFence(s)) == st.(conns := st.conns[s := st.conns[s].(phase := Ending)])
    ensures var c := st.conns[s];
            var led := st.ledgers[c.phase.next];
            var others := if led.owner.Some? && led.owner != Some(s) then Fence(st.conns, led.owner.value) else st.conns;
            var after := st.(conns := others[s := c.(phase := Replying(led.received, c.phase.created))],
                             ledgers := st.ledgers[c.phase.next := led.(owner := Some(s), taken := led.received)]);
            !c.fenced ==> Enabled(Next(st, ReadFence(s)), Take(s)) && Next(Next(st, ReadFence(s)), Take(s)) == after
  {
    hide Inv;
    TakeOverEnabled(st, s);
  }

  lemma GoneOwnsNothing(st: State, s: Sock)
    requires Inv(st) && s in st.conns && st.conns[s].phase.Gone?
    ensures forall l :: !Owns(st, s, l)
  {}

  /** When the entry just made for `key`, the youngest and not yet attached, outlives the cap: `kept` are the entries
      collection left. It stays while there is room, and over the cap while another unattached entry is older; it goes
      when every other is attached, though the socket that asked for it is handed its ledger all the same. */
  ghost predicate CapSpares(kept: map<Key, LedgerId>, sessions: map<Key, LedgerId>, attached: set<LedgerId>,
                            lastSeen: map<LedgerId, nat>, key: Key, now: nat)
    requires kept.Values <= lastSeen.Keys
  {
    && (|kept| <= MAX_RESUME_SESSIONS ==> key in sessions)
    && ((exists k :: k in kept && kept[k] !in attached && lastSeen[kept[k]] < now) ==> key in sessions)
    && (|kept| > MAX_RESUME_SESSIONS && (forall k :: k in kept && k != key ==> kept[k] in attached) ==> key !in sessions)
  }

  class ClientRegistry {
    var conns: map<Sock, Conn>
    var sessions: map<Key, LedgerId>
    var ledgers: map<LedgerId, Ledger>
    var lastSeen: map<LedgerId, nat>

    function View(): State reads this { State(conns, sessions, ledgers) }

    ghost predicate Valid() reads this {
      Inv(View()) && lastSeen.Keys == ledgers.Keys && "" !in sessions
    }

    constructor ()
      ensures Valid() && View() == Empty
    {
      conns, sessions, ledgers, lastSeen := map[], map[], map[], map[];
    }

    method Add(s: Sock)
      requires Valid() && Enabled(View(), Accept(s))
      modifies this
      ensures Valid() && View() == Next(old(View()), Accept(s))
    {
      InvStep(View(), Accept(s));
      conns := conns[s := Conn(None, false, true, Reading)];
    }

    method GcIdleSessions(now: nat)
      requires sessions.Values <= lastSeen.Keys
      modifies this`sessions
      ensures sessions == Retained(old(sessions), Attached(conns), lastSeen, now)
    {
      var attached := Attached(conns);
      var todo := sessions.Keys;
      while todo != {}
        invariant todo <= sessions.Keys <= old(sessions).Keys
        invariant forall k :: k in sessions ==> sessions[k] == old(sessions[k])
        invariant forall k :: k in old(sessions) - todo ==>
          (k in sessions <==> k in Retained(old(sessions), attached, lastSeen, now))
        decreases |todo|
      {
        var k :| k in todo;
        todo := todo - {k};
        if sessions[k] !in attached && now > lastSeen[sessions[k]] + RETENTION {
          sessions := sessions - {k};
        }
      }
    }

    /** Caps the table at MAX_RESUME_SESSIONS, one entry per call. */
    method EvictOldestSession()
      requires sessions.Values <= lastSeen.Keys
      modifies this`sessions
      ensures |old(sessions)| <= MAX_RESUME_SESSIONS ==> sessions == old(sessions)
      ensures |old(sessions)| > MAX_RESUME_SESSIONS ==>
        exists k :: Victim(old(sessions), Attached(conns), lastSeen, k) && sessions == old(sessions) - {k}
    {
      if |sessions| <= MAX_RESUME_SESSIONS {
        return;
      }
      var attached := Attached(conns);
      var oldest, oldestAny: Option<Key> := None, None;
      var todo := sessions.Keys;
      while todo != {}
        invariant todo <= sessions.Keys
        invariant oldestAny.Some? <==> todo != sessions.Keys
        invariant oldestAny.Some? ==> oldestAny.value in sessions
        invariant oldestAny.Some? ==> forall j :: j in sessions && j !in todo ==>
          lastSeen[sessions[oldestAny.value]] <= lastSeen[sessions[j]]
        invariant oldest.Some? ==> oldest.value in sessions && sessions[oldest.value] !in attached
        invariant oldest.Some? ==> forall j :: j in sessions && j !in todo && sessions[j] !in attached ==>
          lastSeen[sessions[oldest.value]] <= lastSeen[sessions[j]]
        invariant oldest.None? ==> forall j :: j in sessions && j !in todo ==> sessions[j] in attached
        decreases |todo|
      {
        var k :| k in todo;
        todo := todo - {k};
        if oldestAny.None? || lastSeen[sessions[k]] < lastSeen[sessions[oldestAny.value]] {
          oldestAny := Some(k);
        }
        if sessions[k] in attached {
          continue;
        }
        if oldest.None? || lastSeen[sessions[k]] < lastSeen[sessions[oldest.value]] {
          oldest := Some(k);
        }
      }
      if oldest.None? {
        oldest := oldestAny;
      }
      if oldest.Some? {
        assert Victim(sessions, attached, lastSeen, oldest.value);
        sessions := sessions - {oldest.value};
      }
    }

    /** Collects idle ledgers, then enforces the cap. The entry just made is itself unattached, so the cap
        never costs a ledger that a connected socket holds, even when every other one is attached. */
    method MakeRoom(key: Key, now: nat)
      requires sessions.Values <= lastSeen.Keys
      requires key in sessions && lastSeen[sessions[key]] == now && sessions[key] !in Attached(conns)
      modifies this`sessions
      ensures ForgetsOnly(old(sessions), sessions, Attached(conns))
      ensures |old(sessions)| <= MAX_RESUME_SESSIONS + 1 ==> |sessions| <= MAX_RESUME_SESSIONS
      ensures CapSpares(Retained(old(sessions), Attached(conns), lastSeen, now), sessions, Attached(conns), lastSeen, key, now)
    {
      GcIdleSessions(now);
      assert key in sessions && forall k :: k in sessions ==> old(sessions)[k] == sessions[k];
      assert sessions.Values <= lastSeen.Keys;
      SubsetSize(sessions.Keys, old(sessions).Keys);
      ghost var before := sessions;
      EvictOldestSession();
      assert |before| > MAX_RESUME_SESSIONS ==> |sessions.Keys| == |before.Keys| - 1;
    }

    method AddLedger(key: Key, newId: LedgerId, now: nat)
      requires sessions.Values <= lastSeen.Keys && newId !in Attached(conns) && key !in sessions
      modifies this`sessions, this`ledgers, this`lastSeen
      ensures lastSeen == old(lastSeen)[newId := now]
      ensures ledgers == old(ledgers)[newId := Ledger(key, None, None, 0, [], 0)]
      ensures ForgetsOnly(old(sessions)[key := newId], sessions, Attached(conns))
      ensures |old(sessions)| <= MAX_RESUME_SESSIONS ==> |sessions| <= MAX_RESUME_SESSIONS
      ensures CapSpares(Retained(old(sessions)[key := newId], Attached(conns), lastSeen, now), sessions, Attached(conns), lastSeen, key, now)
    {
      sessions := sessions[key := newId];
      ledgers := ledgers[newId := Ledger(key, None, None, 0, [], 0)];
      lastSeen := lastSeen[newId := now];
      assert sessions.Keys == old(sessions).Keys + {key};
      MakeRoom(key, now);
    }

    /** The registry's part of a resume: find or make the ledger, make room, move the socket's pointer. */
    method BeginResume(s: Sock, key: Key, newId: LedgerId, now: nat) returns (created: bool)
      requires Valid() && Enabled(View(), Lookup(s, key, newId)) && key != ""
      modifies this
      ensures Valid() && created == (key !in old(sessions))
      ensures var st := Next(old(View()), Lookup(s, key, newId));
              && View() == st.(sessions := sessions)
              && (!created ==> sessions == st.sessions)
              && ForgetsOnly(st.sessions, sessions, Attached(old(conns)))
              && (created ==> CapSpares(Retained(st.sessions, Attached(old(conns)), lastSeen, now), sessions, Attached(old(conns)), lastSeen, key, now))
      ensures |old(sessions)| <= MAX_RESUME_SESSIONS ==> |sessions| <= MAX_RESUME_SESSIONS
    {
      hide Inv, Victim, Next, Enabled, Attached, CapSpares, ForgetsOnly, Retained;
      ghost var st := Next(View(), Lookup(s, key, newId));
      LookupFacts(View(), s, key, newId);
      created := key !in sessions;
      var l := if created then newId else sessions[key];
      if created {
        AddLedger(key, newId, now);
      } else {
        lastSeen := lastSeen[l := now];
        ForgetsNothing(sessions, Attached(conns));
      }
      ForgettingKeepsInv(st, sessions, Attached(conns));
      conns := conns[s := conns[s].(session := Some(l), phase := Swapped(conns[s].session, l, created))];
    }

    /** Gives up `s`'s ownership of `l`; another socket's ownership stays. */
    method Relinquish(s: Sock, l: LedgerId)
      requires l in ledgers
      modifies this`ledgers
      ensures View() == ReleaseOwner(old(View()), s, l)
    {
      if ledgers[l].owner == Some(s) {
        ledgers := ledgers[l := ledgers[l].(owner := None)];
      }
    }

    method LeaveOldLedger(s: Sock)
      requires Valid() && Enabled(View(), LeaveOld(s))
      modifies this
      ensures Valid() && View() == Next(old(View()), LeaveOld(s))
    {
      InvStep(View(), LeaveOld(s));
      hide Inv;
      var p := conns[s].phase;
      if p.prev.Some? && p.prev.value != p.next {
        Relinquish(s, p.prev.value);
      }
      conns := conns[s := conns[s].(phase := Left(p.next, p.created))];
    }

    /** The ledger's part of a resume, under the ledger's own mutex from the fence's reading to the change
        of owner: a fenced socket takes nothing; otherwise the former owner is fenced and the ack is read. */
    method TakeOver(s: Sock) returns (ack: nat, displaced: Option<Sock>)
      requires Valid() && Enabled(View(), ReadFence(s))
      modifies this
      ensures Valid()
      ensures old(Fenced(View(), s)) ==> View() == Next(old(View()), ReadFence(s)) && ack == 0 && displaced == None
      ensures var l := old(conns[s].phase.next);
              !old(Fenced(View(), s)) ==>
                && Enabled(Next(old(View()), ReadFence(s)), Take(s))
                && View() == Next(Next(old(View()), ReadFence(s)), Take(s))
                && ack == old(ledgers[l].received) && Owns(View(), s, l)
                && displaced == (if old(ledgers[l].owner) == Some(s) then None else old(ledgers[l].owner))
                && (displaced.Some? ==> Fenced(View(), displaced.value))
    {
      TakeOverEnabled(View(), s);
      TakeOverFacts(View(), s);
      hide Inv, Next, Enabled;
      var p := conns[s].phase;
      if conns[s].fenced {
        conns := conns[s := conns[s].(phase := Ending)];
        return 0, None;
      }
      var led := ledgers[p.next];
      displaced := None;
      if led.owner.Some? && led.owner != Some(s) {
        displaced := led.owner;
        conns := Fence(conns, displaced.value);
      }
      ledgers := ledgers[p.next := led.(owner := Some(s), taken := led.received)];
      ack := led.received;
      conns := conns[s := conns[s].(phase := Replying(ack, p.created))];
    }

    /** Writes one frame and counts it, or refuses it whole. */
    method ApplyInput(s: Sock, data: seq<Byte>, now: nat) returns (applied: bool, written: seq<Byte>)
      requires Valid() && Enabled(View(), Apply(s, data))
      modifies this
      ensures Valid() && View() == Next(old(View()), Apply(s, data))
      ensures written == if applied then data else []
      ensures applied <==> old(conns[s].session.None? || Owns(View(), s, conns[s].session.value))
    {
      InvStep(View(), Apply(s, data));
      hide Inv;
      if conns[s].session.None? {
        return true, data;
      }
      var l := conns[s].session.value;
      if ledgers[l].owner != Some(s) {
        conns := conns[s := conns[s].(phase := Ending)];
        return false, [];
      }
      ledgers := ledgers[l := ledgers[l].(received := ledgers[l].received + |data|, log := ledgers[l].log + Stamp(s, data))];
      lastSeen := lastSeen[l := now];
      return true, data;
    }

    /** Unregisters a socket; the clock of its ledger's retention starts here. */
    method Remove(s: Sock, now: nat)
      requires Valid() && Enabled(View(), Unregister(s))
      modifies this
      ensures Valid() && View() == Next(old(View()), Unregister(s))
      ensures conns[s].session.Some? ==> lastSeen == old(lastSeen)[conns[s].session.value := now]
    {
      InvStep(View(), Unregister(s));
      assert ConnOk(View(), s);
      hide Inv;
      if conns[s].session.Some? {
        lastSeen := lastSeen[conns[s].session.value := now];
      }
      conns := conns[s := conns[s].(registered := false, phase := Leaving)];
    }

    method ReleaseLedger(s: Sock)
      requires Valid() && Enabled(View(), Release(s))
      modifies this
      ensures Valid() && View() == Next(old(View()), Release(s))
      ensures forall l :: !Owns(View(), s, l)
    {
      InvStep(View(), Release(s));
      GoneOwnsNothing(Next(View(), Release(s)), s);
      hide Inv;
      if conns[s].session.Some? {
        Relinquish(s, conns[s].session.value);
      }
      conns := conns[s := conns[s].(phase := Gone)];
    }
  }
}
