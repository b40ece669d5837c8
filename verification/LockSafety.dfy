/** What every run of the lock protocol keeps: conservative leases, one valid lease a lock, serialised sections. */
module LockSafety {
  import opened Names
  import opened Redis
  import opened LockProtocol
  import LeaseValue

  /** Until the server time `until`, the lock of section `t` is in Redis under `t`, and stays there that long. */
  ghost predicate Covered(s: State, t: Token, until: int)
    requires t in s.sections
  {
    s.now < until ==> s.db.HeldBy(s.sections[t].key, t) && until <= s.db.locks[s.sections[t].key].expiresAt
  }

  /** The bookkeeping of one section that all the results below rest on. */
  ghost predicate SectionInv(s: State, t: Token)
    requires t in s.sections
  {
    var c := s.sections[t];
    && c.granted <= s.db.Latest(c.key)
    && (!c.acquire.Idle? ==> c.phase.Acquiring? && c.acquire.at <= s.Clock(t))
    && (c.acquire.Replied? && c.acquire.reply > 0 ==>
          && c.acquire.reply == c.granted
          && Covered(s, t, c.acquire.at + LOCK_TTL_MS - c.skew))
    && (!c.HasLease() ==> c.renewal.Idle? && c.writes == {})
    && (c.HasLease() ==> 0 < c.granted == c.lease.fence)
    && (!c.renewal.Idle? ==> c.renewal.at <= s.Clock(t))
    && (c.phase.Running? && c.renewal.Replied? && c.renewal.reply ==>
      Covered(s, t, c.renewal.at + LOCK_TTL_MS - c.skew))
    && (c.phase.Running? ==> Covered(s, t, c.lease.validUntil - c.skew))
    && (forall w :: w in c.writes ==> LockOf(w.key) == c.key)
  }

  /** A lock in Redis belongs to the section that was issued the newest fencing token of that lock. */
  ghost predicate EntryInv(s: State, key: LockKey)
    requires key in s.db.locks
  {
    var e := s.db.locks[key];
    && e.token in s.sections
    && s.sections[e.token].key == key
    && 0 < s.sections[e.token].granted == s.db.Latest(key)
    && e.expiresAt <= s.now + LOCK_TTL_MS
  }

  ghost predicate SectionsInv(s: State) {
    forall t :: t in s.sections ==> SectionInv(s, t)
  }

  ghost predicate EntriesInv(s: State) {
    forall key :: key in s.db.locks ==> EntryInv(s, key)
  }

  /** No two sections of one lock were last issued the same fencing token. */
  ghost predicate DistinctGrants(s: State) {
    forall t, u | t in s.sections && u in s.sections && s.sections[t].key == s.sections[u].key ::
      s.sections[t].granted == s.sections[u].granted > 0 ==> t == u
  }

  ghost predicate Inv(s: State) {
    SectionsInv(s) && EntriesInv(s) && DistinctGrants(s)
  }

  /** From `s` to `s'` a live lock entry of section `u` is not lost, and no clock or counter goes back. */
  ghost predicate Spares(s: State, s': State, u: Token)
    requires u in s.sections
  {
    var key := s.sections[u].key;
    && s.now <= s'.now
    && s.db.Latest(key) <= s'.db.Latest(key)
    && (s.db.HeldBy(key, u) && s'.now < s.db.locks[key].expiresAt ==>
          s'.db.HeldBy(key, u) && s.db.locks[key].expiresAt <= s'.db.locks[key].expiresAt)
  }

  lemma SparedSection(s: State, s': State, u: Token)
    requires u in s.sections && SectionInv(s, u) && Spares(s, s', u)
    requires u in s'.sections && s'.sections[u] == s.sections[u]
    ensures SectionInv(s', u)
  {
  }

  /** Every section but `t` is as before and spared. */
  lemma OthersSpared(s: State, s': State, t: Token)
    requires SectionsInv(s) && s'.sections.Keys <= s.sections.Keys + {t}
    requires forall u :: u in s'.sections && u != t ==> s'.sections[u] == s.sections[u] && Spares(s, s', u)
    requires t in s'.sections ==> SectionInv(s', t)
    ensures SectionsInv(s')
  {
    forall u | u in s'.sections ensures SectionInv(s', u) {
      if u != t {
        SparedSection(s, s', u);
      }
    }
  }

  lemma SameGrants(s: State, s': State)
    requires DistinctGrants(s)
    requires forall u :: u in s'.sections && s'.sections[u].granted > 0 ==>
      u in s.sections && s'.sections[u].granted == s.sections[u].granted && s'.sections[u].key == s.sections[u].key
    ensures DistinctGrants(s')
  {
  }

  lemma SameEntries(s: State, s': State)
    requires EntriesInv(s) && s.now <= s'.now && s'.db.fences == s.db.fences
    requires forall key :: key in s'.db.locks ==> key in s.db.locks && s'.db.locks[key] == s.db.locks[key]
    requires forall u :: u in s.sections ==>
      u in s'.sections && s'.sections[u].granted == s.sections[u].granted && s'.sections[u].key == s.sections[u].key
    ensures EntriesInv(s')
  {
    forall key | key in s'.db.locks ensures EntryInv(s', key) {
      assert EntryInv(s, key);
    }
  }

  /** The steps that leave Redis alone and change only the local state of one section. */
  lemma LocalStep(s: State, t: Token, c: Section)
    requires Inv(s) && t in s.sections
    requires c.key == s.sections[t].key && c.granted == s.sections[t].granted
    requires SectionInv(s.With(t, c), t)
    ensures Inv(s.With(t, c))
  {
    var s' := s.With(t, c);
    OthersSpared(s, s', t);
    SameEntries(s, s');
    SameGrants(s, s');
  }

  lemma AcquireKeepsInv(s: State, t: Token)
    requires Inv(s) && Enabled(s, ExecAcquire(t))
    ensures Inv(Apply(s, ExecAcquire(t)))
  {
    var s', key := Apply(s, ExecAcquire(t)), s.sections[t].key;
    if key in s.db.locks {
      assert SectionInv(s, t);
      LocalStep(s, t, s'.sections[t]);
    } else {
      AcquiredSections(s, s', t);
      AcquiredGrants(s, s', t);
      AcquiredEntries(s, s', t);
    }
  }

  lemma AcquiredSections(s: State, s': State, t: Token)
    requires SectionsInv(s) && Enabled(s, ExecAcquire(t)) && s' == Apply(s, ExecAcquire(t))
    requires s.sections[t].key !in s.db.locks
    ensures SectionsInv(s')
  {
    assert SectionInv(s, t);
    OthersSpared(s, s', t);
  }

  lemma AcquiredGrants(s: State, s': State, t: Token)
    requires SectionsInv(s) && DistinctGrants(s) && Enabled(s, ExecAcquire(t)) && s' == Apply(s, ExecAcquire(t))
    requires s.sections[t].key !in s.db.locks
    ensures DistinctGrants(s')
  {
    forall u | u in s.sections && s.sections[u].key == s.sections[t].key
      ensures s.sections[u].granted < s'.sections[t].granted
    {
      assert SectionInv(s, u);
    }
  }

  lemma AcquiredEntries(s: State, s': State, t: Token)
    requires EntriesInv(s) && Enabled(s, ExecAcquire(t)) && s' == Apply(s, ExecAcquire(t))
    requires s.sections[t].key !in s.db.locks
    ensures EntriesInv(s')
  {
    forall key | key in s'.db.locks ensures EntryInv(s', key) {
      assert key != s.sections[t].key ==> EntryInv(s, key);
    }
  }

  lemma ExtendKeepsInv(s: State, t: Token)
    requires Inv(s) && Enabled(s, ExecExtend(t))
    ensures Inv(Apply(s, ExecExtend(t)))
  {
    var s' := Apply(s, ExecExtend(t));
    ExtendedSections(s, s', t);
    ExtendedEntries(s, s', t);
    SameGrants(s, s');
  }

  lemma ExtendedSections(s: State, s': State, t: Token)
    requires SectionsInv(s) && EntriesInv(s) && Enabled(s, ExecExtend(t)) && s' == Apply(s, ExecExtend(t))
    ensures SectionsInv(s')
  {
    ExtendedSection(s, s', t);
    OthersSpared(s, s', t);
  }

  lemma ExtendedSection(s: State, s': State, t: Token)
    requires SectionsInv(s) && EntriesInv(s) && Enabled(s, ExecExtend(t)) && s' == Apply(s, ExecExtend(t))
    ensures SectionInv(s', t)
  {
    var key := s.sections[t].key;
    assert SectionInv(s, t);
    assert key in s.db.locks ==> EntryInv(s, key);
  }

  lemma ExtendedEntries(s: State, s': State, t: Token)
    requires EntriesInv(s) && Enabled(s, ExecExtend(t)) && s' == Apply(s, ExecExtend(t))
    ensures EntriesInv(s')
  {
    forall key | key in s'.db.locks ensures EntryInv(s', key) {
      assert EntryInv(s, key);
    }
  }

  lemma WriteKeepsInv(s: State, t: Token, w: Write)
    requires Inv(s) && Enabled(s, ExecWrite(t, w))
    ensures Inv(Apply(s, ExecWrite(t, w)))
  {
    var s' := Apply(s, ExecWrite(t, w));
    WrittenSections(s, s', t, w);
    SameEntries(s, s');
    SameGrants(s, s');
  }

  lemma WrittenSections(s: State, s': State, t: Token, w: Write)
    requires SectionsInv(s) && Enabled(s, ExecWrite(t, w)) && s' == Apply(s, ExecWrite(t, w))
    ensures SectionsInv(s')
  {
    assert SectionInv(s, t);
    OthersSpared(s, s', t);
  }

  lemma ReleaseKeepsInv(s: State, t: Token)
    requires Inv(s) && Enabled(s, ExecRelease(t))
    ensures Inv(Apply(s, ExecRelease(t)))
  {
    var s' := Apply(s, ExecRelease(t));
    ReleasedSections(s, s', t);
    SameEntries(s, s');
    SameGrants(s, s');
  }

  lemma ReleasedSections(s: State, s': State, t: Token)
    requires SectionsInv(s) && Enabled(s, ExecRelease(t)) && s' == Apply(s, ExecRelease(t))
    ensures SectionsInv(s')
  {
    assert SectionInv(s, t);
    OthersSpared(s, s', t);
  }

  lemma ServeKeepsInv(s: State, e: Event)
    requires Inv(s) && Enabled(s, e) && Served(e)
    ensures Inv(Apply(s, e))
  {
    assert SectionInv(s, e.t);
    match e
    case ExecAcquire(t) => AcquireKeepsInv(s, t);
    case ExecExtend(t) => ExtendKeepsInv(s, t);
    case ExecWrite(t, w) => WriteKeepsInv(s, t, w);
    case ExecRelease(t) => ReleaseKeepsInv(s, t);
    case ExecRead(t, _) => LocalStep(s, t, s.sections[t]);
  }

  lemma AmbientKeepsInv(s: State, e: Event)
    requires Inv(s) && Enabled(s, e) && Ambient(e)
    ensures Inv(Apply(s, e))
  {
    var s' := Apply(s, e);
    AmbientKeepsSections(s, e);
    SameEntries(s, s');
    SameGrants(s, s');
  }

  lemma AmbientKeepsSections(s: State, e: Event)
    requires SectionsInv(s) && Enabled(s, e) && Ambient(e)
    ensures SectionsInv(Apply(s, e))
  {
    var s' := Apply(s, e);
    forall u | u in s'.sections ensures SectionInv(s', u) {
      if u in s.sections {
        SparedSection(s, s', u);
      }
    }
  }

  lemma ProceedKeepsInv(s: State, e: Event)
    requires Inv(s) && Enabled(s, e) && !Ambient(e) && !Served(e)
    ensures Inv(Apply(s, e))
  {
    ProceedKeepsSectionInv(s, e);
    LocalStep(s, e.t, Apply(s, e).sections[e.t]);
  }

  lemma ProceedKeepsSectionInv(s: State, e: Event)
    requires Enabled(s, e) && !Ambient(e) && !Served(e) && SectionInv(s, e.t)
    ensures SectionInv(Apply(s, e), e.t)
    ensures Apply(s, e).sections[e.t].granted == s.sections[e.t].granted
    ensures Apply(s, e).sections[e.t].key == s.sections[e.t].key
  {
  }

  lemma ApplyKeepsInv(s: State, e: Event)
    requires Inv(s) && Enabled(s, e)
    ensures Inv(Apply(s, e))
  {
    if Ambient(e) {
      AmbientKeepsInv(s, e);
    } else if Served(e) {
      ServeKeepsInv(s, e);
    } else {
      ProceedKeepsInv(s, e);
    }
  }

  lemma {:induction false} RunKeepsInv(states: seq<State>, events: seq<Event>, i: nat)
    requires Run(states, events) && i < |states|
    ensures Inv(states[i])
  {
    if i > 0 {
      RunKeepsInv(states, events, i - 1);
      ApplyKeepsInv(states[i - 1], events[i - 1]);
    }
  }

  /**
    Conservative lease: as long as a running section finds its lease valid by its own clock, its lock is in Redis
    under its token, it expires there no earlier than the section believes, and the section's fencing token is
    the newest one of that lock.
   */
  lemma ValidLeaseIsConservative(states: seq<State>, events: seq<Event>, i: nat, t: Token)
    requires Run(states, events) && i < |states| && t in states[i].sections
    requires states[i].sections[t].phase.Running? && states[i].sections[t].lease.IsValid(states[i].Clock(t))
    ensures states[i].db.HeldBy(states[i].sections[t].key, t)
    ensures states[i].sections[t].lease.validUntil - states[i].sections[t].skew
         <= states[i].db.locks[states[i].sections[t].key].expiresAt
    ensures states[i].sections[t].lease.fence == states[i].db.Latest(states[i].sections[t].key)
  {
    RunKeepsInv(states, events, i);
    assert SectionInv(states[i], t) && EntryInv(states[i], states[i].sections[t].key);
  }

  /** At no instant do two running sections of one lock both hold a valid lease. */
  lemma AtMostOneValidLease(states: seq<State>, events: seq<Event>, i: nat, t: Token, u: Token)
    requires Run(states, events) && i < |states| && t in states[i].sections && u in states[i].sections
    requires states[i].sections[t].key == states[i].sections[u].key
    requires states[i].sections[t].phase.Running? && states[i].sections[t].lease.IsValid(states[i].Clock(t))
    requires states[i].sections[u].phase.Running? && states[i].sections[u].lease.IsValid(states[i].Clock(u))
    ensures t == u
  {
    ValidLeaseIsConservative(states, events, i, t);
    ValidLeaseIsConservative(states, events, i, u);
  }

  /** Event `i` is the execution of an acquire of section `t` that took the lock. */
  ghost predicate Granted(states: seq<State>, events: seq<Event>, i: nat, t: Token)
    requires Run(states, events) && i < |events|
  {
    events[i] == ExecAcquire(t) && states[i].sections[t].key !in states[i].db.locks
  }

  /** Event `j` is the check on which `withRedisLock` returns the result of its section instead of throwing. */
  ghost predicate ReturnsNormally(states: seq<State>, events: seq<Event>, j: nat, t: Token)
    requires Run(states, events) && j < |events|
  {
    events[j] == FinalCheck(t) && states[j].sections[t].lease.IsValid(states[j].Clock(t))
  }

  /** The section that `t` ran: from the acquire it owes its lock to, to the check it passed. */
  ghost predicate Succeeds(states: seq<State>, events: seq<Event>, i: nat, j: nat, t: Token)
    requires Run(states, events)
  {
    && i < j < |events|
    && Granted(states, events, i, t)
    && ReturnsNormally(states, events, j, t)
    && forall k :: i < k < j ==> !Granted(states, events, k, t)
  }

  /**
    Fail-closed serialisation: when `withRedisLock` returns normally, no acquire of the same lock took effect
    between the section's own acquire and its final check.
   */
  lemma NoAcquireInside(states: seq<State>, events: seq<Event>, i: nat, j: nat, t: Token, k: nat, u: Token)
    requires Run(states, events) && Succeeds(states, events, i, j, t)
    requires i < k < j && Granted(states, events, k, u)
    ensures states[k].sections[u].key != states[i].sections[t].key
  {
    var key := states[i].sections[t].key;
    SectionPersists(states, events, i + 1, j, t);
    ValidLeaseIsConservative(states, events, j, t);
    RunKeepsInv(states, events, j);
    assert SectionInv(states[j], t);
    FencesNeverFall(states, events, i + 1, k, key);
    FencesNeverFall(states, events, k + 1, j, key);
  }

  /** Hence the successful sections of one lock never overlap. */
  lemma SuccessfulSectionsAreDisjoint(
      states: seq<State>, events: seq<Event>, i: nat, j: nat, t: Token, i': nat, j': nat, u: Token)
    requires Run(states, events) && Succeeds(states, events, i, j, t) && Succeeds(states, events, i', j', u)
    requires t != u && states[i].sections[t].key == states[i'].sections[u].key
    ensures j < i' || j' < i
  {
    if i < i' < j {
      NoAcquireInside(states, events, i, j, t, i', u);
    } else if i' < i < j' {
      NoAcquireInside(states, events, i', j', u, i, t);
    }
  }

  /** The final check lets the section return exactly with a valid lease, and loses an invalid one. */
  lemma FinalCheckDecides(s: State, t: Token)
    requires Enabled(s, FinalCheck(t))
    ensures var c := s.sections[t];
      var valid := c.lease.lost.NotLost? && s.Clock(t) < c.lease.validUntil;
      var lease := if valid || !c.lease.lost.NotLost? then c.lease else c.lease.(lost := LeaseValue.LeaseExpired);
      Apply(s, FinalCheck(t)) == s.With(t, c.(phase := Releasing(valid), lease := lease))
  {
  }

  /** A section that has returned, or is about to, has passed its final check with a valid lease. */
  lemma {:induction false} ReturnedSectionPassedItsCheck(states: seq<State>, events: seq<Event>, i: nat, t: Token)
    requires Run(states, events) && i < |states| && t in states[i].sections
    requires states[i].sections[t].phase == Releasing(true) || states[i].sections[t].phase == Ended(true)
    ensures exists j :: 0 <= j < i && ReturnsNormally(states, events, j, t)
  {
    if i > 0 {
      var s, e := states[i - 1], events[i - 1];
      if t in s.sections && s.sections[t].phase in {Releasing(true), Ended(true)} {
        ReturnedSectionPassedItsCheck(states, events, i - 1, t);
      } else {
        assert ReturnsNormally(states, events, i - 1, t);
      }
    }
  }

  lemma {:induction false} FencesNeverFall(states: seq<State>, events: seq<Event>, i: nat, j: nat, key: LockKey)
    requires Run(states, events) && i <= j < |states|
    ensures states[i].db.Latest(key) <= states[j].db.Latest(key)
    decreases j
  {
    if i < j {
      FencesNeverFall(states, events, i, j - 1, key);
    }
  }

  /** No step but a granted acquire changes what a section was granted, and none changes its lock. */
  lemma StepKeepsGrant(s: State, e: Event, t: Token)
    requires Enabled(s, e) && t in s.sections
    ensures t in Apply(s, e).sections && Apply(s, e).sections[t].key == s.sections[t].key
    ensures e != ExecAcquire(t) || s.sections[t].key in s.db.locks ==>
      Apply(s, e).sections[t].granted == s.sections[t].granted
    ensures s.sections[t].HasLease() && SectionInv(s, t) ==> Apply(s, e).sections[t].HasLease() && e != ExecAcquire(t)
  {
  }

  /** A section keeps its lock key, and its last grant until the next one. */
  lemma {:induction false} SectionPersists(states: seq<State>, events: seq<Event>, i: nat, j: nat, t: Token)
    requires Run(states, events) && i <= j < |states| && t in states[i].sections
    ensures t in states[j].sections && states[j].sections[t].key == states[i].sections[t].key
    ensures (forall k :: i <= k < j ==> !Granted(states, events, k, t)) ==>
      states[j].sections[t].granted == states[i].sections[t].granted
    decreases j
  {
    if i < j {
      SectionPersists(states, events, i, j - 1, t);
      StepKeepsGrant(states[j - 1], events[j - 1], t);
      if forall k :: i <= k < j ==> !Granted(states, events, k, t) {
        assert !Granted(states, events, j - 1, t);
      }
    }
  }
}
