/** The lock protocol refines the fenced store, so its runs inherit what fencing guarantees. */
module LockRefinesFencing {
  import opened Names
  import opened LockProtocol
  import opened LockSafety
  import FencedStore

  ghost function Abstract(s: State): FencedStore.Store {
    FencedStore.Store(
      s.db.fences,
      map t | t in s.sections && s.sections[t].granted > 0 ::
        FencedStore.Grant(s.sections[t].key, s.sections[t].granted),
      s.db.values)
  }

  ghost function AbstractEvent(s: State, e: Event): FencedStore.Event
    requires Enabled(s, e)
  {
    match e
    case ExecAcquire(t) =>
      if s.sections[t].key in s.db.locks then FencedStore.Other else FencedStore.Issue(t, s.sections[t].key)
    case ExecRead(t, key) => FencedStore.Read(t, key)
    case ExecWrite(t, w) => FencedStore.Write(t, w.key, w.value)
    case UnlockedWrite(key, value) => FencedStore.Unlocked(key, value)
    case ExpireValue(key) => FencedStore.Expire(key)
    case _ => FencedStore.Other
  }

  /** A step that grants nothing leaves the abstract grants alone. */
  lemma SameAbstractGrants(s: State, e: Event)
    requires Enabled(s, e)
    requires e.ExecAcquire? ==> s.sections[e.t].key in s.db.locks
    ensures Abstract(Apply(s, e)).grants == Abstract(s).grants
  {
    var s' := Apply(s, e);
    forall t | t in s.sections
      ensures t in s'.sections && s'.sections[t].key == s.sections[t].key
      ensures s'.sections[t].granted == s.sections[t].granted
    {
      StepKeepsGrant(s, e, t);
    }
    assert forall t :: t in s'.sections && t !in s.sections ==> s'.sections[t].granted == 0;
  }

  lemma GrantRefines(s: State, t: Token)
    requires Enabled(s, ExecAcquire(t)) && s.sections[t].key !in s.db.locks
    ensures FencedStore.Enabled(Abstract(s), AbstractEvent(s, ExecAcquire(t)))
    ensures Abstract(Apply(s, ExecAcquire(t))) == FencedStore.Apply(Abstract(s), AbstractEvent(s, ExecAcquire(t)))
  {
    var s' := Apply(s, ExecAcquire(t));
    assert Abstract(s').grants == Abstract(s).grants[t := FencedStore.Grant(s.sections[t].key, s'.sections[t].granted)];
  }

  lemma AccessRefines(s: State, e: Event)
    requires Inv(s) && Enabled(s, e) && (e.ExecRead? || e.ExecWrite?)
    ensures FencedStore.Enabled(Abstract(s), AbstractEvent(s, e))
    ensures Abstract(Apply(s, e)) == FencedStore.Apply(Abstract(s), AbstractEvent(s, e))
  {
    assert SectionInv(s, e.t);
    SameAbstractGrants(s, e);
  }

  /** Every step of the lock protocol is a step of the fenced store. */
  lemma StepRefines(s: State, e: Event)
    requires Inv(s) && Enabled(s, e)
    ensures FencedStore.Enabled(Abstract(s), AbstractEvent(s, e))
    ensures Abstract(Apply(s, e)) == FencedStore.Apply(Abstract(s), AbstractEvent(s, e))
  {
    if e.ExecRead? || e.ExecWrite? {
      AccessRefines(s, e);
    } else if e.ExecAcquire? && s.sections[e.t].key !in s.db.locks {
      GrantRefines(s, e.t);
    } else {
      SameAbstractGrants(s, e);
    }
  }

  ghost function AbstractStates(states: seq<State>): (r: seq<FencedStore.Store>) {
    seq(|states|, i requires 0 <= i < |states| => Abstract(states[i]))
  }

  ghost function AbstractEvents(states: seq<State>, events: seq<Event>): (r: seq<FencedStore.Event>)
    requires Run(states, events)
  {
    seq(|events|, i requires 0 <= i < |events| => AbstractEvent(states[i], events[i]))
  }

  /** Every run of the lock protocol is, event by event, a run of the fenced store. */
  lemma RunRefines(states: seq<State>, events: seq<Event>)
    requires Run(states, events)
    ensures FencedStore.Run(AbstractStates(states), AbstractEvents(states, events))
  {
    forall i | 0 <= i < |events|
      ensures FencedStore.Enabled(Abstract(states[i]), AbstractEvent(states[i], events[i]))
      ensures Abstract(states[i + 1]) == FencedStore.Apply(Abstract(states[i]), AbstractEvent(states[i], events[i]))
    {
      RunKeepsInv(states, events, i);
      StepRefines(states[i], events[i]);
    }
    assert Abstract(states[0]).grants == map[];
  }

  /** The store that an executed write finds has no newer fencing token than the writer's. */
  predicate Lands(s: State, e: Event) {
    e.ExecWrite? && e.t in s.sections && s.db.Latest(s.sections[e.t].key) <= s.sections[e.t].lease.fence
  }

  lemma LandsIsAccepted(states: seq<State>, events: seq<Event>, i: nat)
    requires Run(states, events) && i < |events| && events[i].ExecWrite?
    ensures Lands(states[i], events[i]) <==>
      FencedStore.Accepted(Abstract(states[i]), AbstractEvent(states[i], events[i]))
  {
    AccessorHasGrant(states, events, i);
  }

  /**
    Fencing: after a newer section has taken the lock, no write of an older section changes anything, although
    the older one passed its lease check when it sent the write and stalled after that.
   */
  lemma StalledWriterIsFenced(states: seq<State>, events: seq<Event>, i: nat, j: nat, t: Token, u: Token, w: Write)
    requires Run(states, events) && i < j < |events|
    requires Granted(states, events, i, u) && events[j] == ExecWrite(t, w)
    requires states[i].sections[u].key == states[j].sections[t].key
    requires states[j].sections[t].lease.fence < states[i + 1].sections[u].granted
    ensures !Lands(states[j], events[j]) && states[j + 1].db == states[j].db
  {
    RunKeepsInv(states, events, i + 1);
    assert SectionInv(states[i + 1], u);
    FencesNeverFall(states, events, i + 1, j, states[j].sections[t].key);
  }

  /** The fencing counter of a lock goes up only by a grant of that lock, and then by one. */
  lemma {:induction false} CounterCountsGrants(states: seq<State>, events: seq<Event>, i: nat, j: nat, key: LockKey)
    requires Run(states, events) && i <= j < |states|
    requires forall k :: i <= k < j && events[k].ExecAcquire? && Granted(states, events, k, events[k].t) ==>
      states[k].sections[events[k].t].key != key
    ensures states[j].db.Latest(key) == states[i].db.Latest(key)
    decreases j
  {
    if i < j {
      CounterCountsGrants(states, events, i, j - 1, key);
    }
  }

  /** Between the events `i` and `j` somebody was granted this lock. */
  ghost predicate GrantedBetween(states: seq<State>, events: seq<Event>, i: nat, j: nat, key: LockKey)
    requires Run(states, events) && j < |events|
  {
    exists k :: i < k < j && events[k].ExecAcquire? && Granted(states, events, k, events[k].t)
      && states[k].sections[events[k].t].key == key
  }

  /** The section holds the newest token of its lock exactly if nobody was granted it since. */
  lemma NewestIffNotOvertaken(states: seq<State>, events: seq<Event>, i: nat, j: nat, t: Token, key: LockKey)
    requires Run(states, events) && i < j < |events|
    requires Granted(states, events, i, t) && forall k :: i < k < j ==> !Granted(states, events, k, t)
    requires key == states[i].sections[t].key
    ensures t in states[j].sections && states[j].sections[t].key == key
    ensures states[j].db.Latest(key) <= states[j].sections[t].granted <==> !GrantedBetween(states, events, i, j, key)
  {
    SectionPersists(states, events, i + 1, j, t);
    if GrantedBetween(states, events, i, j, key) {
      var k :| i < k < j && events[k].ExecAcquire? && Granted(states, events, k, events[k].t)
        && states[k].sections[events[k].t].key == key;
      FencesNeverFall(states, events, i + 1, k, key);
      FencesNeverFall(states, events, k + 1, j, key);
    } else {
      CounterCountsGrants(states, events, i + 1, j, key);
    }
  }

  /**
    What a write comes to that reaches Redis, whether its section's lease still holds or not: since the section's own
    grant somebody was granted the lock, and nothing changes; or nobody was, and the write has its effect.
   */
  lemma WriteLandsIffNewest(states: seq<State>, events: seq<Event>, i: nat, j: nat, t: Token, w: Write)
    requires Run(states, events) && i < j < |events|
    requires Granted(states, events, i, t) && forall k :: i < k < j ==> !Granted(states, events, k, t)
    requires events[j] == ExecWrite(t, w)
    ensures var db, db', overtaken := states[j].db, states[j + 1].db,
        GrantedBetween(states, events, i, j, states[i].sections[t].key);
      && db'.locks == db.locks && db'.fences == db.fences
      && (overtaken ==> db'.values == db.values)
      && (!overtaken && w.value.Some? ==> db'.values == db.values[w.key := w.value.value])
      && (!overtaken && w.value.None? ==> db'.values == db.values - {w.key})
  {
    NewestIffNotOvertaken(states, events, i, j, t, states[i].sections[t].key);
    AccessorHasGrant(states, events, j);
  }

  /** Over the whole run the writes that land on one key carry fencing tokens that never decrease. */
  lemma LandedTokensNeverDecrease(states: seq<State>, events: seq<Event>, i: nat, j: nat)
    requires Run(states, events) && i <= j < |events|
    requires Lands(states[i], events[i]) && Lands(states[j], events[j]) && events[i].write.key == events[j].write.key
    ensures states[i].sections[events[i].t].lease.fence <= states[j].sections[events[j].t].lease.fence
  {
    RunRefines(states, events);
    LandsIsAccepted(states, events, i);
    LandsIsAccepted(states, events, j);
    AccessorHasGrant(states, events, i);
    AccessorHasGrant(states, events, j);
    FencedStore.AcceptedTokensNeverDecrease(AbstractStates(states), AbstractEvents(states, events), i, j);
  }

  /** An event that changes `key` on behalf of section `t`, without a lock, or by expiry. */
  predicate Touches(e: Event, t: Token, key: StateKey) {
    || (e.ExecWrite? && e.write.key == key && e.t == t)
    || (e.UnlockedWrite? && e.plain == key)
    || (e.ExpireValue? && e.expired == key)
  }

  /**
    No lost update: a section reads a key, and a later write of its own to that key lands. Whatever happened to its
    lease in between, the write replaces exactly the version that was read, unless the section itself, an unlocked
    write or an expiry touched the key.
   */
  lemma LandedWriteReplacesWhatWasRead(
      states: seq<State>, events: seq<Event>, i: nat, j: nat, t: Token, key: StateKey, w: Write)
    requires Run(states, events) && i < j < |events|
    requires events[i] == ExecRead(t, key) && events[j] == ExecWrite(t, w) && w.key == key
    requires Lands(states[j], events[j])
    requires forall k :: i < k < j ==> !Touches(events[k], t, key)
    ensures key in states[i].db.values <==> key in states[j].db.values
    ensures key in states[i].db.values ==> states[i].db.values[key] == states[j].db.values[key]
  {
    RunRefines(states, events);
    LandsIsAccepted(states, events, j);
    AccessorHasGrant(states, events, i);
    NeverReacquires(states, events, i, j, t);
    var a, es := AbstractStates(states), AbstractEvents(states, events);
    forall k | i < k < j ensures !FencedStore.Disturbs(es[k], t, key) {
      assert !Touches(events[k], t, key);
    }
    FencedStore.NoLostUpdate(a, es, i, j);
  }

  /** Once a section has its lease, it is never granted the lock again. */
  lemma {:induction false} NeverReacquires(states: seq<State>, events: seq<Event>, i: nat, j: nat, t: Token)
    requires Run(states, events) && i <= j < |states| && t in states[i].sections && states[i].sections[t].HasLease()
    ensures t in states[j].sections && states[j].sections[t].HasLease()
    ensures states[j].sections[t].granted == states[i].sections[t].granted
    ensures states[j].sections[t].key == states[i].sections[t].key
    decreases j
  {
    if i < j {
      NeverReacquires(states, events, i, j - 1, t);
      HolderStep(states, events, j - 1, t);
    }
  }

  lemma HolderStep(states: seq<State>, events: seq<Event>, i: nat, t: Token)
    requires Run(states, events) && i < |events| && t in states[i].sections && states[i].sections[t].HasLease()
    ensures t in states[i + 1].sections && states[i + 1].sections[t].HasLease()
    ensures states[i + 1].sections[t].granted == states[i].sections[t].granted
    ensures states[i + 1].sections[t].key == states[i].sections[t].key
  {
    RunKeepsInv(states, events, i);
    StepKeepsGrant(states[i], events[i], t);
  }

  /** A section that reads or writes has its grant, which is the fencing token of its lease. */
  lemma AccessorHasGrant(states: seq<State>, events: seq<Event>, i: nat)
    requires Run(states, events) && i < |events| && (events[i].ExecRead? || events[i].ExecWrite?)
    ensures states[i].sections[events[i].t].granted == states[i].sections[events[i].t].lease.fence > 0
    ensures states[i].sections[events[i].t].HasLease()
    ensures events[i].ExecWrite? ==> LockOf(events[i].write.key) == states[i].sections[events[i].t].key
  {
    RunKeepsInv(states, events, i);
    assert SectionInv(states[i], events[i].t);
  }
}
