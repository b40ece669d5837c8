/**
  What fencing alone guarantees, whatever the leases do: a store whose critical sections are known only by the
  fencing token they were issued. Sections of one lock may overlap here in any way.
 */
module FencedStore {
  import opened Names
  import opened Redis

  datatype Grant = Grant(lock: LockKey, fence: nat)

  datatype Store = Store(latest: map<LockKey, nat>, grants: map<Token, Grant>, values: map<StateKey, Value>)
  {
    function Latest(lock: LockKey): nat {
      if lock in latest then latest[lock] else 0
    }

    /** The newest section of its lock. */
    predicate Current(t: Token) {
      t in grants && grants[t].fence == Latest(grants[t].lock)
    }
  }

  datatype Event =
    | Issue(t: Token, lock: LockKey)
    | Read(t: Token, key: StateKey)
    | Write(t: Token, key: StateKey, value: Option<Value>)
    | Unlocked(key: StateKey, value: Option<Value>)
    | Expire(key: StateKey)
    | Other

  predicate Enabled(s: Store, e: Event) {
    match e
    case Issue(t, lock) => t in s.grants ==> s.grants[t].lock == lock
    case Read(t, key) => t in s.grants
    case Write(t, key, _) => t in s.grants && LockOf(key) == s.grants[t].lock
    case _ => true
  }

  /** A fenced write takes effect unless a newer token was issued for its lock. */
  predicate Accepted(s: Store, e: Event) {
    e.Write? && e.t in s.grants && s.Latest(s.grants[e.t].lock) <= s.grants[e.t].fence
  }

  function Apply(s: Store, e: Event): Store
    requires Enabled(s, e)
  {
    match e
    case Issue(t, lock) =>
      var fence := s.Latest(lock) + 1;
      s.(latest := s.latest[lock := fence], grants := s.grants[t := Grant(lock, fence)])
    case Write(t, key, value) => if Accepted(s, e) then s.(values := Put(s.values, key, value)) else s
    case Unlocked(key, value) => s.(values := Put(s.values, key, value))
    case Expire(key) => s.(values := s.values - {key})
    case _ => s
  }

  /** Fencing tokens in circulation were really issued, and no two sections of a lock share one. */
  ghost predicate Inv(s: Store) {
    && (forall t :: t in s.grants ==> 0 < s.grants[t].fence <= s.Latest(s.grants[t].lock))
    && (forall t, u :: t in s.grants && u in s.grants && s.grants[t] == s.grants[u] ==> t == u)
  }

  ghost predicate Run(states: seq<Store>, events: seq<Event>) {
    && |states| == |events| + 1
    && states[0] == Store(map[], map[], map[])
    && forall i :: 0 <= i < |events| ==> Enabled(states[i], events[i]) && states[i + 1] == Apply(states[i], events[i])
  }

  lemma ApplyKeepsInv(s: Store, e: Event)
    requires Inv(s) && Enabled(s, e)
    ensures Inv(Apply(s, e))
  {
  }

  lemma {:induction false} RunKeepsInv(states: seq<Store>, events: seq<Event>, i: nat)
    requires Run(states, events) && i < |states|
    ensures Inv(states[i])
  {
    if i > 0 {
      RunKeepsInv(states, events, i - 1);
      ApplyKeepsInv(states[i - 1], events[i - 1]);
    }
  }

  /** Fencing counters never go back. */
  lemma {:induction false} LatestNeverFalls(states: seq<Store>, events: seq<Event>, i: nat, j: nat, lock: LockKey)
    requires Run(states, events) && i <= j < |states|
    ensures states[i].Latest(lock) <= states[j].Latest(lock)
    decreases j
  {
    if i < j {
      LatestNeverFalls(states, events, i, j - 1, lock);
    }
  }

  /**
    Once the token `n` was issued for a lock, no later write of a section with a smaller token takes effect:
    the store it finds is the store it leaves.
   */
  lemma StaleWritesNeverLand(states: seq<Store>, events: seq<Event>, i: nat, j: nat, n: nat)
    requires Run(states, events) && i <= j < |events|
    requires events[j].Write?
    requires n <= states[i].Latest(LockOf(events[j].key))
    requires states[j].grants[events[j].t].fence < n
    ensures !Accepted(states[j], events[j])
    ensures states[j + 1] == states[j]
  {
    LatestNeverFalls(states, events, i, j, LockOf(events[j].key));
  }

  /** Over a whole run, the writes accepted on one key carry fencing tokens that never decrease. */
  lemma AcceptedTokensNeverDecrease(states: seq<Store>, events: seq<Event>, i: nat, j: nat)
    requires Run(states, events) && i <= j < |events|
    requires Accepted(states[i], events[i]) && Accepted(states[j], events[j])
    requires events[i].key == events[j].key
    ensures states[i].grants[events[i].t].fence <= states[j].grants[events[j].t].fence
  {
    RunKeepsInv(states, events, i);
    LatestNeverFalls(states, events, i, j, LockOf(events[i].key));
  }

  /** The events that change a key from outside the section `t`'s own accepted writes and outside any lock. */
  predicate Disturbs(e: Event, t: Token, key: StateKey) {
    || (e.Write? && e.key == key && e.t == t)
    || (e.Unlocked? && e.key == key)
    || (e.Expire? && e.key == key)
  }

  /**
    No lost update: a section read a key, and later a fenced write of the same section to that key is accepted.
    Unless the section itself, an unlocked write or an expiry touched the key in between, the write replaces
    exactly the version that was read.
   */
  lemma NoLostUpdate(states: seq<Store>, events: seq<Event>, i: nat, j: nat)
    requires Run(states, events) && i < j < |events|
    requires events[i].Read? && events[j].Write? && events[i].t == events[j].t && events[i].key == events[j].key
    requires Accepted(states[j], events[j])
    requires states[i].grants[events[i].t] == states[j].grants[events[j].t]
    requires forall k :: i < k < j ==> !Disturbs(events[k], events[i].t, events[i].key)
    ensures (events[i].key in states[i].values) == (events[i].key in states[j].values)
    ensures events[i].key in states[i].values ==> states[i].values[events[i].key] == states[j].values[events[i].key]
  {
    KeyFrozen(states, events, i, j, j);
  }

  lemma {:induction false} KeyFrozen(states: seq<Store>, events: seq<Event>, i: nat, k: nat, j: nat)
    requires Run(states, events) && i < k <= j < |events|
    requires events[i].Read? && events[j].Write? && events[i].t == events[j].t && events[i].key == events[j].key
    requires Accepted(states[j], events[j])
    requires states[i].grants[events[i].t] == states[j].grants[events[j].t]
    requires forall m :: i < m < j ==> !Disturbs(events[m], events[i].t, events[i].key)
    ensures (events[i].key in states[i].values) == (events[i].key in states[k].values)
    ensures events[i].key in states[i].values ==> states[i].values[events[i].key] == states[k].values[events[i].key]
    decreases k
  {
    if k > i + 1 {
      KeyFrozen(states, events, i, k - 1, j);
      var e := events[k - 1];
      if Accepted(states[k - 1], e) && e.key == events[i].key {
        SoleWriter(states, events, i, k - 1, j, e.t);
      }
    }
  }

  /** Between the read and the accepted write, only the section itself could get a write accepted. */
  lemma SoleWriter(states: seq<Store>, events: seq<Event>, i: nat, k: nat, j: nat, u: Token)
    requires Run(states, events) && i < k < j < |events|
    requires Accepted(states[j], events[j]) && Accepted(states[k], events[k]) && events[k].t == u
    requires events[k].key == events[j].key
    requires events[j].t in states[i].grants && states[i].grants[events[j].t] == states[j].grants[events[j].t]
    ensures u == events[j].t
  {
    var t, lock := events[j].t, LockOf(events[j].key);
    RunKeepsInv(states, events, i);
    RunKeepsInv(states, events, k);
    LatestNeverFalls(states, events, i, k, lock);
    LatestNeverFalls(states, events, k, j, lock);
    GrantKept(states, events, i, k, t);
    GrantKept(states, events, k, j, t);
  }

  /** A grant only ever grows: a token that is issued again gets a larger number. */
  lemma {:induction false} GrantKept(states: seq<Store>, events: seq<Event>, i: nat, j: nat, t: Token)
    requires Run(states, events) && i <= j < |states| && t in states[i].grants
    ensures t in states[j].grants && states[j].grants[t].lock == states[i].grants[t].lock
    ensures states[i].grants[t].fence <= states[j].grants[t].fence
    decreases j
  {
    if i < j {
      GrantKept(states, events, i, j - 1, t);
      RunKeepsInv(states, events, j - 1);
    }
  }
}
