/**
  The sections of one room and the lock protocol run together: a section is granted the room's lock by the server, and
  its request returns in time exactly when it passes its last lease check. What is proved of overlapping sections so
  holds over runs with leases, clocks, stalls and expiry.
 */
module RoomSectionLeases {
  import opened Names
  import L = LockProtocol
  import LockSafety
  import LockRefinesFencing
  import FencedStore
  import RoomIndexLeases
  import RoomMachineLate
  import R = RoomSections
  import Timers = RoomTimerProtocol

  datatype State = State(locks: L.State, room: R.State)

  datatype Event =
    /** A step of the lock protocol that the room does not notice. */
    | Lock(l: L.Event)
    /** A grant, or the end of a section: a step of both. */
    | Both(l: L.Event, e: R.Event)
    /** A step of the room alone: its creation, writes, a worker that dies, pollers. */
    | Room(e: R.Event)

  predicate Quiet(s: State, l: L.Event)
    requires L.Enabled(s.locks, l)
  {
    match l
    case ExecAcquire(t) => s.locks.sections[t].key in s.locks.db.locks
    case FinalCheck(t) => !R.Ongoing(s.room, t)
    case Throw(t) => !R.Ongoing(s.room, t)
    case _ => true
  }

  /** The server grants a lock, a section passes or fails its last check, or its request throws. */
  predicate Joined(s: State, l: L.Event, e: R.Event)
    requires L.Enabled(s.locks, l)
  {
    match l
    case ExecAcquire(t) =>
      var key := s.locks.sections[t].key;
      && key !in s.locks.db.locks
      && ((e.Grant? && e.t == t && key == RoomLock(s.room.room)) || e == R.OtherGrant(t, key))
    case FinalCheck(t) => e == R.Return(t, s.locks.sections[t].lease.IsValid(s.locks.Clock(t)))
    case Throw(t) => e == R.Crash(t)
    case _ => false
  }

  ghost predicate Enabled(s: State, e: Event) {
    match e
    case Lock(l) => L.Enabled(s.locks, l) && Quiet(s, l)
    case Both(l, r) => L.Enabled(s.locks, l) && R.Enabled(s.room, r) && Joined(s, l, r)
    case Room(r) =>
      && R.Enabled(s.room, r) && (r.Create? || r.Write? || r.Crash? || r.Poll?)
      && (r.Write? ==> r.t in s.locks.sections && s.locks.sections[r.t].HasLease())
  }

  ghost function Apply(s: State, e: Event): State
    requires Enabled(s, e)
  {
    match e
    case Lock(l) => s.(locks := L.Apply(s.locks, l))
    case Both(l, r) => State(L.Apply(s.locks, l), R.Apply(s.room, r))
    case Room(r) => s.(room := R.Apply(s.room, r))
  }

  ghost predicate Run(states: seq<State>, events: seq<Event>) {
    && |states| == |events| + 1
    && L.Init(states[0].locks) && R.Init(states[0].room)
    && forall i :: 0 <= i < |events| ==> Enabled(states[i], events[i]) && states[i + 1] == Apply(states[i], events[i])
  }

  // ----- the tokens of the room are those of the locks

  ghost predicate SameTokens(locks: L.State, store: FencedStore.Store) {
    store.latest == locks.db.fences && store.grants == LockRefinesFencing.Abstract(locks).grants
  }

  ghost predicate Inv(s: State) {
    LockSafety.Inv(s.locks) && R.Tokens(s.room) && SameTokens(s.locks, s.room.store)
  }

  lemma GrantKeepsSame(locks: L.State, store: FencedStore.Store, t: Token)
    requires LockSafety.Inv(locks) && SameTokens(locks, store)
    requires L.Enabled(locks, L.ExecAcquire(t)) && locks.sections[t].key !in locks.db.locks
    ensures FencedStore.Enabled(store, FencedStore.Issue(t, locks.sections[t].key))
    ensures SameTokens(L.Apply(locks, L.ExecAcquire(t)),
                       FencedStore.Apply(store, FencedStore.Issue(t, locks.sections[t].key)))
  {
    LockRefinesFencing.StepRefines(locks, L.ExecAcquire(t));
  }

  lemma FencesStay(locks: L.State, l: L.Event)
    requires L.Enabled(locks, l)
    requires l.ExecAcquire? ==> locks.sections[l.t].key in locks.db.locks
    ensures L.Apply(locks, l).db.fences == locks.db.fences
  {
  }

  lemma OtherStepKeepsSame(locks: L.State, store: FencedStore.Store, l: L.Event)
    requires SameTokens(locks, store) && L.Enabled(locks, l)
    requires l.ExecAcquire? ==> locks.sections[l.t].key in locks.db.locks
    ensures SameTokens(L.Apply(locks, l), store)
  {
    FencesStay(locks, l);
    LockRefinesFencing.SameAbstractGrants(locks, l);
  }

  /** Only grants change the tokens of the room. */
  lemma RoomTokens(s: R.State, e: R.Event)
    requires R.Enabled(s, e)
    ensures !e.Grant? && !e.OtherGrant? ==> R.Apply(s, e).store == s.store
    ensures e.Grant? ==> R.Apply(s, e).store == FencedStore.Apply(s.store, FencedStore.Issue(e.t, RoomLock(s.room)))
    ensures e.OtherGrant? ==> R.Apply(s, e).store == FencedStore.Apply(s.store, FencedStore.Issue(e.t, e.lock))
  {
  }

  lemma StepKeepsSame(s: State, e: Event)
    requires Inv(s) && Enabled(s, e)
    ensures SameTokens(Apply(s, e).locks, Apply(s, e).room.store)
  {
    match e
    case Lock(l) => OtherStepKeepsSame(s.locks, s.room.store, l);
    case Room(r) => RoomTokens(s.room, r);
    case Both(l, r) =>
      RoomTokens(s.room, r);
      if l.ExecAcquire? {
        GrantKeepsSame(s.locks, s.room.store, l.t);
      } else {
        OtherStepKeepsSame(s.locks, s.room.store, l);
      }
  }

  lemma StepKeepsInv(s: State, e: Event)
    requires Inv(s) && Enabled(s, e)
    ensures Inv(Apply(s, e))
  {
    StepKeepsSame(s, e);
    if !e.Room? {
      LockSafety.ApplyKeepsInv(s.locks, e.l);
    }
    if !e.Lock? {
      R.StepKeepsTokens(s.room, e.e);
    }
  }

  lemma {:induction false} RunKeepsInv(states: seq<State>, events: seq<Event>, i: nat)
    requires Run(states, events) && i < |states|
    ensures Inv(states[i])
  {
    if i > 0 {
      RunKeepsInv(states, events, i - 1);
      StepKeepsInv(states[i - 1], events[i - 1]);
    } else {
      assert LockRefinesFencing.Abstract(states[0].locks).grants == map[];
    }
  }

  // ----- what follows

  /** A section that passes its last lease check has not been overtaken: it is the newest of its room. */
  lemma InTimeIsNewest(states: seq<State>, events: seq<Event>, n: nat, t: Token)
    requires Run(states, events) && n < |events|
    requires events[n] == Both(L.FinalCheck(t), R.Return(t, true))
    ensures states[n].room.Newest(t)
  {
    RunKeepsInv(states, events, n);
    var s := states[n];
    RoomIndexLeases.ValidLeaseIsCurrent(s.locks, t);
    assert R.Accepted(s.room, t);
  }

  /** Each run is, without locks and leases, a run of overlapping sections. */
  lemma {:induction false} RunIsSectionsRun(states: seq<State>, events: seq<Event>, n: nat)
    returns (rooms: seq<R.State>, es: seq<R.Event>)
    requires Run(states, events) && n < |states|
    ensures R.SectionsRun(rooms, es) && rooms[0] == states[0].room && rooms[|es|] == states[n].room
  {
    if n == 0 {
      rooms, es := [states[0].room], [];
    } else {
      rooms, es := RunIsSectionsRun(states, events, n - 1);
      var e := events[n - 1];
      if !e.Lock? {
        R.RunGrows(rooms, es, e.e);
        rooms, es := rooms + [states[n].room], es + [e.e];
      }
    }
  }

  /** And, without the room, a run of the lock protocol. */
  lemma {:induction false} RunIsLockRun(states: seq<State>, events: seq<Event>, n: nat)
    returns (locks: seq<L.State>, ls: seq<L.Event>)
    requires Run(states, events) && n < |states|
    ensures L.Run(locks, ls) && locks[|ls|] == states[n].locks
  {
    if n == 0 {
      locks, ls := [states[0].locks], [];
    } else {
      locks, ls := RunIsLockRun(states, events, n - 1);
      var e := events[n - 1];
      if !e.Room? {
        RoomIndexLeases.LockRunGrows(locks, ls, e.l);
        locks, ls := locks + [states[n].locks], ls + [e.l];
      }
    }
  }

  /** No stuck round over runs of the lock protocol, if the handler of the timeout reads strictly. */
  lemma LeasesLeaveNoStuckRound(states: seq<State>, events: seq<Event>, n: nat)
    requires Run(states, events) && n < |states| && Timers.RoundTimeout !in states[0].room.lenient
    ensures !RoomMachineLate.Stranded(states[n].room.Machine())
  {
    var rooms, es := RunIsSectionsRun(states, events, n);
    R.RunIsLenient(rooms, es, |es|);
    R.OverlapLeavesNoStuckRound(rooms, es, |es|);
  }
}
