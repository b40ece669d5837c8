/**
  The index protocol and the lock protocol run together: the sections that change records and the index take their
  locks, hold leases, send writes after a lease check and lose them, as the lock protocol says. A reconciler may check
  its lease before or after it looks for the record, and unlists the room or not as its discipline says.
 */
module RoomIndexLeases {
  import opened Names
  import L = LockProtocol
  import LockSafety
  import LockRefinesFencing
  import FencedStore
  import I = RoomIndexProtocol
  import S = RoomIndexSafety

  // ----- a lease check after the read

  /** A running section with a valid lease has the newest grant of its lock. */
  lemma ValidLeaseIsCurrent(s: L.State, t: Token)
    requires LockSafety.Inv(s) && t in s.sections
    requires s.sections[t].phase.Running? && s.sections[t].lease.IsValid(s.Clock(t))
    ensures LockRefinesFencing.Abstract(s).Current(t)
  {
    assert LockSafety.SectionInv(s, t);
  }

  /**
    A section that reads, and finds its lease valid at any later moment, had the newest grant when it read; a reconciler
    has then read no stale absence.
   */
  lemma LeaseCheckAfterReadSuffices(states: seq<L.State>, events: seq<L.Event>, i: nat, j: nat, t: Token, s: I.State)
    requires S.BaseInv(s) && I.IndexEnabled(s, I.ReadRecord(t))
    requires L.Run(states, events) && i < j < |states| && events[i] == L.ExecRead(t, RoomRecord(s.tasks[t].room))
    requires s.store == LockRefinesFencing.Abstract(states[i])
    requires t in states[j].sections
    requires states[j].sections[t].phase.Running? && states[j].sections[t].lease.IsValid(states[j].Clock(t))
    ensures s.store.Current(t) && !S.StaleAbsence(s, I.ReadRecord(t))
  {
    LockRefinesFencing.AccessorHasGrant(states, events, i);
    LockRefinesFencing.NeverReacquires(states, events, i, j, t);
    LockSafety.ValidLeaseIsConservative(states, events, j, t);
    LockSafety.RunKeepsInv(states, events, i);
    LockSafety.RunKeepsInv(states, events, j);
    assert LockSafety.SectionInv(states[i], t) && LockSafety.SectionInv(states[j], t);
    LockSafety.FencesNeverFall(states, events, i, j, states[i].sections[t].key);
    S.CurrentReconcilerIsNeverStale(s, t);
  }

  // ----- both protocols together

  /**
    `before` and `after` are the reconcilers that passed a lease check before their read, and after they found no
    record.
   */
  datatype State = State(
    locks: L.State,
    tasks: map<Token, I.Task>,
    rooms: map<RoomId, I.Creation>,
    listed: set<RoomId>,
    before: set<Token>,
    after: set<Token>)
  {
    /** The state as the index protocol sees it. */
    ghost function View(): I.State {
      I.State(LockRefinesFencing.Abstract(locks), tasks, rooms, listed)
    }
  }

  datatype Event =
    /** A step of the lock protocol that grants nothing and changes no value. */
    | Lock(l: L.Event)
    /** A grant, a read, a write or an expiry that is a step of both protocols. */
    | Both(l: L.Event, i: I.IndexEvent)
    /** A step of the index protocol that does not touch Redis. */
    | Index(i: I.IndexEvent)
    /** A reconciler checks its lease by its own clock, and goes on. */
    | Check(t: Token)

  /**
    When a reconciler that has found no record goes on: always, or only with a lease check passed before or after its
    read.
   */
  datatype Discipline = AsWritten | CheckBefore | CheckAfter

  /** The section sends this write next: one at a time, and the one that its task is about. */
  predicate Intends(s: State, t: Token, w: L.Write) {
    && t in s.tasks && t in s.locks.sections && s.locks.sections[t].writes == {}
    && Wanted(s.tasks[t], w)
  }

  predicate Wanted(task: I.Task, w: L.Write) {
    match task
    case Serving(r, seen) => seen.Present? && w.key == RoomRecord(r) && (w.value.Some? ==> w.value.value.Document?)
    case Reconciling(_, _) => false
    case Adding(_, copy, finished) =>
      copy.Some? && !finished && !I.AlreadyDone(task) && w.key == RoomIndex && w.value == Some(Ids(I.Updated(task)))
    case Removing(_, copy, finished) =>
      copy.Some? && !finished && !I.AlreadyDone(task) && w.key == RoomIndex && w.value == Some(Ids(I.Updated(task)))
  }

  predicate Disciplined(d: Discipline, s: State, i: I.IndexEvent) {
    i.BeginRemove? && i.parent in s.tasks && s.tasks[i.parent].Reconciling? ==>
      match d
      case AsWritten => true
      case CheckBefore => i.parent in s.before
      case CheckAfter => i.parent in s.after
  }

  ghost predicate Enabled(d: Discipline, s: State, e: Event) {
    match e
    case Lock(l) =>
      && L.Enabled(s.locks, l)
      && (LockRefinesFencing.AbstractEvent(s.locks, l).Other? || LockRefinesFencing.AbstractEvent(s.locks, l).Read?)
      && (l.SendWrite? ==> Intends(s, l.t, l.write))
    case Both(l, i) =>
      && L.Enabled(s.locks, l) && I.IndexEnabled(s.View(), i) && Disciplined(d, s, i)
      && I.StoreEvent(s.View(), i) == LockRefinesFencing.AbstractEvent(s.locks, l) && !I.StoreEvent(s.View(), i).Other?
    case Index(i) => I.IndexEnabled(s.View(), i) && Disciplined(d, s, i) && I.StoreEvent(s.View(), i).Other?
    case Check(t) =>
      && t in s.tasks && s.tasks[t].Reconciling?
      && t in s.locks.sections && s.locks.sections[t].phase.Running?
      && s.locks.sections[t].lease.IsValid(s.locks.Clock(t))
  }

  ghost function Locks(s: State, e: Event): L.State
    requires e.Lock? || e.Both? ==> L.Enabled(s.locks, e.l)
  {
    if e.Lock? || e.Both? then L.Apply(s.locks, e.l) else s.locks
  }

  ghost function Apply(d: Discipline, s: State, e: Event): State
    requires Enabled(d, s, e)
  {
    if e.Check? then
      s.(before := if s.tasks[e.t].seen.Unread? then s.before + {e.t} else s.before,
         after := if s.tasks[e.t].seen.Absent? then s.after + {e.t} else s.after)
    else if e.Lock? then
      s.(locks := Locks(s, e))
    else
      var s' := s.(locks := Locks(s, e), tasks := I.TasksAfter(s.View(), e.i), rooms := I.RoomsAfter(s.View(), e.i));
      s'.(listed := s.listed + set r | r in s'.View().Index())
  }

  ghost predicate Init(s: State) {
    L.Init(s.locks) && s == State(s.locks, map[], map[], {}, {}, {})
  }

  ghost predicate Run(d: Discipline, states: seq<State>, events: seq<Event>) {
    && |states| == |events| + 1
    && Init(states[0])
    && forall i :: 0 <= i < |events| ==>
      Enabled(d, states[i], events[i]) && states[i + 1] == Apply(d, states[i], events[i])
  }

  // ----- what every run keeps

  ghost predicate Inv(s: State) {
    && LockSafety.Inv(s.locks) && S.BaseInv(s.View()) && S.AbsencesHold(s.View())
    && forall t :: t in s.after ==> t in s.tasks && s.tasks[t].Reconciling? && s.tasks[t].seen.Absent?
  }

  /** Each step is a step of the index protocol, or leaves what that protocol sees as it was. */
  lemma StepIsIndexStep(d: Discipline, s: State, e: Event)
    requires Inv(s) && Enabled(d, s, e)
    ensures e.Both? || e.Index? ==> Apply(d, s, e).View() == I.IndexApply(s.View(), e.i)
    ensures e.Lock? || e.Check? ==> Apply(d, s, e).View() == s.View()
  {
    if e.Lock? || e.Both? {
      LockRefinesFencing.StepRefines(s.locks, e.l);
    }
  }

  lemma StepKeepsLocks(d: Discipline, s: State, e: Event)
    requires LockSafety.Inv(s.locks) && Enabled(d, s, e)
    ensures LockSafety.Inv(Apply(d, s, e).locks)
  {
    if e.Lock? || e.Both? {
      LockSafety.ApplyKeepsInv(s.locks, e.l);
    }
  }

  lemma IndexStepKeepsKnowledge(s: I.State, i: I.IndexEvent, t: Token)
    requires S.BaseInv(s) && I.IndexEnabled(s, i) && t in s.tasks && s.tasks[t].Reconciling? && s.tasks[t].seen.Absent?
    ensures t in I.IndexApply(s, i).tasks && I.IndexApply(s, i).tasks[t] == s.tasks[t]
  {
    if !S.Acts(i, t) {
      S.OthersUnchanged(s, i, t);
    }
  }

  lemma StepKeepsInv(d: Discipline, s: State, e: Event)
    requires Inv(s) && Enabled(d, s, e)
    ensures Inv(Apply(d, s, e))
  {
    StepKeepsLocks(d, s, e);
    StepIsIndexStep(d, s, e);
    if e.Both? || e.Index? {
      S.StepKeepsBaseInv(s.View(), e.i);
      S.StepKeepsAbsences(s.View(), e.i);
      forall t | t in s.after ensures t in Apply(d, s, e).tasks && Apply(d, s, e).tasks[t] == s.tasks[t] {
        IndexStepKeepsKnowledge(s.View(), e.i, t);
      }
    }
  }

  lemma {:induction false} RunKeepsInv(d: Discipline, states: seq<State>, events: seq<Event>, i: nat)
    requires Run(d, states, events) && i < |states|
    ensures Inv(states[i])
  {
    if i > 0 {
      RunKeepsInv(d, states, events, i - 1);
      StepKeepsInv(d, states[i - 1], events[i - 1]);
    } else {
      assert LockRefinesFencing.Abstract(states[0].locks).grants == map[];
    }
  }

  // ----- each run is one of either protocol

  lemma LockRunGrows(states: seq<L.State>, events: seq<L.Event>, e: L.Event)
    requires L.Run(states, events) && L.Enabled(states[|events|], e)
    ensures L.Run(states + [L.Apply(states[|events|], e)], events + [e])
  {
    var more, longer := states + [L.Apply(states[|events|], e)], events + [e];
    forall i | 0 <= i < |longer| ensures L.Enabled(more[i], longer[i]) && more[i + 1] == L.Apply(more[i], longer[i]) {
      assert i < |events| ==> more[i] == states[i] && more[i + 1] == states[i + 1] && longer[i] == events[i];
    }
  }

  /** The locks, leases, clocks and values go through a run of the lock protocol. */
  lemma {:induction false} RunIsLockRun(d: Discipline, states: seq<State>, events: seq<Event>, n: nat)
    returns (a: seq<L.State>, es: seq<L.Event>)
    requires Run(d, states, events) && n < |states|
    ensures L.Run(a, es) && a[|es|] == states[n].locks
  {
    if n == 0 {
      a, es := [states[0].locks], [];
    } else {
      a, es := RunIsLockRun(d, states, events, n - 1);
      var e := events[n - 1];
      if e.Lock? || e.Both? {
        LockRunGrows(a, es, e.l);
        a, es := a + [states[n].locks], es + [e.l];
      }
    }
  }

  lemma IndexRunGrows(states: seq<I.State>, events: seq<I.IndexEvent>, e: I.IndexEvent)
    requires S.IndexRun(states, events) && I.WellTasked(states[|events|]) && I.IndexEnabled(states[|events|], e)
    ensures S.IndexRun(states + [I.IndexApply(states[|events|], e)], events + [e])
  {
    var more, longer := states + [I.IndexApply(states[|events|], e)], events + [e];
    forall i | 0 <= i < |longer|
      ensures I.WellTasked(more[i]) && I.IndexEnabled(more[i], longer[i])
        && more[i + 1] == I.IndexApply(more[i], longer[i])
    {
      assert i < |events| ==> more[i] == states[i] && more[i + 1] == states[i + 1] && longer[i] == events[i];
    }
  }

  lemma FirstViewIsInit(d: Discipline, states: seq<State>, events: seq<Event>)
    requires Run(d, states, events)
    ensures S.IndexRun([states[0].View()], [])
  {
    RunKeepsInv(d, states, events, 0);
    assert LockRefinesFencing.Abstract(states[0].locks).grants == map[];
  }

  lemma ViewGoesOn(d: Discipline, s: State, e: Event, s': State, a: seq<I.State>, es: seq<I.IndexEvent>)
    returns (a': seq<I.State>, es': seq<I.IndexEvent>)
    requires Inv(s) && Enabled(d, s, e) && s' == Apply(d, s, e)
    requires S.IndexRun(a, es) && a[|es|] == s.View()
    ensures S.IndexRun(a', es') && a'[|es'|] == s'.View()
  {
    StepIsIndexStep(d, s, e);
    a', es' := a, es;
    if e.Both? || e.Index? {
      IndexRunGrows(a, es, e.i);
      a', es' := a + [s'.View()], es + [e.i];
    }
  }

  /** What the index protocol sees goes through a run of the index protocol. */
  lemma {:induction false} RunIsIndexRun(d: Discipline, states: seq<State>, events: seq<Event>, n: nat)
    returns (a: seq<I.State>, es: seq<I.IndexEvent>)
    requires Run(d, states, events) && n < |states|
    ensures S.IndexRun(a, es) && a[|es|] == states[n].View()
  {
    if n == 0 {
      a, es := [states[0].View()], [];
      FirstViewIsInit(d, states, events);
    } else {
      a, es := RunIsIndexRun(d, states, events, n - 1);
      RunKeepsInv(d, states, events, n - 1);
      a, es := ViewGoesOn(d, states[n - 1], events[n - 1], states[n], a, es);
    }
  }

  // ----- the check that keeps the index safe

  ghost predicate Trusted(s: State) {
    S.SafetyInv(s.View(), S.Only(s.after))
  }

  lemma CheckKeepsTrust(d: Discipline, s: State, t: Token)
    requires Inv(s) && Trusted(s) && Enabled(d, s, Check(t))
    ensures Trusted(Apply(d, s, Check(t)))
  {
    if s.tasks[t].seen.Absent? {
      ValidLeaseIsCurrent(s.locks, t);
      S.LaterGrantMeansDead(s.View(), t);
      S.MoreTrust(s.View(), s.after, t);
      assert Apply(d, s, Check(t)).View() == s.View();
    }
  }

  lemma StepKeepsTrust(s: State, e: Event)
    requires Inv(s) && Trusted(s) && Enabled(CheckAfter, s, e)
    ensures Trusted(Apply(CheckAfter, s, e))
  {
    StepIsIndexStep(CheckAfter, s, e);
    if e.Check? {
      CheckKeepsTrust(CheckAfter, s, e.t);
    } else if e.Both? || e.Index? {
      IndexStepKeepsTrust(s.View(), e.i, s.after);
    }
  }

  /** A reconciler whose read is still to come is not trusted yet. */
  lemma IndexStepKeepsTrust(s: I.State, i: I.IndexEvent, trusted: set<Token>)
    requires S.BaseInv(s) && S.SafetyInv(s, S.Only(trusted)) && I.IndexEnabled(s, i)
    requires forall t :: t in trusted ==> t in s.tasks && s.tasks[t].Reconciling? && s.tasks[t].seen.Absent?
    requires i.BeginRemove? && s.tasks[i.parent].Reconciling? ==> i.parent in trusted
    ensures S.SafetyInv(I.IndexApply(s, i), S.Only(trusted))
  {
    S.StepKeepsSafetyInv(s, i, S.Only(trusted));
  }

  lemma {:induction false} RunKeepsTrust(states: seq<State>, events: seq<Event>, i: nat)
    requires Run(CheckAfter, states, events) && i < |states|
    ensures Trusted(states[i])
  {
    if i > 0 {
      RunKeepsTrust(states, events, i - 1);
      RunKeepsInv(CheckAfter, states, events, i - 1);
      StepKeepsTrust(states[i - 1], events[i - 1]);
    }
  }

  /**
    Over every run of both protocols together, with any stalls, expiries, lost commands and replies: if a reconciler
    unlists a room only after its lease was valid at some moment after it found no record, the index stays safe.
   */
  lemma CheckAfterReadKeepsIndexSafe(states: seq<State>, events: seq<Event>, i: nat)
    requires Run(CheckAfter, states, events) && i < |states|
    ensures S.Safe(states[i].View())
  {
    RunKeepsInv(CheckAfter, states, events, i);
    RunKeepsTrust(states, events, i);
  }

  // ----- what was sent may always take effect

  /** Nothing of the section's work is done yet. */
  predicate Fresh(task: I.Task) {
    match task
    case Serving(_, seen) => seen.Unread?
    case Reconciling(_, seen) => seen.Unread?
    case Adding(_, copy, finished) => copy.None? && !finished
    case Removing(_, copy, finished) => copy.None? && !finished
  }

  ghost predicate Sent(s: State, t: Token)
    requires t in s.locks.sections
  {
    forall w :: w in s.locks.sections[t].writes ==>
      t in s.tasks && Wanted(s.tasks[t], w) && s.locks.sections[t].writes == {w}
  }

  /** What a section has sent is what its task still wants. */
  ghost predicate Faithful(s: State) {
    forall t :: t in s.locks.sections ==> Sent(s, t)
  }

  lemma LockKeepsSent(d: Discipline, s: State, l: L.Event, t: Token)
    requires Faithful(s) && Enabled(d, s, Lock(l)) && t in L.Apply(s.locks, l).sections
    ensures Sent(Apply(d, s, Lock(l)), t)
  {
    assert t in s.locks.sections ==> Sent(s, t);
  }

  /** A task that wants a write is changed by nothing but a write of its section. */
  lemma WantedStays(s: I.State, i: I.IndexEvent, t: Token, w: L.Write)
    requires I.WellTasked(s) && I.IndexEnabled(s, i) && t in s.tasks && Wanted(s.tasks[t], w)
    requires !(I.StoreEvent(s, i).Write? && I.StoreEvent(s, i).t == t)
    ensures t in I.TasksAfter(s, i) && I.TasksAfter(s, i)[t] == s.tasks[t]
  {
  }

  /** Only the execution of a write changes what is on its way, apart from sending and dropping. */
  lemma WritesStay(s: L.State, l: L.Event, t: Token)
    requires L.Enabled(s, l) && t in L.Apply(s, l).sections && !l.Begin? && !l.SendWrite? && !l.DropWrite?
    ensures t in s.sections
    ensures L.Apply(s, l).sections[t].writes
         == s.sections[t].writes - if l.ExecWrite? && l.t == t then {l.write} else {}
  {
  }

  lemma BothKeepsSent(d: Discipline, s: State, e: Event, t: Token)
    requires I.WellTasked(s.View()) && Faithful(s) && Enabled(d, s, e) && e.Both? && t in L.Apply(s.locks, e.l).sections
    ensures Sent(Apply(d, s, e), t)
  {
    WritesStay(s.locks, e.l, t);
    assert Sent(s, t);
    forall w | w in L.Apply(s.locks, e.l).sections[t].writes
      ensures t in I.TasksAfter(s.View(), e.i) && I.TasksAfter(s.View(), e.i)[t] == s.tasks[t]
    {
      WantedStays(s.View(), e.i, t, w);
    }
  }

  lemma IndexKeepsSent(d: Discipline, s: State, i: I.IndexEvent, t: Token)
    requires I.WellTasked(s.View()) && Faithful(s) && Enabled(d, s, Index(i)) && t in s.locks.sections
    ensures Sent(Apply(d, s, Index(i)), t)
  {
    assert Sent(s, t);
    forall w | w in s.locks.sections[t].writes
      ensures t in I.TasksAfter(s.View(), i) && I.TasksAfter(s.View(), i)[t] == s.tasks[t]
    {
      WantedStays(s.View(), i, t, w);
    }
  }

  lemma StepKeepsFaithful(d: Discipline, s: State, e: Event)
    requires I.WellTasked(s.View()) && Faithful(s) && Enabled(d, s, e)
    ensures Faithful(Apply(d, s, e))
  {
    var s' := Apply(d, s, e);
    forall t | t in s'.locks.sections ensures Sent(s', t) {
      match e
      case Lock(l) => LockKeepsSent(d, s, l, t);
      case Both(l, i) => BothKeepsSent(d, s, e, t);
      case Index(i) => IndexKeepsSent(d, s, i, t);
      case Check(_) => assert Sent(s, t);
    }
  }

  lemma {:induction false} RunKeepsFaithful(d: Discipline, states: seq<State>, events: seq<Event>, i: nat)
    requires Run(d, states, events) && i < |states|
    ensures Faithful(states[i])
  {
    if i > 0 {
      RunKeepsFaithful(d, states, events, i - 1);
      RunKeepsInv(d, states, events, i - 1);
      StepKeepsFaithful(d, states[i - 1], events[i - 1]);
    }
  }

  lemma WantedIsStep(d: Discipline, s: State, t: Token, w: L.Write) returns (i: I.IndexEvent)
    requires t in s.tasks && Wanted(s.tasks[t], w)
    ensures I.IndexEnabled(s.View(), i) && Disciplined(d, s, i)
    ensures I.StoreEvent(s.View(), i) == FencedStore.Write(t, w.key, w.value)
  {
    if s.tasks[t].Serving? {
      i := if w.value.Some? then I.SaveRecord(t, w.value.value.body) else I.DeleteRecord(t);
    } else {
      i := I.WriteIndex(t);
    }
  }

  /** To run the protocols together delays no write: in every run, what is on its way to Redis may take effect now. */
  lemma SentWriteMayLand(d: Discipline, states: seq<State>, events: seq<Event>, n: nat, t: Token, w: L.Write)
    returns (i: I.IndexEvent)
    requires Run(d, states, events) && n < |states| && L.Enabled(states[n].locks, L.ExecWrite(t, w))
    ensures Enabled(d, states[n], Both(L.ExecWrite(t, w), i))
  {
    RunKeepsFaithful(d, states, events, n);
    assert Sent(states[n], t);
    i := WantedIsStep(d, states[n], t, w);
  }
}
