/**
  Which lease check keeps the index safe: the one after the read, and neither the one before it nor none. The run that
  shows it is one of both protocols, with every lease and lease check in place.
 */
module RoomIndexChecks {
  import opened Names
  import opened Redis
  import opened LeaseValue
  import L = LockProtocol
  import LockRefinesFencing
  import FencedStore
  import I = RoomIndexProtocol
  import S = RoomIndexSafety
  import opened RoomIndexLeases

  ghost predicate Reachable(d: Discipline, s: State) {
    exists states: seq<State>, events: seq<Event> :: Run(d, states, events) && states[|events|] == s
  }

  lemma RunGrows(d: Discipline, states: seq<State>, events: seq<Event>, e: Event)
    requires Run(d, states, events) && Enabled(d, states[|events|], e)
    ensures Run(d, states + [Apply(d, states[|events|], e)], events + [e])
  {
    var more, longer := states + [Apply(d, states[|events|], e)], events + [e];
    forall i | 0 <= i < |longer| ensures Enabled(d, more[i], longer[i]) && more[i + 1] == Apply(d, more[i], longer[i]) {
      assert i < |events| ==> more[i] == states[i] && more[i + 1] == states[i + 1] && longer[i] == events[i];
    }
  }

  lemma ReachableInv(d: Discipline, s: State)
    requires Reachable(d, s)
    ensures Inv(s)
  {
    var states: seq<State>, events: seq<Event> :| Run(d, states, events) && states[|events|] == s;
    RunKeepsInv(d, states, events, |events|);
  }

  lemma ReachableBase(d: Discipline, s: State)
    requires Reachable(d, s)
    ensures S.BaseInv(s.View())
  {
    ReachableInv(d, s);
  }

  lemma Step(d: Discipline, s: State, e: Event)
    requires Reachable(d, s) && Enabled(d, s, e)
    ensures Reachable(d, Apply(d, s, e))
  {
    var states: seq<State>, events: seq<Event> :| Run(d, states, events) && states[|events|] == s;
    RunGrows(d, states, events, e);
    var more, longer := states + [Apply(d, s, e)], events + [e];
    assert Run(d, more, longer) && more[|longer|] == Apply(d, s, e);
  }

  /** Steps of the lock protocol that the index protocol does not see. */
  predicate Quiet(l: L.Event) {
    || l.Begin? || l.SendAcquire? || l.SettleAcquire? || l.FinalCheck? || l.ExecRelease? || l.Advance? || l.ExpireLock?
  }

  lemma LockStep(d: Discipline, s: State, l: L.Event, next: L.State)
    requires Reachable(d, s) && Quiet(l) && L.Enabled(s.locks, l) && L.Apply(s.locks, l) == next
    ensures Reachable(d, s.(locks := next)) && s.(locks := next).View() == s.View()
  {
    Step(d, s, Lock(l));
    ReachableInv(d, s);
    StepIsIndexStep(d, s, Lock(l));
  }

  /** What a step of the index protocol makes of the rest of the state. */
  ghost predicate Follows(s: State, i: I.IndexEvent, end: State) {
    && I.IndexEnabled(s.View(), i) && end.tasks == I.TasksAfter(s.View(), i) && end.rooms == I.RoomsAfter(s.View(), i)
    && s.listed <= end.listed && (forall r :: r in end.View().Index() ==> r in end.listed)
    && end.before == s.before && end.after == s.after
  }

  /** A step of both protocols. */
  lemma BothStep(d: Discipline, s: State, l: L.Event, i: I.IndexEvent, next: L.State) returns (end: State)
    requires Reachable(d, s) && L.Enabled(s.locks, l) && L.Apply(s.locks, l) == next
    requires I.IndexEnabled(s.View(), i) && Disciplined(d, s, i)
    requires I.StoreEvent(s.View(), i) == LockRefinesFencing.AbstractEvent(s.locks, l)
      && !I.StoreEvent(s.View(), i).Other?
    ensures Reachable(d, end) && end.locks == next && Follows(s, i, end)
  {
    Step(d, s, Both(l, i));
    end := Apply(d, s, Both(l, i));
  }

  /** A step of the index protocol alone. */
  lemma IndexStep(d: Discipline, s: State, i: I.IndexEvent) returns (end: State)
    requires Reachable(d, s) && I.IndexEnabled(s.View(), i) && !i.BeginRemove? && I.StoreEvent(s.View(), i).Other?
    ensures Reachable(d, end) && end.locks == s.locks && Follows(s, i, end)
  {
    Step(d, s, Index(i));
    end := Apply(d, s, Index(i));
  }

  // ----- what sections do, undisturbed

  function Holder(key: LockKey, fence: nat, now: int): L.Section {
    L.Section(key, 0, L.Running, L.Idle, NewLease(fence, now), L.Idle, {}, fence)
  }

  /** A new section has taken a lock that was free. */
  function Taken(l: L.State, t: Token, key: LockKey): L.State {
    L.State(
      l.now,
      Db(l.db.locks[key := LockEntry(t, l.now + LOCK_TTL_MS)], l.db.fences[key := l.db.Latest(key) + 1], l.db.values),
      l.sections[t := Holder(key, l.db.Latest(key) + 1, l.now)])
  }

  function Asking(l: L.State, t: Token, key: LockKey): L.State {
    l.With(t, L.Section(key, 0, L.Acquiring, L.Sent(l.now), NewLease(0, 0), L.Idle, {}, 0))
  }

  /** A new section asks for a lock. */
  lemma AskForLock(d: Discipline, s: State, t: Token, key: LockKey)
    requires Reachable(d, s) && t !in s.locks.sections
    ensures Reachable(d, s.(locks := Asking(s.locks, t, key)))
      && s.(locks := Asking(s.locks, t, key)).View() == s.View()
  {
    var begun := L.Apply(s.locks, L.Begin(t, key, 0));
    assert L.Enabled(begun, L.SendAcquire(t)) && L.Apply(begun, L.SendAcquire(t)) == Asking(s.locks, t, key);
    LockStep(d, s, L.Begin(t, key, 0), begun);
    LockStep(d, s.(locks := begun), L.SendAcquire(t), Asking(s.locks, t, key));
  }

  /** The server grants a lock that is free, and the reply comes back at once. */
  lemma Granted(l: L.State, t: Token, key: LockKey) returns (granted: L.State)
    requires key !in l.db.locks
    ensures L.Enabled(Asking(l, t, key), L.ExecAcquire(t)) && L.Apply(Asking(l, t, key), L.ExecAcquire(t)) == granted
    ensures L.Enabled(granted, L.SettleAcquire(t)) && L.Apply(granted, L.SettleAcquire(t)) == Taken(l, t, key)
    ensures LockRefinesFencing.AbstractEvent(Asking(l, t, key), L.ExecAcquire(t)) == FencedStore.Issue(t, key)
  {
    granted := L.Apply(Asking(l, t, key), L.ExecAcquire(t));
  }

  /** A new section takes a lock that is free, and has begun what it is for. */
  lemma TakeLock(d: Discipline, s: State, t: Token, key: LockKey, i: I.IndexEvent) returns (end: State)
    requires Reachable(d, s) && t !in s.locks.sections && key !in s.locks.db.locks
    requires I.IndexEnabled(s.View(), i) && Disciplined(d, s, i)
      && I.StoreEvent(s.View(), i) == FencedStore.Issue(t, key)
    ensures Reachable(d, end) && end.locks == Taken(s.locks, t, key) && Follows(s, i, end)
  {
    var granted := Granted(s.locks, t, key);
    AskForLock(d, s, t, key);
    var s2 := BothStep(d, s.(locks := Asking(s.locks, t, key)), L.ExecAcquire(t), i, granted);
    end := s2.(locks := Taken(s.locks, t, key));
    LockStep(d, s2, L.SettleAcquire(t), Taken(s.locks, t, key));
  }

  /** A running section whose lease is valid, with the newest token of its lock and nothing on its way. */
  predicate Holds(l: L.State, t: Token, key: LockKey) {
    && t in l.sections && l.sections[t].phase.Running? && l.sections[t].lease.IsValid(l.Clock(t))
    && l.sections[t].key == key && l.sections[t].lease.fence == l.db.Latest(key) && l.sections[t].writes == {}
    && l.db.HeldBy(key, t)
  }

  /** The section reads a key, at any time and whatever has become of its lease. */
  lemma ReadKey(d: Discipline, s: State, t: Token, key: StateKey, i: I.IndexEvent) returns (end: State)
    requires Reachable(d, s) && t in s.locks.sections && s.locks.sections[t].phase.Running?
    requires I.IndexEnabled(s.View(), i) && !i.BeginRemove? && I.StoreEvent(s.View(), i) == FencedStore.Read(t, key)
    ensures Reachable(d, end) && end.locks == s.locks && Follows(s, i, end)
  {
    assert s.locks.With(t, s.locks.sections[t]) == s.locks;
    end := BothStep(d, s, L.ExecRead(t, key), i, s.locks);
  }

  function Written(l: L.State, w: L.Write): L.State {
    l.(db := l.db.(values := Put(l.db.values, w.key, w.value)))
  }

  /** A write is sent and lands. */
  lemma WriteLands(l: L.State, t: Token, key: LockKey, w: L.Write) returns (sent: L.State)
    requires Holds(l, t, key) && LockOf(w.key) == key
    ensures L.Enabled(l, L.SendWrite(t, w)) && L.Apply(l, L.SendWrite(t, w)) == sent
    ensures L.Enabled(sent, L.ExecWrite(t, w)) && L.Apply(sent, L.ExecWrite(t, w)) == Written(l, w)
    ensures LockRefinesFencing.AbstractEvent(sent, L.ExecWrite(t, w)) == FencedStore.Write(t, w.key, w.value)
  {
    var c := l.sections[t];
    sent := l.With(t, c.(writes := {w}));
    assert c.writes + {w} == {w} && {w} - {w} == c.writes && c.(writes := {w}).(writes := c.writes) == c;
    assert Written(sent, w).With(t, c) == Written(l, w);
  }

  lemma SendStep(d: Discipline, s: State, t: Token, w: L.Write, sent: L.State)
    requires Reachable(d, s) && L.Enabled(s.locks, L.SendWrite(t, w)) && L.Apply(s.locks, L.SendWrite(t, w)) == sent
    requires Intends(s, t, w)
    ensures Reachable(d, s.(locks := sent)) && s.(locks := sent).View() == s.View()
  {
    Step(d, s, Lock(L.SendWrite(t, w)));
    ReachableInv(d, s);
    StepIsIndexStep(d, s, Lock(L.SendWrite(t, w)));
  }

  lemma WriteKey(d: Discipline, s: State, t: Token, key: LockKey, w: L.Write, i: I.IndexEvent) returns (end: State)
    requires Reachable(d, s) && Holds(s.locks, t, key) && LockOf(w.key) == key && Intends(s, t, w)
    requires I.IndexEnabled(s.View(), i) && !i.BeginRemove?
    requires I.StoreEvent(s.View(), i) == FencedStore.Write(t, w.key, w.value)
    ensures Reachable(d, end) && end.locks == Written(s.locks, w) && Follows(s, i, end)
  {
    var sent := WriteLands(s.locks, t, key, w);
    SendStep(d, s, t, w, sent);
    end := BothStep(d, s.(locks := sent), L.ExecWrite(t, w), i, Written(s.locks, w));
  }

  function Returned(l: L.State, t: Token, key: LockKey): L.State
    requires t in l.sections
  {
    l.(db := l.db.(locks := l.db.locks - {key}), sections := l.sections[t := l.sections[t].(phase := L.Ended(true))])
  }

  /** The section passes its last lease check, returns, and releases its lock. */
  lemma ReturnNormally(d: Discipline, s: State, t: Token, key: LockKey)
    requires Reachable(d, s) && Holds(s.locks, t, key)
    ensures Reachable(d, s.(locks := Returned(s.locks, t, key)))
      && s.(locks := Returned(s.locks, t, key)).View() == s.View()
  {
    var checked := L.Apply(s.locks, L.FinalCheck(t));
    assert L.Enabled(checked, L.ExecRelease(t)) && L.Apply(checked, L.ExecRelease(t)) == Returned(s.locks, t, key);
    LockStep(d, s, L.FinalCheck(t), checked);
    LockStep(d, s.(locks := checked), L.ExecRelease(t), Returned(s.locks, t, key));
  }

  // ----- a whole section under the index lock

  /** What a section under the index lock has come to: it has read the list, or also written it back. */
  function Relisting(task: I.Task, copy: seq<RoomId>, finished: bool): I.Task
    requires task.Adding? || task.Removing?
  {
    if task.Adding? then I.Adding(task.room, Some(copy), finished) else I.Removing(task.room, Some(copy), finished)
  }

  function NewIndex(task: I.Task, ids: seq<RoomId>): seq<RoomId>
    requires task.Adding? || task.Removing?
  {
    if task.Adding? then ids + [task.room] else Without(ids, task.room)
  }

  /** The section has work to do on this list. */
  predicate Fresh(task: I.Task, ids: seq<RoomId>) {
    (task == I.Adding(task.room, None, false) && task.room !in ids)
    || (task == I.Removing(task.room, None, false) && task.room in ids)
  }

  /** It reads the list. */
  lemma CopyIndex(d: Discipline, s: State, t: Token) returns (end: State)
    requires Reachable(d, s) && Holds(s.locks, t, IndexLock) && t in s.tasks && Fresh(s.tasks[t], s.View().Index())
    ensures Reachable(d, end) && end.locks == s.locks && end.rooms == s.rooms
    ensures end.before == s.before && end.after == s.after && s.listed <= end.listed
    ensures end.tasks == s.tasks[t := Relisting(s.tasks[t], s.View().Index(), false)]
  {
    end := ReadKey(d, s, t, RoomIndex, I.ReadIndex(t));
  }

  /** It writes the list back. */
  lemma WriteCopy(d: Discipline, s: State, t: Token, task: I.Task, ids: seq<RoomId>) returns (end: State)
    requires Reachable(d, s) && Holds(s.locks, t, IndexLock) && Fresh(task, ids)
    requires t in s.tasks && s.tasks[t] == Relisting(task, ids, false)
    ensures Reachable(d, end) && end.locks == Written(s.locks, L.Write(0, RoomIndex, Some(Ids(NewIndex(task, ids)))))
    ensures end.before == s.before && end.after == s.after && end.rooms == s.rooms && s.listed <= end.listed
    ensures forall r :: r in NewIndex(task, ids) ==> r in end.listed
    ensures end.tasks == s.tasks[t := Relisting(task, ids, true)]
  {
    HolderIsAccepted(d, s, t);
    end := WriteKey(d, s, t, IndexLock, L.Write(0, RoomIndex, Some(Ids(NewIndex(task, ids)))), I.WriteIndex(t));
    assert end.View().Index() == NewIndex(task, ids);
  }

  lemma HolderIsAccepted(d: Discipline, s: State, t: Token)
    requires Reachable(d, s) && Holds(s.locks, t, IndexLock)
    ensures s.View().store.Current(t) && s.View().store.grants[t].lock == IndexLock
  {
    ReachableInv(d, s);
    ValidLeaseIsCurrent(s.locks, t);
  }

  lemma TakenHolds(l: L.State, t: Token, key: LockKey, w: L.Write)
    requires key !in l.db.locks
    ensures Holds(Taken(l, t, key), t, key) && Holds(Written(Taken(l, t, key), w), t, key)
  {
  }

  /** The locks after a whole section that has written one key and returned. */
  function Updated(l: L.State, t: Token, key: LockKey, w: L.Write): L.State {
    Returned(Written(Taken(l, t, key), w), t, key)
  }

  /** A section that has just taken the index lock, to its normal return. */
  lemma UpdateIndex(d: Discipline, s: State, l: L.State, t: Token, task: I.Task, ids: seq<RoomId>) returns (end: State)
    requires Reachable(d, s) && IndexLock !in l.db.locks && s.locks == Taken(l, t, IndexLock)
    requires t in s.tasks && s.tasks[t] == task && s.View().Index() == ids && Fresh(task, ids)
    ensures Reachable(d, end) && end.before == s.before && end.after == s.after && end.rooms == s.rooms
    ensures end.locks == Updated(l, t, IndexLock, L.Write(0, RoomIndex, Some(Ids(NewIndex(task, ids)))))
    ensures end.tasks == s.tasks[t := Relisting(task, ids, true)]
    ensures s.listed <= end.listed && forall r :: r in NewIndex(task, ids) ==> r in end.listed
  {
    var w := L.Write(0, RoomIndex, Some(Ids(NewIndex(task, ids))));
    TakenHolds(l, t, IndexLock, w);
    var s1 := CopyIndex(d, s, t);
    var s2 := WriteCopy(d, s1, t, task, ids);
    assert s2.tasks == s.tasks[t := Relisting(task, ids, true)];
    end := s2.(locks := Updated(l, t, IndexLock, w));
    ReturnNormally(d, s2, t, IndexLock);
  }

  // ----- the run

  lemma Start(d: Discipline, s: State)
    requires Init(s)
    ensures Reachable(d, s)
  {
    var none: seq<Event> := [];
    assert Run(d, [s], none) && [s][|none|] == s;
  }

  /** The room 0 is saved for the first time. */
  lemma SaveRoom(d: Discipline) returns (s: State)
    ensures Reachable(d, s) && s.tasks == map[] && s.rooms == map[0 := I.Saved]
    ensures s.locks == L.State(0, Db(map[], map[], map[RoomRecord(0) := Document(0)]), map[])
  {
    var s0 := State(L.State(0, Db(map[], map[], map[]), map[]), map[], map[], {}, {}, {});
    Start(d, s0);
    var s1 := IndexStep(d, s0, I.OpenRoom(0));
    assert s1.rooms == map[0 := I.Opening] && s1.tasks == map[];
    s := ExecFirstSave(d, s1);
  }

  lemma ExecFirstSave(d: Discipline, s: State) returns (end: State)
    requires Reachable(d, s) && s.locks == L.State(0, Db(map[], map[], map[]), map[])
    requires s.rooms == map[0 := I.Opening] && s.tasks == map[]
    ensures Reachable(d, end) && end.rooms == map[0 := I.Saved] && end.tasks == map[]
    ensures end.locks == L.State(0, Db(map[], map[], map[RoomRecord(0) := Document(0)]), map[])
  {
    var next := L.State(0, Db(map[], map[], map[RoomRecord(0) := Document(0)]), map[]);
    var s1 := BothStep(d, s, L.UnlockedWrite(RoomRecord(0), Some(Document(0))), I.ExecCreate(0, 0), next);
    assert s1.rooms == map[0 := I.Written] && s1.tasks == map[];
    end := IndexStep(d, s1, I.SettleCreate(0));
    assert end.rooms == map[0 := I.Saved];
  }

  /** Its creation takes the index lock. */
  lemma BeginListing(d: Discipline) returns (end: State, l: L.State)
    ensures Reachable(d, end) && end.locks == Taken(l, 1, IndexLock)
    ensures end.rooms == map[0 := I.Saved] && end.tasks == map[1 := I.Adding(0, None, false)]
    ensures l == L.State(0, Db(map[], map[], map[RoomRecord(0) := Document(0)]), map[])
  {
    var s := SaveRoom(d);
    l := s.locks;
    end := TakeLock(d, s, 1, IndexLock, I.BeginAdd(0, 1));
  }

  predicate ListedIn(values: map<StateKey, Value>, ids: seq<RoomId>) {
    RoomIndex in values && values[RoomIndex] == Ids(ids)
  }

  /** It is listed, and its creation returns. */
  predicate CreatedAndListed(s: State) {
    && s.rooms == map[0 := I.Created] && s.tasks.Keys == {1} && s.locks.sections.Keys == {1} && 0 in s.listed
    && s.locks.now == 0 && s.locks.db.locks == map[] && RoomLock(0) !in s.locks.db.fences
    && ListedIn(s.locks.db.values, [0]) && RoomRecord(0) in s.locks.db.values
  }

  lemma CreateRoom(d: Discipline) returns (end: State)
    ensures Reachable(d, end) && CreatedAndListed(end)
  {
    var s, l := BeginListing(d);
    assert s.View().Index() == [] && [] + [0] == [0];
    var s1 := UpdateIndex(d, s, l, 1, I.Adding(0, None, false), []);
    assert s1.locks.db.locks == map[];
    end := FinishCreation(d, s1);
  }

  lemma FinishCreation(d: Discipline, s: State) returns (end: State)
    requires Reachable(d, s) && s.rooms == map[0 := I.Saved] && 1 in s.tasks
      && s.tasks[1] == I.Adding(0, Some([]), true)
    requires 0 in s.listed
    ensures Reachable(d, end) && end.locks == s.locks && end.tasks == s.tasks && 0 in end.listed
    ensures end.rooms == map[0 := I.Created]
  {
    end := IndexStep(d, s, I.ReturnCreated(0, 1));
    assert end.rooms == map[0 := I.Created];
  }

  /** The reconciler, section 2, has taken the room's lock, and its lease check before the read passes. */
  predicate CheckedBefore(s: State, now: int) {
    && s.rooms == map[0 := I.Created] && s.tasks.Keys == {1, 2} && s.tasks[2] == I.Reconciling(0, I.Unread)
      && 2 in s.before
    && s.locks.now == now && s.locks.sections.Keys == {1, 2} && s.locks.sections[2] == Holder(RoomLock(0), 1, 0)
    && s.locks.db.Latest(RoomLock(0)) == 1
    && ListedIn(s.locks.db.values, [0]) && RoomRecord(0) in s.locks.db.values
  }

  lemma CheckBeforeRead(d: Discipline) returns (end: State)
    ensures Reachable(d, end) && CheckedBefore(end, 0)
    ensures end.locks.db.locks == map[RoomLock(0) := LockEntry(2, LOCK_TTL_MS)]
  {
    var s := CreateRoom(d);
    var s1 := TakeLock(d, s, 2, RoomLock(0), I.BeginReconcile(0, 2));
    end := s1.(before := s1.before + {2});
    PassCheck(d, s1, 2, RoomLock(0));
  }

  lemma PassCheck(d: Discipline, s: State, t: Token, key: LockKey)
    requires Reachable(d, s) && Holds(s.locks, t, key)
    requires t in s.tasks && s.tasks[t].Reconciling? && s.tasks[t].seen.Unread?
    ensures Reachable(d, s.(before := s.before + {t}))
  {
    Step(d, s, Check(t));
  }

  /** Then it stalls until its lock has expired. */
  lemma Stall(d: Discipline) returns (end: State)
    ensures Reachable(d, end) && CheckedBefore(end, LOCK_TTL_MS) && end.locks.db.locks == map[]
  {
    var s := CheckBeforeRead(d);
    var late := L.Apply(s.locks, L.Advance(LOCK_TTL_MS));
    LockStep(d, s, L.Advance(LOCK_TTL_MS), late);
    var gone := L.Apply(late, L.ExpireLock(RoomLock(0)));
    end := s.(locks := gone);
    LockStep(d, s.(locks := late), L.ExpireLock(RoomLock(0)), gone);
    assert gone.db.locks == map[];
  }

  /** A request, section 3, takes the lock, reads the record, and may save it. */
  predicate RequestAtWork(s: State) {
    && s.rooms == map[0 := I.Created] && s.tasks.Keys == {1, 2, 3} && 2 in s.before && s.tasks[2].Reconciling?
      && s.tasks[2].room == 0
    && s.tasks[3] == I.Serving(0, I.Present) && s.locks.sections.Keys == {1, 2, 3}
    && s.locks.sections[2] == Holder(RoomLock(0), 1, 0) && !s.locks.sections[2].lease.IsValid(s.locks.Clock(2))
    && s.locks.sections[3] == Holder(RoomLock(0), 2, s.locks.now) && s.locks.db.Latest(RoomLock(0)) == 2
    && s.locks.db.locks == map[RoomLock(0) := LockEntry(3, s.locks.now + LOCK_TTL_MS)]
    && ListedIn(s.locks.db.values, [0])
  }

  lemma RequestReads(d: Discipline) returns (end: State)
    ensures Reachable(d, end) && RequestAtWork(end) && end.tasks[2].seen.Unread? && RoomRecord(0) in end.locks.db.values
  {
    var s := Stall(d);
    var s1 := TakeLock(d, s, 3, RoomLock(0), I.BeginServe(0, 3));
    end := ReadKey(d, s1, 3, RoomRecord(0), I.ReadRecord(3));
  }

  /** The record's time to live runs out. */
  lemma RecordExpires(d: Discipline) returns (end: State)
    ensures Reachable(d, end) && RequestAtWork(end) && end.tasks[2].seen.Unread? && !end.View().Exists(0)
  {
    var s := RequestReads(d);
    var expired := L.Apply(s.locks, L.ExpireValue(RoomRecord(0)));
    end := BothStep(d, s, L.ExpireValue(RoomRecord(0)), I.ExpireRecord(0), expired);
  }

  /** Only now the reconciler reads. */
  lemma StaleRead(d: Discipline) returns (end: State)
    ensures Reachable(d, end) && RequestAtWork(end) && end.tasks[2].seen.Absent?
  {
    var s := RecordExpires(d);
    end := ReadKey(d, s, 2, RoomRecord(0), I.ReadRecord(2));
  }

  /** The request saves the record under its lease, and returns normally. */
  lemma SaveAndReturn(d: Discipline) returns (end: State)
    ensures Reachable(d, end) && end.rooms == map[0 := I.Created] && end.locks.db.locks == map[]
    ensures 2 in end.tasks && end.tasks[2] == I.Reconciling(0, I.Absent) && 2 in end.before
    ensures end.locks.sections.Keys == {1, 2, 3} && end.locks.sections[3].phase == L.Ended(true)
    ensures RoomRecord(0) in end.locks.db.values && ListedIn(end.locks.db.values, [0])
  {
    var s := StaleRead(d);
    var w := L.Write(0, RoomRecord(0), Some(Document(1)));
    var s1 := WriteKey(d, s, 3, RoomLock(0), w, I.SaveRecord(3, 1));
    ReturnNormally(d, s1, 3, RoomLock(0));
    end := s1.(locks := Returned(s1.locks, 3, RoomLock(0)));
    assert end.locks.db.locks == map[];
  }

  /**
    The run that unlists a live room, with all leases and lease checks in place, and with a check of the reconciler's
    lease that passed before its read: the request that had read the record under a valid lease saves it under that
    lease and returns, and a section under the index lock, with a valid lease, takes the room from the index and
    returns.
   */
  lemma CheckBeforeIsNotEnough(d: Discipline) returns (end: State)
    requires !d.CheckAfter?
    ensures Reachable(d, end) && !S.Safe(end.View())
    ensures 2 in end.before && 2 in end.tasks && end.tasks[2] == I.Reconciling(0, I.Absent)
    ensures forall t :: t in {3, 4} ==> t in end.locks.sections && end.locks.sections[t].phase == L.Ended(true)
  {
    var s := SaveAndReturn(d);
    var s1 := TakeLock(d, s, 4, IndexLock, I.BeginRemove(2, 4));
    end := UpdateIndex(d, s1, s.locks, 4, I.Removing(0, None, false), [0]);
    assert Without([0], 0) == [];
    assert end.View().Index() == [] && I.Stage(end.View(), 0, I.Created) && end.View().Exists(0);
  }

  /** Without the locks, and with any number of sections under one of them, such a run exists all the more. */
  lemma IndexIsNotAlwaysSafe() returns (states: seq<I.State>, events: seq<I.IndexEvent>)
    ensures S.IndexRun(states, events) && !S.Safe(states[|events|])
  {
    var s := CheckBeforeIsNotEnough(AsWritten);
    var a: seq<State>, es: seq<Event> :| Run(AsWritten, a, es) && a[|es|] == s;
    states, events := RunIsIndexRun(AsWritten, a, es, |es|);
  }

  ghost predicate AlwaysSafe(d: Discipline) {
    forall s :: Reachable(d, s) ==> S.Safe(s.View())
  }

  /** The index is safe in all runs if and only if reconcilers check their leases after they have found no record. */
  lemma IndexIsSafeIff(d: Discipline)
    ensures AlwaysSafe(d) <==> d.CheckAfter?
  {
    if d.CheckAfter? {
      forall s | Reachable(d, s) ensures S.Safe(s.View()) {
        var states: seq<State>, events: seq<Event> :| Run(d, states, events) && states[|events|] == s;
        CheckAfterReadKeepsIndexSafe(states, events, |events|);
      }
    } else {
      var s := CheckBeforeIsNotEnough(d);
    }
  }
}
