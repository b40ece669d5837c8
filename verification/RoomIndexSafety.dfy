/** What every interleaving of the index protocol keeps, and exactly when the reconciler may unlist a room. */
module RoomIndexSafety {
  import opened Names
  import opened FencedStore
  import opened RoomIndexProtocol

  predicate NoDuplicates(ids: seq<RoomId>) {
    forall i, j :: 0 <= i < j < |ids| ==> ids[i] != ids[j]
  }

  /** The first save of the room has taken effect, or never will. */
  predicate Settled(s: State, r: RoomId) {
    r in s.rooms && !s.rooms[r].Opening?
  }

  /** Sections work on rooms that were really created; one under the index lock copied only rooms once listed. */
  ghost predicate TaskHistory(s: State, t: Token)
    requires t in s.tasks
  {
    var task := s.tasks[t];
    && (task.Adding? ==> Settled(s, task.room) && (task.finished ==> task.room in s.listed))
    && (task.Reconciling? || (task.Serving? && (task.seen.Present? || task.seen.Deleted?)) ==> Settled(s, task.room))
    && ((task.Adding? || task.Removing?) && task.copy.Some? ==> forall r :: r in task.copy.value ==> r in s.listed)
  }

  ghost predicate RoomHistory(s: State) {
    && (forall r :: r in s.Index() ==> r in s.listed)
    && (forall r :: r in s.listed || s.Exists(r) ==> Settled(s, r))
    && (forall r :: r in s.rooms && s.rooms[r].Created? ==> r in s.listed)
  }

  ghost predicate TasksHistory(s: State) {
    forall t :: t in s.tasks ==> TaskHistory(s, t)
  }

  /** The newest section under the index lock, once it has read the list, has a copy that is still exact. */
  ghost predicate CopyExact(s: State, t: Token)
    requires t in s.tasks
  {
    var task := s.tasks[t];
    (task.Adding? || task.Removing?) && s.store.Current(t) && task.copy.Some? && !task.finished ==>
      task.copy.value == s.Index()
  }

  ghost predicate CopiesExact(s: State) {
    forall t :: t in s.tasks ==> CopyExact(s, t)
  }

  ghost predicate StoreInv(s: State) {
    && FencedStore.Inv(s.store)
    && WellTasked(s)
    && (RoomIndex in s.store.values ==> s.store.values[RoomIndex].Ids?)
  }

  /** What holds in every run, whatever the reconciler does. */
  ghost predicate BaseInv(s: State) {
    && StoreInv(s)
    && NoDuplicates(s.Index())
    && CopiesExact(s)
    && TasksHistory(s)
    && RoomHistory(s)
  }

  ghost predicate Init(s: State) {
    s == State(Store(map[], map[], map[]), map[], map[], {})
  }

  lemma {:induction false} WithoutKeepsDistinct(ids: seq<RoomId>, r: RoomId)
    requires NoDuplicates(ids)
    ensures NoDuplicates(Without(ids, r))
  {
    if ids != [] {
      WithoutKeepsDistinct(ids[1..], r);
      assert ids[0] !in ids[1..];
    }
  }

  /**
    The index evolves as atomic additions and removals: whatever copy the section read and however long it
    stalled, a step leaves the list alone, appends one new room, or removes one room from the list as it is.
   */
  lemma IndexStepsAreAtomic(s: State, e: IndexEvent)
    requires StoreInv(s) && CopiesExact(s) && IndexEnabled(s, e)
    ensures
      || IndexApply(s, e).Index() == s.Index()
      || (e.WriteIndex? && s.store.Current(e.t) && s.tasks[e.t].Adding? && s.tasks[e.t].room !in s.Index()
          && IndexApply(s, e).Index() == s.Index() + [s.tasks[e.t].room])
      || (e.WriteIndex? && s.store.Current(e.t) && s.tasks[e.t].Removing? && s.tasks[e.t].room in s.Index()
          && IndexApply(s, e).Index() == Without(s.Index(), s.tasks[e.t].room))
  {
    StoreStepEnabled(s, e);
    if e.WriteIndex? && Accepted(s.store, StoreEvent(s, e)) {
      assert s.store.Current(e.t) && CopyExact(s, e.t);
    }
  }

  lemma StepKeepsTasked(s: State, e: IndexEvent)
    requires WellTasked(s) && IndexEnabled(s, e)
    ensures WellTasked(IndexApply(s, e))
  {
    StoreStepEnabled(s, e);
  }

  lemma StepKeepsStoreInv(s: State, e: IndexEvent)
    requires StoreInv(s) && IndexEnabled(s, e)
    ensures StoreInv(IndexApply(s, e))
  {
    StepKeepsTasked(s, e);
    StoreStepEnabled(s, e);
    ApplyKeepsInv(s.store, StoreEvent(s, e));
    assert IndexApply(s, e).store == Apply(s.store, StoreEvent(s, e));
  }

  /** The section whose own task the event changes, if any. */
  predicate Acts(e: IndexEvent, t: Token) {
    match e
    case BeginAdd(_, u) => t == u
    case BeginServe(_, u) => t == u
    case BeginReconcile(_, u) => t == u
    case BeginRemove(_, u) => t == u
    case ReadRecord(u) => t == u
    case DeleteRecord(u) => t == u
    case ReadIndex(u) => t == u
    case WriteIndex(u) => t == u
    case _ => false
  }

  lemma OthersUnchanged(s: State, e: IndexEvent, t: Token)
    requires StoreInv(s) && IndexEnabled(s, e) && !Acts(e, t)
    ensures t in s.tasks <==> t in IndexApply(s, e).tasks
    ensures t in s.tasks ==> IndexApply(s, e).tasks[t] == s.tasks[t]
    ensures t in s.tasks && IndexApply(s, e).store.Current(t) ==> s.store.Current(t)
  {
    StoreStepEnabled(s, e);
  }

  lemma StepKeepsCopies(s: State, e: IndexEvent)
    requires StoreInv(s) && CopiesExact(s) && IndexEnabled(s, e)
    ensures CopiesExact(IndexApply(s, e))
  {
    var s' := IndexApply(s, e);
    forall t | t in s'.tasks ensures CopyExact(s', t) {
      if Acts(e, t) {
        ActorKeepsCopy(s, e, t);
      } else {
        OthersUnchanged(s, e, t);
        assert CopyExact(s, t);
        IndexStepsAreAtomic(s, e);
      }
    }
  }

  lemma ActorKeepsCopy(s: State, e: IndexEvent, t: Token)
    requires StoreInv(s) && CopiesExact(s) && IndexEnabled(s, e) && Acts(e, t) && t in IndexApply(s, e).tasks
    ensures CopyExact(IndexApply(s, e), t)
  {
    StoreStepEnabled(s, e);
    if e.WriteIndex? {
      assert CopyExact(s, t);
    }
  }

  lemma SettledStays(s: State, e: IndexEvent, r: RoomId)
    requires StoreInv(s) && IndexEnabled(s, e) && Settled(s, r)
    ensures Settled(IndexApply(s, e), r)
  {
  }

  lemma StepKeepsTasksHistory(s: State, e: IndexEvent)
    requires StoreInv(s) && CopiesExact(s) && TasksHistory(s) && RoomHistory(s) && IndexEnabled(s, e)
    ensures TasksHistory(IndexApply(s, e))
  {
    var s' := IndexApply(s, e);
    forall t | t in s'.tasks ensures TaskHistory(s', t) {
      if Acts(e, t) {
        ActorKeepsHistory(s, e, t);
      } else {
        OthersUnchanged(s, e, t);
        OtherKeepsHistory(s, e, t);
      }
    }
  }

  lemma OtherKeepsHistory(s: State, e: IndexEvent, t: Token)
    requires StoreInv(s) && IndexEnabled(s, e) && t in s.tasks && TaskHistory(s, t)
    requires t in IndexApply(s, e).tasks && IndexApply(s, e).tasks[t] == s.tasks[t]
    ensures TaskHistory(IndexApply(s, e), t)
  {
    if Settled(s, s.tasks[t].room) {
      SettledStays(s, e, s.tasks[t].room);
    }
  }

  lemma ActorKeepsHistory(s: State, e: IndexEvent, t: Token)
    requires StoreInv(s) && CopiesExact(s) && TasksHistory(s) && RoomHistory(s) && IndexEnabled(s, e)
    requires Acts(e, t) && t in IndexApply(s, e).tasks
    ensures TaskHistory(IndexApply(s, e), t)
  {
    if t in s.tasks {
      assert TaskHistory(s, t);
    }
    if e.WriteIndex? && s.tasks[t].Adding? && !AlreadyDone(s.tasks[t]) && Accepted(s.store, StoreEvent(s, e)) {
      assert s.tasks[t].room in IndexApply(s, e).Index();
    }
  }

  lemma StepKeepsRoomHistory(s: State, e: IndexEvent)
    requires StoreInv(s) && CopiesExact(s) && TasksHistory(s) && RoomHistory(s) && IndexEnabled(s, e)
    ensures RoomHistory(IndexApply(s, e))
  {
    var s' := IndexApply(s, e);
    IndexStepsAreAtomic(s, e);
    if e.WriteIndex? || e.ReturnCreated? || e.SaveRecord? {
      assert TaskHistory(s, e.t);
    }
    forall r | r in s'.listed || s'.Exists(r) ensures Settled(s', r) {
      if Settled(s, r) {
        SettledStays(s, e, r);
      }
    }
  }

  lemma StepKeepsBaseInv(s: State, e: IndexEvent)
    requires BaseInv(s) && IndexEnabled(s, e)
    ensures BaseInv(IndexApply(s, e))
  {
    StepKeepsStoreInv(s, e);
    IndexStepsAreAtomic(s, e);
    if e.WriteIndex? {
      WithoutKeepsDistinct(s.Index(), s.tasks[e.t].room);
    }
    StepKeepsCopies(s, e);
    StepKeepsTasksHistory(s, e);
    StepKeepsRoomHistory(s, e);
  }

  /** The newest section of a room's lock has read the record and may still save it. */
  ghost predicate Revivable(s: State, r: RoomId) {
    exists t :: t in s.tasks && s.tasks[t] == Serving(r, Present) && s.store.Current(t)
  }

  /** A room whose record is gone for good. */
  ghost predicate Dead(s: State, r: RoomId) {
    !s.Exists(r) && Settled(s, r) && !Revivable(s, r)
  }

  /** Whatever happens, a dead room stays dead: fencing refuses every section that once saw its record. */
  lemma DeadStaysDead(s: State, e: IndexEvent, r: RoomId)
    requires StoreInv(s) && IndexEnabled(s, e) && Dead(s, r)
    ensures Dead(IndexApply(s, e), r)
  {
    StoreStepEnabled(s, e);
    var s' := IndexApply(s, e);
    if Revivable(s', r) {
      var t :| t in s'.tasks && s'.tasks[t] == Serving(r, Present) && s'.store.Current(t);
      if !Acts(e, t) {
        OthersUnchanged(s, e, t);
        assert Revivable(s, r);
      }
    }
  }

  /** The reconcilers that may have a room unlisted once they have found no record of it. */
  datatype Trust = Everybody | Only(tokens: set<Token>)
  {
    predicate Has(t: Token) {
      Everybody? || t in tokens
    }
  }

  /** The section is unlisting a room, or may go on to unlist it; a reconciler that is not trusted goes no further. */
  ghost predicate Unlisting(s: State, t: Token, trust: Trust)
    requires t in s.tasks
  {
    s.tasks[t].Removing? || (MayRemove(s.tasks[t]) && (s.tasks[t].Reconciling? ==> trust.Has(t)))
  }

  /** Whoever is about to unlist a room, or is unlisting it, knows that it is dead. */
  ghost predicate Justified(s: State, t: Token, trust: Trust)
    requires t in s.tasks
  {
    Unlisting(s, t, trust) ==> Dead(s, s.tasks[t].room)
  }

  ghost predicate SafetyInv(s: State, trust: Trust) {
    && (forall t :: t in s.tasks ==> Justified(s, t, trust))
    && (forall r :: r in s.listed && r !in s.Index() ==> Dead(s, r))
  }

  /** No trusted reconciler reads a stale absence, and no other one has a room unlisted. */
  ghost predicate Trustworthy(s: State, e: IndexEvent, trust: Trust) {
    && (StaleAbsence(s, e) ==> !trust.Has(e.t))
    && (e.BeginRemove? && e.parent in s.tasks && s.tasks[e.parent].Reconciling? ==> trust.Has(e.parent))
  }


  /** The event is a reconciler finding no record while another, newer section could still save one. */
  ghost predicate StaleAbsence(s: State, e: IndexEvent) {
    && e.ReadRecord? && e.t in s.tasks && s.tasks[e.t].Reconciling?
    && !s.Exists(s.tasks[e.t].room) && Revivable(s, s.tasks[e.t].room)
  }

  lemma StepKeepsJustified(s: State, e: IndexEvent, t: Token, trust: Trust)
    requires BaseInv(s) && SafetyInv(s, trust) && IndexEnabled(s, e) && Trustworthy(s, e, trust)
    requires t in IndexApply(s, e).tasks
    ensures Justified(IndexApply(s, e), t, trust)
  {
    var s' := IndexApply(s, e);
    if Acts(e, t) {
      ActorJustified(s, e, t, trust);
    } else {
      OthersUnchanged(s, e, t);
      assert Justified(s, t, trust);
      if Unlisting(s, t, trust) {
        DeadStaysDead(s, e, s.tasks[t].room);
      }
    }
  }

  lemma ActorJustified(s: State, e: IndexEvent, t: Token, trust: Trust)
    requires BaseInv(s) && SafetyInv(s, trust) && IndexEnabled(s, e) && Trustworthy(s, e, trust)
    requires Acts(e, t) && t in IndexApply(s, e).tasks
    ensures Justified(IndexApply(s, e), t, trust)
  {
    if e.BeginRemove? {
      assert Justified(s, e.parent, trust);
      DeadStaysDead(s, e, s.tasks[e.parent].room);
    } else if e.ReadRecord? {
      AbsenceJustified(s, t, trust);
    } else if e.DeleteRecord? {
      DeletionJustified(s, t, trust);
    } else if e.ReadIndex? || e.WriteIndex? {
      assert Justified(s, t, trust);
      if s.tasks[t].Removing? {
        DeadStaysDead(s, e, s.tasks[t].room);
      }
    }
  }

  lemma AbsenceJustified(s: State, t: Token, trust: Trust)
    requires BaseInv(s) && IndexEnabled(s, ReadRecord(t)) && Trustworthy(s, ReadRecord(t), trust)
    ensures Justified(IndexApply(s, ReadRecord(t)), t, trust)
  {
    var r := s.tasks[t].room;
    assert TaskHistory(s, t);
    if s.tasks[t].Reconciling? && !s.Exists(r) && trust.Has(t) {
      DeadStaysDead(s, ReadRecord(t), r);
    }
  }

  lemma DeletionJustified(s: State, t: Token, trust: Trust)
    requires BaseInv(s) && IndexEnabled(s, DeleteRecord(t))
    ensures Justified(IndexApply(s, DeleteRecord(t)), t, trust)
  {
    assert TaskHistory(s, t);
  }

  lemma StepKeepsListing(s: State, e: IndexEvent, r: RoomId, trust: Trust)
    requires BaseInv(s) && SafetyInv(s, trust) && IndexEnabled(s, e)
    requires r in IndexApply(s, e).listed && r !in IndexApply(s, e).Index()
    ensures Dead(IndexApply(s, e), r)
  {
    IndexStepsAreAtomic(s, e);
    if r in s.Index() {
      assert Justified(s, e.t, trust);
    }
    DeadStaysDead(s, e, r);
  }

  lemma StepKeepsSafetyInv(s: State, e: IndexEvent, trust: Trust)
    requires BaseInv(s) && SafetyInv(s, trust) && IndexEnabled(s, e) && Trustworthy(s, e, trust)
    ensures SafetyInv(IndexApply(s, e), trust)
  {
    var s' := IndexApply(s, e);
    forall t | t in s'.tasks ensures Justified(s', t, trust) {
      StepKeepsJustified(s, e, t, trust);
    }
    forall r | r in s'.listed && r !in s'.Index() ensures Dead(s', r) {
      StepKeepsListing(s, e, r, trust);
    }
  }

  /** The promise of the index: a room whose creation returned and whose record exists is listed. */
  ghost predicate Safe(s: State) {
    forall r :: Stage(s, r, Created) && s.Exists(r) ==> r in s.Index()
  }

  ghost predicate Follows(states: seq<State>, events: seq<IndexEvent>) {
    && |states| == |events| + 1
    && forall i :: 0 <= i < |events| ==>
      WellTasked(states[i]) && IndexEnabled(states[i], events[i]) && states[i + 1] == IndexApply(states[i], events[i])
  }

  ghost predicate IndexRun(states: seq<State>, events: seq<IndexEvent>) {
    Follows(states, events) && Init(states[0])
  }

  lemma {:induction false} RunKeepsBaseInv(states: seq<State>, events: seq<IndexEvent>, i: nat)
    requires IndexRun(states, events) && i < |states|
    ensures BaseInv(states[i])
  {
    if i > 0 {
      RunKeepsBaseInv(states, events, i - 1);
      StepKeepsBaseInv(states[i - 1], events[i - 1]);
    }
  }

  /** In every run the index stays free of duplicates. */
  lemma IndexHasNoDuplicates(states: seq<State>, events: seq<IndexEvent>, i: nat)
    requires IndexRun(states, events) && i < |states|
    ensures forall j, k :: 0 <= j < k < |states[i].Index()| ==> states[i].Index()[j] != states[i].Index()[k]
  {
    RunKeepsBaseInv(states, events, i);
  }

  lemma {:induction false} RunKeepsSafetyInv(states: seq<State>, events: seq<IndexEvent>, i: nat)
    requires IndexRun(states, events) && i < |states|
    requires forall k :: 0 <= k < i ==> !StaleAbsence(states[k], events[k])
    ensures SafetyInv(states[i], Everybody)
  {
    if i > 0 {
      RunKeepsSafetyInv(states, events, i - 1);
      RunKeepsBaseInv(states, events, i - 1);
      StepKeepsSafetyInv(states[i - 1], events[i - 1], Everybody);
    }
  }

  /**
    Index safety: in every run in which no reconciler finds a record absent that a newer section can still save,
    every room whose creation returned and whose record exists is listed.
   */
  lemma IndexIsSafe(states: seq<State>, events: seq<IndexEvent>, i: nat)
    requires IndexRun(states, events) && i < |states|
    requires forall k :: 0 <= k < i ==> !StaleAbsence(states[k], events[k])
    ensures Safe(states[i])
  {
    RunKeepsBaseInv(states, events, i);
    RunKeepsSafetyInv(states, events, i);
  }

  /** A reconciler that still holds the newest grant of its room's lock is never stale. */
  lemma CurrentReconcilerIsNeverStale(s: State, t: Token)
    requires BaseInv(s) && IndexEnabled(s, ReadRecord(t)) && s.store.Current(t)
    ensures !StaleAbsence(s, ReadRecord(t))
  {
  }

  // ----- what a reconciler knows after its read

  /** As long as a reconciler that has found no record has the newest grant, there is none. */
  ghost predicate AbsencesHold(s: State) {
    forall t :: t in s.tasks && s.tasks[t].Reconciling? && s.tasks[t].seen.Absent? && s.store.Current(t) ==>
      !s.Exists(s.tasks[t].room)
  }

  lemma StepKeepsAbsences(s: State, e: IndexEvent)
    requires BaseInv(s) && AbsencesHold(s) && IndexEnabled(s, e)
    ensures AbsencesHold(IndexApply(s, e))
  {
    var s' := IndexApply(s, e);
    forall t | t in s'.tasks && s'.tasks[t].Reconciling? && s'.tasks[t].seen.Absent? && s'.store.Current(t)
      ensures !s'.Exists(s'.tasks[t].room)
    {
      if !Acts(e, t) {
        AbsenceHoldsOn(s, e, t);
      }
    }
  }

  /** No other section gets a save of the record accepted, and the room was created before. */
  lemma AbsenceHoldsOn(s: State, e: IndexEvent, t: Token)
    requires BaseInv(s) && AbsencesHold(s) && IndexEnabled(s, e) && !Acts(e, t)
    requires t in s.tasks && s.tasks[t].Reconciling? && s.tasks[t].seen.Absent? && IndexApply(s, e).store.Current(t)
    ensures !IndexApply(s, e).Exists(s.tasks[t].room)
  {
    OthersUnchanged(s, e, t);
    assert TaskHistory(s, t);
  }

  /** A reconciler that has found no record and still has the newest grant afterwards knows that the room is dead. */
  lemma LaterGrantMeansDead(s: State, t: Token)
    requires BaseInv(s) && AbsencesHold(s) && t in s.tasks && s.store.Current(t)
    requires s.tasks[t].Reconciling? && s.tasks[t].seen.Absent?
    ensures Dead(s, s.tasks[t].room)
  {
    assert TaskHistory(s, t);
  }

  /** Who knows that its room is dead may be trusted. */
  lemma MoreTrust(s: State, trusted: set<Token>, t: Token)
    requires SafetyInv(s, Only(trusted)) && (t in s.tasks ==> Dead(s, s.tasks[t].room))
    ensures SafetyInv(s, Only(trusted + {t}))
  {
    forall u | u in s.tasks ensures Justified(s, u, Only(trusted + {t})) {
      assert Justified(s, u, Only(trusted));
    }
  }
}
