/** Exactly when the reconciler may go on: index safety fails if and only if it has read a stale absence. */
module RoomIndexExactness {
  import opened Names
  import opened RoomIndexProtocol
  import opened RoomIndexSafety

  /** A run that starts in `s` instead of in the empty state, and in which no reconciler is stale. */
  ghost predicate Continues(s: State, states: seq<State>, events: seq<IndexEvent>) {
    && Follows(states, events)
    && states[0] == s
    && forall i :: 0 <= i < |events| ==> !StaleAbsence(states[i], events[i])
  }

  lemma {:induction false} ContinuationKeepsInv(s: State, states: seq<State>, events: seq<IndexEvent>, i: nat)
    requires Continues(s, states, events) && BaseInv(s) && i < |states|
    ensures BaseInv(states[i])
    ensures SafetyInv(s, Everybody) ==> SafetyInv(states[i], Everybody)
  {
    if i > 0 {
      ContinuationKeepsInv(s, states, events, i - 1);
      StepKeepsBaseInv(states[i - 1], events[i - 1]);
      if SafetyInv(s, Everybody) {
        StepKeepsSafetyInv(states[i - 1], events[i - 1], Everybody);
      }
    }
  }

  lemma {:induction false} DeadThroughout(s: State, states: seq<State>, events: seq<IndexEvent>, r: RoomId, i: nat)
    requires Continues(s, states, events) && BaseInv(s) && Dead(s, r) && i < |states|
    ensures Dead(states[i], r)
  {
    if i > 0 {
      DeadThroughout(s, states, events, r, i - 1);
      ContinuationKeepsInv(s, states, events, i - 1);
      DeadStaysDead(states[i - 1], events[i - 1], r);
    }
  }

  /** A record that is gone can come back if and only if the room is revivable. */
  lemma RecordReturnsIffRevivable(s: State, r: RoomId)
    requires BaseInv(s) && Settled(s, r) && !s.Exists(r)
    ensures Revivable(s, r) <==>
      exists states: seq<State>, events: seq<IndexEvent> :: Continues(s, states, events) && states[|events|].Exists(r)
  {
    if Revivable(s, r) {
      var t :| t in s.tasks && s.tasks[t] == Serving(r, Present) && s.store.Current(t);
      var e := SaveRecord(t, 0);
      assert Continues(s, [s, IndexApply(s, e)], [e]);
      assert [s, IndexApply(s, e)][|[e]|].Exists(r);
    } else {
      forall states: seq<State>, events: seq<IndexEvent> | Continues(s, states, events)
        ensures !states[|events|].Exists(r)
      {
        DeadThroughout(s, states, events, r, |events|);
      }
    }
  }

  lemma {:induction false} FreshToken(used: set<Token>) returns (v: Token)
    ensures forall t :: t in used ==> t < v
  {
    if used == {} {
      v := 0;
    } else {
      var t :| t in used;
      var w := FreshToken(used - {t});
      v := if t < w then w else t + 1;
      assert forall x :: x in used ==> x == t || x in used - {t};
    }
  }

  /**
    The code's own promise fails exactly at a stale absence. When a listed, created room has lost its record, the
    reconciler may go on after reading that there is none if and only if no newer section can still save it:
    otherwise the save lands, the reconciler unlists the room all the same, and a live room is missing.
   */
  lemma ReconcilerIsSafeIffNotStale(s: State, t: Token, r: RoomId)
    requires BaseInv(s) && SafetyInv(s, Everybody) && t in s.tasks && s.tasks[t] == Reconciling(r, Unread)
    requires !s.Exists(r) && Stage(s, r, Created) && r in s.Index()
    ensures !StaleAbsence(s, ReadRecord(t)) <==>
      forall states: seq<State>, events: seq<IndexEvent> ::
        Continues(IndexApply(s, ReadRecord(t)), states, events) ==> Safe(states[|events|])
  {
    var s1 := IndexApply(s, ReadRecord(t));
    StepKeepsBaseInv(s, ReadRecord(t));
    if StaleAbsence(s, ReadRecord(t)) {
      var states, events := UnlistLiveRoom(s, t, r);
    } else {
      StepKeepsSafetyInv(s, ReadRecord(t), Everybody);
      forall states: seq<State>, events: seq<IndexEvent> | Continues(s1, states, events)
        ensures Safe(states[|events|])
      {
        ContinuationKeepsInv(s1, states, events, |events|);
      }
    }
  }

  /** How a stale reconciler unlists a live room: the newer section saves, then the removal goes through. */
  lemma UnlistLiveRoom(s: State, t: Token, r: RoomId) returns (states: seq<State>, events: seq<IndexEvent>)
    requires BaseInv(s) && t in s.tasks && s.tasks[t] == Reconciling(r, Unread)
    requires !s.Exists(r) && Stage(s, r, Created) && r in s.Index() && Revivable(s, r)
    ensures Continues(IndexApply(s, ReadRecord(t)), states, events) && !Safe(states[|events|])
  {
    var u :| u in s.tasks && s.tasks[u] == Serving(r, Present) && s.store.Current(u);
    var s1 := IndexApply(s, ReadRecord(t));
    StepKeepsBaseInv(s, ReadRecord(t));
    SaveLands(s1, u);
    states, events := RemoveFromIndex(IndexApply(s1, SaveRecord(u, 0)), t, r);
    ContinueAfter(s1, SaveRecord(u, 0), states, events);
    states, events := [s1] + states, [SaveRecord(u, 0)] + events;
    assert r !in states[|events|].Index() && Stage(states[|events|], r, Created);
  }

  lemma SaveLands(s: State, u: Token)
    requires BaseInv(s) && u in s.tasks && s.tasks[u].Serving? && s.tasks[u].seen.Present? && s.store.Current(u)
    ensures BaseInv(IndexApply(s, SaveRecord(u, 0)))
    ensures IndexApply(s, SaveRecord(u, 0)).Exists(s.tasks[u].room)
    ensures IndexApply(s, SaveRecord(u, 0)).Index() == s.Index()
    ensures IndexApply(s, SaveRecord(u, 0)).tasks == s.tasks && IndexApply(s, SaveRecord(u, 0)).rooms == s.rooms
  {
    StepKeepsBaseInv(s, SaveRecord(u, 0));
  }

  lemma ContinueAfter(s: State, e: IndexEvent, states: seq<State>, events: seq<IndexEvent>)
    requires WellTasked(s) && IndexEnabled(s, e) && !StaleAbsence(s, e) && Continues(IndexApply(s, e), states, events)
    ensures Continues(s, [s] + states, [e] + events)
    ensures ([s] + states)[|[e] + events|] == states[|events|]
  {
  }

  /** A section that may remove `r` from the index, undisturbed, does so and changes nothing else. */
  lemma RemoveFromIndex(s: State, p: Token, r: RoomId) returns (states: seq<State>, events: seq<IndexEvent>)
    requires BaseInv(s) && p in s.tasks && MayRemove(s.tasks[p]) && s.tasks[p].room == r && r in s.Index()
    ensures Continues(s, states, events)
    ensures states[|events|].Exists(r) == s.Exists(r) && states[|events|].rooms == s.rooms
    ensures r !in states[|events|].Index()
  {
    var v := FreshToken(s.store.grants.Keys);
    var s1 := IndexApply(s, BeginRemove(p, v));
    StepKeepsStoreInv(s, BeginRemove(p, v));
    states, events := RewriteIndex(s1, v);
    ContinueAfter(s, BeginRemove(p, v), states, events);
    states, events := [s] + states, [BeginRemove(p, v)] + events;
  }

  lemma RewriteIndex(s: State, v: Token) returns (states: seq<State>, events: seq<IndexEvent>)
    requires StoreInv(s) && v in s.tasks && s.store.Current(v)
    requires s.tasks[v].Removing? && s.tasks[v].copy.None? && !s.tasks[v].finished && s.tasks[v].room in s.Index()
    ensures Continues(s, states, events)
    ensures states[|events|].rooms == s.rooms
    ensures states[|events|].Index() == Without(s.Index(), s.tasks[v].room)
    ensures forall r :: states[|events|].Exists(r) == s.Exists(r)
  {
    var s1 := IndexApply(s, ReadIndex(v));
    StepKeepsStoreInv(s, ReadIndex(v));
    states := [s, s1, IndexApply(s1, WriteIndex(v))];
    events := [ReadIndex(v), WriteIndex(v)];
  }
}
