/** The retry theorem with timers: what a failed attempt has scheduled or cancelled does not outlive a repetition. */
module RoomWorldRetry {
  import opened Names
  import opened RoomModel
  import opened RoomInvariants
  import opened RoomRuns
  import opened RoomRetry
  import opened RoomStore
  import opened RoomTimerProtocol

  /** The timers that a write sets or cancels. */
  function KindOf(e: Effect): set<TimerKind> {
    if e.ScheduleTimer? || e.CancelTimer? then {e.kind} else {}
  }

  function StageKinds(stage: Stage): set<TimerKind>
    decreases stage
  {
    if stage == [] then {} else KindOf(stage[0]) + StageKinds(stage[1..])
  }

  function Kinds(stages: seq<Stage>): set<TimerKind>
    decreases stages
  {
    if stages == [] then {} else StageKinds(stages[0]) + Kinds(stages[1..])
  }

  /** The timer sets agree on all kinds but these. */
  predicate AgreeBut(a: map<TimerKind, int>, b: map<TimerKind, int>, kinds: set<TimerKind>) {
    a - kinds == b - kinds
  }

  lemma AgreeAt(a: map<TimerKind, int>, b: map<TimerKind, int>, kinds: set<TimerKind>)
    ensures AgreeBut(a, b, kinds) <==>
      forall k :: k !in kinds ==> (k in a <==> k in b) && (k in a && k in b ==> a[k] == b[k])
  {
    if AgreeBut(a, b, kinds) {
      forall k | k !in kinds ensures (k in a <==> k in b) && (k in a && k in b ==> a[k] == b[k]) {
        assert k in a <==> k in a - kinds;
        assert k in b <==> k in b - kinds;
        assert k in a ==> (a - kinds)[k] == a[k];
        assert k in b ==> (b - kinds)[k] == b[k];
      }
    }
  }

  /** A write changes no timer of another kind, and settles the timer of its own. */
  lemma WriteSettles(a: map<TimerKind, int>, b: map<TimerKind, int>, e: Effect, kinds: set<TimerKind>)
    requires AgreeBut(a, b, kinds)
    ensures AgreeBut(a, ExecTimers(b, e), kinds + KindOf(e))
    ensures AgreeBut(ExecTimers(a, e), ExecTimers(b, e), kinds - KindOf(e))
  {
    AgreeAt(a, b, kinds);
    AgreeAt(a, ExecTimers(b, e), kinds + KindOf(e));
    AgreeAt(ExecTimers(a, e), ExecTimers(b, e), kinds - KindOf(e));
  }

  lemma MoreKinds(a: map<TimerKind, int>, b: map<TimerKind, int>, kinds: set<TimerKind>, more: set<TimerKind>)
    requires AgreeBut(a, b, kinds) && kinds <= more
    ensures AgreeBut(a, b, more)
  {
    AgreeAt(a, b, kinds);
    AgreeAt(a, b, more);
  }

  lemma {:induction false} PartTouches(a: map<TimerKind, int>, w: World, stage: Stage, landed: seq<Landing>,
    kinds: set<TimerKind>)
    requires |landed| == |stage| && AgreeBut(a, w.timers, kinds)
    ensures AgreeBut(a, PartWorld(w, stage, landed).timers, kinds + StageKinds(stage))
    decreases stage
  {
    if stage == [] {
      assert kinds + StageKinds(stage) == kinds;
    } else {
      var w1 := if landed[0].Landed? then Exec(w, stage[0]) else w;
      WriteSettles(a, w.timers, stage[0], kinds);
      MoreKinds(a, w.timers, kinds, kinds + KindOf(stage[0]));
      PartTouches(a, w1, stage[1..], landed[1..], kinds + KindOf(stage[0]));
      assert kinds + KindOf(stage[0]) + StageKinds(stage[1..]) == kinds + StageKinds(stage);
    }
  }

  lemma {:induction false} StageSettles(a: map<TimerKind, int>, b: map<TimerKind, int>, stage: Stage,
    kinds: set<TimerKind>)
    requires AgreeBut(a, b, kinds)
    ensures AgreeBut(a, StageTimers(b, stage), kinds + StageKinds(stage))
    ensures AgreeBut(StageTimers(a, stage), StageTimers(b, stage), kinds - StageKinds(stage))
    decreases stage
  {
    if stage == [] {
      assert kinds + StageKinds(stage) == kinds && kinds - StageKinds(stage) == kinds;
    } else {
      var e := stage[0];
      WriteSettles(a, b, e, kinds);
      StageSettles(a, ExecTimers(b, e), stage[1..], kinds + KindOf(e));
      StageSettles(ExecTimers(a, e), ExecTimers(b, e), stage[1..], kinds - KindOf(e));
      assert kinds + KindOf(e) + StageKinds(stage[1..]) == kinds + StageKinds(stage);
      assert kinds - KindOf(e) - StageKinds(stage[1..]) == kinds - StageKinds(stage);
    }
  }

  /** An attempt, complete or not, touches only the timers its plan names. */
  lemma {:induction false} AttemptTouches(
      a: map<TimerKind, int>, w: World, stages: seq<Stage>, w': World, complete: bool, kinds: set<TimerKind>)
    requires Carried(w, stages, w', complete) && AgreeBut(a, w.timers, kinds)
    ensures AgreeBut(a, w'.timers, kinds + Kinds(stages))
    decreases stages
  {
    if stages == [] {
      assert kinds + Kinds(stages) == kinds;
    } else {
      var now := kinds + StageKinds(stages[0]);
      assert now + Kinds(stages[1..]) == kinds + Kinds(stages);
      if Carried(StageWorld(w, stages[0]), stages[1..], w', complete) {
        StageSettles(a, w.timers, stages[0], kinds);
        AttemptTouches(a, StageWorld(w, stages[0]), stages[1..], w', complete, now);
      } else {
        var landed: seq<Landing> :| |landed| == |stages[0]| && w' == PartWorld(w, stages[0], landed);
        PartTouches(a, w, stages[0], landed, kinds);
        MoreKinds(a, w'.timers, now, kinds + Kinds(stages));
      }
    }
  }

  /** Complete runs of one plan from worlds that differ only in timers of the plan end in the same world. */
  lemma {:induction false} SameEnd(v: World, w: World, stages: seq<Stage>, end: World, kinds: set<TimerKind>)
    returns (other: World)
    requires AgreeBut(v.timers, w.timers, kinds) && Carried(v, stages, end, true)
    ensures Carried(w, stages, other, true) && AgreeBut(end.timers, other.timers, kinds - Kinds(stages))
    decreases stages
  {
    if stages == [] {
      other := w;
      assert kinds - Kinds(stages) == kinds;
    } else {
      StageSettles(v.timers, w.timers, stages[0], kinds);
      other := SameEnd(StageWorld(v, stages[0]), StageWorld(w, stages[0]), stages[1..], end,
        kinds - StageKinds(stages[0]));
      assert kinds - StageKinds(stages[0]) - Kinds(stages[1..]) == kinds - Kinds(stages);
    }
  }

  lemma CompleteDocuments(w: World, stages: seq<Stage>, w': World)
    requires Carried(w, stages, w', true)
    ensures w'.data == RunStages(w.data, stages)
  {
    CarriedIsRan(w, stages, w', true);
    CompleteRunIsUnique(w.data, stages, w'.data);
  }

  ghost predicate CompletesWorld(w: World, r: Request, w': World) {
    PlanOf(w.data, r).refusal.None? && Carried(w, PlanOf(w.data, r).stages, w', true)
  }

  /** A repetition of stages that depend on the documents as they were before the attempt. */
  lemma StagesAgain(w: World, tried: seq<Stage>, w': World, complete: bool, stages: seq<Stage>, end: World)
    returns (other: World)
    requires Carried(w, tried, w', complete) && Carried(w, stages, end, true)
    requires RunStages(w'.data, stages) == RunStages(w.data, stages)
    ensures Carried(w', stages, other, true) && other.data == end.data
    ensures AgreeBut(end.timers, other.timers, Kinds(tried) - Kinds(stages))
    ensures Kinds(tried) <= Kinds(stages) ==> other == end
  {
    AttemptTouches(w.timers, w, tried, w', complete, {});
    assert {} + Kinds(tried) == Kinds(tried);
    other := SameEnd(w, w', stages, end, Kinds(tried));
    CompleteDocuments(w, stages, end);
    CompleteDocuments(w', stages, other);
    if Kinds(tried) <= Kinds(stages) {
      assert Kinds(tried) - Kinds(stages) == {};
      AgreeAt(end.timers, other.timers, {});
      assert end.timers == other.timers;
    }
  }

  /**
    After an attempt that has not changed the room record, a repetition that completes ends in the very documents and
    timers in which it would have ended without the failed attempt, provided that it writes every timer which that
    attempt was to write. Whatever it does, no other timers differ.
   */
  lemma RetryReachesFaultFreeWorld(w: World, r: Request, w': World, complete: bool, again: Request, end: World)
    returns (other: World)
    requires GoodData(w.data) && Admissible(w.data, r)
    requires Carried(w, PlanOf(w.data, r).stages, w', complete) && w'.data.room == w.data.room
    requires Repeats(r, again) && CompletesWorld(w, again, end)
    ensures CompletesWorld(w', again, other) && other.data == end.data
    ensures AgreeBut(end.timers, other.timers, Kinds(PlanOf(w.data, r).stages) - Kinds(PlanOf(w.data, again).stages))
    ensures Kinds(PlanOf(w.data, r).stages) <= Kinds(PlanOf(w.data, again).stages) ==> other == end
  {
    CarriedIsRan(w, PlanOf(w.data, r).stages, w', complete);
    RetriedStep(w.data, Step(r, complete), w'.data, again);
    other := StagesAgain(w, PlanOf(w.data, r).stages, w', complete, PlanOf(w.data, again).stages, end);
  }

  // ----- the same request at another time

  /** The request, made at another time. */
  function At(r: Request, now: int): Request {
    if r.Leave? || r.MarkReady? || r.Submit? || r.RequestSkip? || r.ForceSkip? || r.RoundTimeoutFired?
      || r.SpeedRevealFired?
    then r.(now := now) else r
  }

  lemma {:induction false} KindsJoined(a: seq<Stage>, b: seq<Stage>)
    ensures Kinds(a + b) == Kinds(a) + Kinds(b)
    decreases a
  {
    if a == [] {
      assert a + b == b;
    } else {
      KindsJoined(a[1..], b);
      assert (a + b)[0] == a[0] && (a + b)[1..] == a[1..] + b;
    }
  }

  lemma TimerKind1(e: Effect)
    ensures Kinds([[e]]) == KindOf(e)
  {
    var stage, stages: seq<Stage> := [e], [[e]];
    assert stage[1..] == [] && stages[1..] == [];
    assert StageKinds(stage) == KindOf(e);
  }

  lemma EndRoundKinds(room: Room, titles: Option<Reveal>, now: int, lost: set<TimerKind>, later: int)
    ensures Kinds(EndRound(room, titles, now, lost).stages) == Kinds(EndRound(room, titles, later, lost).stages)
  {
    EndRoundKindsAre(room, titles, now, lost);
    EndRoundKindsAre(room, titles, later, lost);
  }

  lemma EndRoundKindsAre(room: Room, titles: Option<Reveal>, now: int, lost: set<TimerKind>)
    ensures Kinds(EndRound(room, titles, now, lost).stages)
         == (if room.currentRound.Some? && room.speedModeEnabled then {SpeedNext} else {})
          + Kinds(CleanupStaleRoundTimers(room, lost))
  {
    var (ended, before) := FinalizeRoundEnd(room, titles, now);
    var cleanup := CleanupStaleRoundTimers(ended, lost);
    TimerKind1(ScheduleTimer(SpeedNext, now + SPEED_MODE_NEXT_ROUND_DELAY_MS));
    TimerKind1(SaveRoom(ended));
    KindsJoined(before, [[SaveRoom(ended)]]);
    KindsJoined(before + [[SaveRoom(ended)]], cleanup);
  }

  lemma RecomputeKindsAre(room: Room, now: int)
    ensures var (after, before) := RecomputeReady(room, now);
      Kinds(before + [[SaveRoom(after)]])
      == if room.currentRound.Some? && room.gameStatus.Loading?
        && AllIn(room.participants, room.currentRound.value.readyUserIds)
         then {RoundTimeout} else {}
  {
    var (after, before) := RecomputeReady(room, now);
    TimerKind1(ScheduleTimer(RoundTimeout, now + ROUND_TIME_LIMIT_MS + PLAY_SCHEDULE_DELAY_MS));
    TimerKind1(SaveRoom(after));
    KindsJoined(before, [[SaveRoom(after)]]);
  }

  lemma ScheduleKindsAre(e: Effect, room: Room)
    ensures Kinds([[e], [SaveRoom(room)]]) == KindOf(e)
  {
    TimerKind1(e);
    TimerKind1(SaveRoom(room));
    KindsJoined([[e]], [[SaveRoom(room)]]);
    assert [[e]] + [[SaveRoom(room)]] == [[e], [SaveRoom(room)]];
  }

  lemma SubmitKinds(d: Data, room: Room, r: Request, later: int)
    requires r.Submit?
    ensures Kinds(SubmitPlan(d, room, r.userId, r.message, r.now, r.lost).stages)
         == Kinds(SubmitPlan(d, room, r.userId, r.message, later, r.lost).stages)
  {
    if ChatActionOf(d, room, r.userId, r.message).Correct? {
      CorrectKinds(d, WithCorrectAnswer(room, r.userId), r.now, r.lost, later);
    }
  }

  lemma CorrectKinds(d: Data, answered: Room, now: int, lost: set<TimerKind>, later: int)
    requires answered.currentRound.Some?
    ensures Kinds(CorrectPlan(d, answered, now, lost).stages) == Kinds(CorrectPlan(d, answered, later, lost).stages)
  {
    var round := answered.currentRound.value;
    if AllIn(answered.participants, round.correctUserIds) {
      EndRoundKinds(answered, d.titles, now, lost, later);
    } else if answered.speedModeEnabled && |round.correctUserIds| == 1 {
      var a, b := now + SPEED_MODE_REVEAL_DELAY_MS, later + SPEED_MODE_REVEAL_DELAY_MS;
      ScheduleKindsAre(ScheduleTimer(SpeedReveal, a), answered.(currentRound := Some(round.(autoRevealAt := Some(a)))));
      ScheduleKindsAre(ScheduleTimer(SpeedReveal, b), answered.(currentRound := Some(round.(autoRevealAt := Some(b)))));
    }
  }

  lemma LeaveKinds(d: Data, room: Room, r: Request, later: int)
    requires r.Leave?
    ensures Kinds(LeavePlan(d, room, r.userId, r.now, r.lost).stages)
      == Kinds(LeavePlan(d, room, r.userId, later, r.lost).stages)
  {
    var i := IndexOf(room.participants, r.userId);
    if i != -1 {
      var left := WithoutParticipant(room, i);
      RecomputeKindsAre(left, r.now);
      RecomputeKindsAre(left, later);
      EndRoundKinds(left, d.titles, r.now, r.lost, later);
    }
  }

  lemma MarkReadyKinds(room: Room, u: UserId, now: int, later: int)
    ensures Kinds(MarkReadyPlan(room, u, now).stages) == Kinds(MarkReadyPlan(room, u, later).stages)
  {
    if room.currentRound.Some? && room.gameStatus.Loading? {
      var round := room.currentRound.value;
      var ready := if u in round.readyUserIds then round.readyUserIds else round.readyUserIds + [u];
      RecomputeKindsAre(room.(currentRound := Some(round.(readyUserIds := ready))), now);
      RecomputeKindsAre(room.(currentRound := Some(round.(readyUserIds := ready))), later);
    }
  }

  lemma RequestSkipKinds(d: Data, room: Room, u: UserId, now: int, lost: set<TimerKind>, later: int)
    ensures Kinds(RequestSkipPlan(d, room, u, now, lost).stages)
      == Kinds(RequestSkipPlan(d, room, u, later, lost).stages)
  {
    if room.currentRound.Some? && room.gameStatus.Playing? {
      var round := room.currentRound.value;
      var skip := if u in round.skipUserIds then round.skipUserIds else round.skipUserIds + [u];
      EndRoundKinds(room.(currentRound := Some(round.(skipUserIds := skip))), d.titles, now, lost, later);
    }
  }

  lemma ForceSkipKinds(room: Room, u: UserId, now: int, later: int)
    ensures Kinds(ForceSkipPlan(room, u, now).stages) == Kinds(ForceSkipPlan(room, u, later).stages)
  {
    if room.hostUserId == u && room.currentRound.Some? && room.gameStatus.Playing? {
      var a := room.currentRound.value.(forceSkipAt := Some(now + FORCE_SKIP_DELAY_MS));
      var b := room.currentRound.value.(forceSkipAt := Some(later + FORCE_SKIP_DELAY_MS));
      ScheduleKindsAre(ScheduleTimer(RoundTimeout, now + FORCE_SKIP_DELAY_MS), room.(currentRound := Some(a)));
      ScheduleKindsAre(ScheduleTimer(RoundTimeout, later + FORCE_SKIP_DELAY_MS), room.(currentRound := Some(b)));
    }
  }

  /** When a request is made does not change which timers it writes. */
  lemma SameKindsLater(d: Data, r: Request, later: int)
    ensures Kinds(PlanOf(d, At(r, later)).stages) == Kinds(PlanOf(d, r).stages)
  {
    if d.room.Some? && At(r, later) != r {
      var room := d.room.value;
      if r.Leave? {
        LeaveKinds(d, room, r, later);
      } else if r.MarkReady? {
        MarkReadyKinds(room, r.userId, r.now, later);
      } else if r.Submit? {
        SubmitKinds(d, room, r, later);
      } else if r.RequestSkip? {
        RequestSkipKinds(d, room, r.userId, r.now, r.lost, later);
      } else if r.ForceSkip? {
        ForceSkipKinds(room, r.requester, r.now, later);
      } else {
        EndRoundKinds(room, d.titles, r.now, r.lost, later);
      }
    }
  }

  /**
    The same request, repeated at any later time, ends in the very world in which it would have ended without the
    failure.
   */
  lemma SameRequestAgain(w: World, r: Request, w': World, complete: bool, later: int, end: World)
    requires GoodData(w.data) && Admissible(w.data, r)
    requires Carried(w, PlanOf(w.data, r).stages, w', complete) && w'.data.room == w.data.room
    requires CompletesWorld(w, At(r, later), end)
    ensures CompletesWorld(w', At(r, later), end)
  {
    SameKindsLater(w.data, r, later);
    var other := RetryReachesFaultFreeWorld(w, r, w', complete, At(r, later), end);
  }
}
