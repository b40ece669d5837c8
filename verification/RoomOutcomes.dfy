/**
  What every request that completes has done to documents and timers, and who is refused with what: in terms of the
  documents it found and left, without its plan.
 */
module RoomOutcomes {
  import opened Names
  import opened RoomModel
  import opened RoomInvariants
  import opened RoomStore
  import opened RoomTimerProtocol
  import opened RoomWorldRetry

  // ----- the world after complete stages

  function RunWorld(w: World, stages: seq<Stage>): World
    decreases stages
  {
    if stages == [] then w else RunWorld(StageWorld(w, stages[0]), stages[1..])
  }

  lemma {:induction false} CompleteIsRunWorld(w: World, stages: seq<Stage>, w': World)
    requires Carried(w, stages, w', true)
    ensures w' == RunWorld(w, stages)
    decreases stages
  {
    if stages != [] {
      CompleteIsRunWorld(StageWorld(w, stages[0]), stages[1..], w');
    }
  }

  lemma {:induction false} RunWorldIsCarried(w: World, stages: seq<Stage>)
    ensures Carried(w, stages, RunWorld(w, stages), true)
    ensures RunWorld(w, stages).data == RunStages(w.data, stages)
    decreases stages
  {
    if stages != [] {
      RunWorldIsCarried(StageWorld(w, stages[0]), stages[1..]);
    }
  }

  lemma {:induction false} WorldJoined(w: World, a: seq<Stage>, b: seq<Stage>)
    ensures RunWorld(w, a + b) == RunWorld(RunWorld(w, a), b)
    decreases a
  {
    if a == [] {
      assert a + b == b;
    } else {
      WorldJoined(StageWorld(w, a[0]), a[1..], b);
      assert (a + b)[0] == a[0] && (a + b)[1..] == a[1..] + b;
    }
  }

  lemma OneStageWorld(w: World, stage: Stage)
    ensures RunWorld(w, [stage]) == StageWorld(w, stage)
  {
    var stages: seq<Stage> := [stage];
    assert stages[1..] == [];
  }

  lemma OneWrite(w: World, e: Effect)
    ensures RunWorld(w, [[e]]) == Exec(w, e)
  {
    OneStageWorld(w, [e]);
    OneWriteStage(w.data, e);
    assert StageTimers(w.timers, [e]) == ExecTimers(w.timers, e);
  }

  lemma TwoWrites(w: World, e: Effect, f: Effect)
    ensures RunWorld(w, [[e], [f]]) == Exec(Exec(w, e), f)
  {
    OneWrite(w, e);
    OneWrite(Exec(w, e), f);
    WorldJoined(w, [[e]], [[f]]);
    assert [[e]] + [[f]] == [[e], [f]];
  }

  lemma TriedCancel(w: World, kind: TimerKind, lost: set<TimerKind>)
    ensures RunWorld(w, TryCancel(kind, lost)) == World(w.data, if kind in lost then w.timers else w.timers - {kind})
  {
    if kind !in lost {
      OneWrite(w, CancelTimer(kind));
    }
  }

  // ----- timers

  predicate SameTimer(w: World, w': World, kind: TimerKind) {
    (kind in w.timers <==> kind in w'.timers) && (kind in w.timers ==> w'.timers[kind] == w.timers[kind])
  }

  predicate DueAt(w: World, kind: TimerKind, at: int) {
    kind in w.timers && w.timers[kind] == at
  }

  /** The timer is gone, unless its cancel was lost. */
  predicate Cleared(w: World, w': World, kind: TimerKind, lost: set<TimerKind>) {
    if kind in lost then SameTimer(w, w', kind) else kind !in w'.timers
  }

  /** The room record is this room now, and nothing else changes. */
  predicate JustSaved(w: World, room: Room, w': World) {
    w' == World(w.data.(room := Some(room)), w.timers)
  }

  // ----- the end of a round

  /**
    The round of this room is over: the titles are public, and in speed mode the next round is due in four seconds, as
    the room says. The timeout, and in speed mode the reveal, are gone unless their cancels were lost.
   */
  predicate RoundOver(w: World, room: Room, now: int, lost: set<TimerKind>, w': World)
    requires room.currentRound.Some?
  {
    var round := room.currentRound.value;
    var nextAt := if room.speedModeEnabled then Some(now + 4_000) else round.autoNextRoundAt;
    && w'.data == w.data.(room := Some(room.(gameStatus := RoundEnded,
         currentRound := Some(round.(revealed := true, title := w.data.titles, autoNextRoundAt := nextAt)))))
    && (if room.speedModeEnabled then DueAt(w', SpeedNext, now + 4_000) else SameTimer(w, w', SpeedNext))
    && Cleared(w, w', RoundTimeout, lost)
    && (if room.speedModeEnabled then Cleared(w, w', SpeedReveal, lost) else SameTimer(w, w', SpeedReveal))
    && SameTimer(w, w', DisconnectGrace)
  }

  lemma FinalizedWorld(w: World, room: Room, now: int)
    requires room.currentRound.Some?
    ensures var (ended, before) := FinalizeRoundEnd(room, w.data.titles, now);
      RunWorld(w, before + [[SaveRoom(ended)]])
      == World(w.data.(room := Some(ended)),
               if room.speedModeEnabled then w.timers[SpeedNext := now + 4_000] else w.timers)
  {
    var (ended, before) := FinalizeRoundEnd(room, w.data.titles, now);
    OneWrite(w, ScheduleTimer(SpeedNext, now + 4_000));
    OneWrite(RunWorld(w, before), SaveRoom(ended));
    WorldJoined(w, before, [[SaveRoom(ended)]]);
  }

  lemma CleanedWorld(w: World, room: Room, lost: set<TimerKind>)
    ensures var w' := RunWorld(w, CleanupStaleRoundTimers(room, lost));
      && w'.data == w.data && SameTimer(w, w', SpeedNext) && SameTimer(w, w', DisconnectGrace)
      && Cleared(w, w', RoundTimeout, lost)
      && (if room.speedModeEnabled then Cleared(w, w', SpeedReveal, lost) else SameTimer(w, w', SpeedReveal))
  {
    var first := TryCancel(RoundTimeout, lost);
    TriedCancel(w, RoundTimeout, lost);
    TriedCancel(RunWorld(w, first), SpeedReveal, lost);
    WorldJoined(w, first, if room.speedModeEnabled then TryCancel(SpeedReveal, lost) else []);
  }

  lemma EndRoundOutcome(w: World, room: Room, now: int, lost: set<TimerKind>)
    requires room.currentRound.Some?
    ensures RoundOver(w, room, now, lost, RunWorld(w, EndRound(room, w.data.titles, now, lost).stages))
  {
    var (ended, before) := FinalizeRoundEnd(room, w.data.titles, now);
    FinalizedWorld(w, room, now);
    var saved := RunWorld(w, before + [[SaveRoom(ended)]]);
    CleanedWorld(saved, ended, lost);
    WorldJoined(w, before + [[SaveRoom(ended)]], CleanupStaleRoundTimers(ended, lost));
  }

  // ----- ready users

  /** The user is in the list now, behind all that were in it before. */
  predicate Added(was: seq<UserId>, u: UserId, after: seq<UserId>) {
    && was <= after && u in after
    && |after| == |was| + if u in was then 0 else 1
  }

  /** The round begins: it plays in 1.8 seconds, and its timeout is 30 seconds after that. */
  predicate RoundBegun(w: World, room: Room, now: int, w': World)
    requires room.currentRound.Some?
  {
    && w'.data == w.data.(room := Some(room.(gameStatus := Playing,
         currentRound := Some(room.currentRound.value.(playScheduledAt := Some(now + 1_800))))))
    && w'.timers == w.timers[RoundTimeout := now + 31_800]
  }

  /** With a loading room: the round begins if and only if every participant is ready, and the room is saved anyway. */
  predicate BegunIfReady(w: World, room: Room, now: int, w': World)
    requires room.currentRound.Some?
  {
    if forall i :: 0 <= i < |room.participants| ==>
         room.participants[i].userId in room.currentRound.value.readyUserIds
    then RoundBegun(w, room, now, w') else JustSaved(w, room, w')
  }

  lemma RecomputeOutcome(w: World, room: Room, now: int)
    requires room.currentRound.Some? && room.gameStatus.Loading?
    ensures var (after, before) := RecomputeReady(room, now);
      BegunIfReady(w, room, now, RunWorld(w, before + [[SaveRoom(after)]]))
  {
    var (after, before) := RecomputeReady(room, now);
    OneWrite(w, ScheduleTimer(RoundTimeout, now + 31_800));
    OneWrite(RunWorld(w, before), SaveRoom(after));
    WorldJoined(w, before, [[SaveRoom(after)]]);
  }

  ghost predicate ReadyOutcome(w: World, room: Room, u: UserId, now: int, w': World) {
    if room.currentRound.None? || !room.gameStatus.Loading? then w' == w
    else
      var round := room.currentRound.value;
      exists ready: seq<UserId> :: Added(round.readyUserIds, u, ready)
        && BegunIfReady(w, room.(currentRound := Some(round.(readyUserIds := ready))), now, w')
  }

  /**
    A user who is ready joins those who are; the room plays with its timeout in 31.8 seconds if and only if they are all
    participants, and goes on loading otherwise.
   */
  lemma MarkReadyOutcome(w: World, room: Room, u: UserId, now: int, w': World)
    requires w.data.room == Some(room) && CompletesWorld(w, MarkReady(u, now), w')
    ensures ReadyOutcome(w, room, u, now, w')
  {
    CompleteIsRunWorld(w, PlanOf(w.data, MarkReady(u, now)).stages, w');
    if room.currentRound.Some? && room.gameStatus.Loading? {
      var round := room.currentRound.value;
      var ready := if u in round.readyUserIds then round.readyUserIds else round.readyUserIds + [u];
      RecomputeOutcome(w, room.(currentRound := Some(round.(readyUserIds := ready))), now);
      assert Added(round.readyUserIds, u, ready);
    }
  }

  // ----- skips

  ghost predicate SkipOutcome(w: World, room: Room, u: UserId, now: int, lost: set<TimerKind>, w': World) {
    if room.currentRound.None? || !room.gameStatus.Playing? then w' == w
    else
      var round := room.currentRound.value;
      exists skip: seq<UserId> :: Added(round.skipUserIds, u, skip)
        && var asked := room.(currentRound := Some(round.(skipUserIds := skip)));
           if 2 * |skip| > |room.participants| then RoundOver(w, asked, now, lost, w') else JustSaved(w, asked, w')
  }

  lemma SkippedWorld(w: World, room: Room, u: UserId, now: int, lost: set<TimerKind>)
    requires room.currentRound.Some? && room.gameStatus.Playing?
    ensures SkipOutcome(w, room, u, now, lost, RunWorld(w, RequestSkipPlan(w.data, room, u, now, lost).stages))
  {
    var round := room.currentRound.value;
    var skip := if u in round.skipUserIds then round.skipUserIds else round.skipUserIds + [u];
    var asked := room.(currentRound := Some(round.(skipUserIds := skip)));
    EndRoundOutcome(w, asked, now, lost);
    OneWrite(w, SaveRoom(asked));
    assert Added(round.skipUserIds, u, skip);
  }

  /** Who asks for a skip is counted once, and more than half as many as there are participants end the round. */
  lemma RequestSkipOutcome(w: World, room: Room, u: UserId, now: int, lost: set<TimerKind>, w': World)
    requires w.data.room == Some(room) && CompletesWorld(w, RequestSkip(u, now, lost), w')
    ensures SkipOutcome(w, room, u, now, lost, w')
  {
    CompleteIsRunWorld(w, PlanOf(w.data, RequestSkip(u, now, lost)).stages, w');
    if room.currentRound.Some? && room.gameStatus.Playing? {
      SkippedWorld(w, room, u, now, lost);
    }
  }

  /** A forced skip brings the timeout forward to three seconds from now, as the room says. */
  lemma ForceSkipOutcome(w: World, room: Room, requester: UserId, now: int, w': World)
    requires w.data.room == Some(room) && CompletesWorld(w, ForceSkip(requester, now), w')
    ensures requester == room.hostUserId && room.gameStatus.Playing? && room.currentRound.Some?
    ensures w'.data == w.data.(room := Some(room.(currentRound :=
      Some(room.currentRound.value.(forceSkipAt := Some(now + 3_000))))))
    ensures w'.timers == w.timers[RoundTimeout := now + 3_000]
  {
    CompleteIsRunWorld(w, PlanOf(w.data, ForceSkip(requester, now)).stages, w');
    var round := room.currentRound.value.(forceSkipAt := Some(now + 3_000));
    TwoWrites(w, ScheduleTimer(RoundTimeout, now + 3_000), SaveRoom(room.(currentRound := Some(round))));
  }

  /** The timeout and the reveal end the round that is played, and do nothing otherwise. */
  lemma TimeUpOutcome(w: World, room: Room, r: Request, w': World)
    requires w.data.room == Some(room) && CompletesWorld(w, r, w') && (r.RoundTimeoutFired? || r.SpeedRevealFired?)
    ensures room.gameStatus.Playing? && room.currentRound.Some? ==> RoundOver(w, room, r.now, r.lost, w')
    ensures !room.gameStatus.Playing? ==> w' == w
  {
    CompleteIsRunWorld(w, PlanOf(w.data, r).stages, w');
    if room.gameStatus.Playing? && room.currentRound.Some? {
      EndRoundOutcome(w, room, r.now, r.lost);
    }
  }
}
