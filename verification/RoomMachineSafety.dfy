/**
  What holds in every state of the room machine: the documents are good, and a round that is played has its timeout.
 */
module RoomMachineSafety {
  import opened Names
  import opened RoomModel
  import opened RoomInvariants
  import opened RoomRequests
  import opened RoomMachine
  import RoomCommits
  import Timers = RoomTimerProtocol

  // ----- a plan never leaves a playing room without a timeout

  function PlayingAfter(playing: bool, e: Effect): bool {
    if e.SaveRoom? then e.room.gameStatus.Playing? else playing && !e.DeleteRoom?
  }

  function SecureAfter(secure: bool, e: Effect): bool {
    if e.ScheduleTimer? && e.kind.RoundTimeout? then true
    else if e.CancelTimer? && e.kind.RoundTimeout? then false
    else secure
  }

  /** The writes of the stage touch neither the room nor a timer. */
  predicate Neutral(stage: Stage) {
    forall i :: 0 <= i < |stage| ==>
      !stage[i].SaveRoom? && !stage[i].DeleteRoom? && !stage[i].ScheduleTimer? && !stage[i].CancelTimer?
  }

  /**
    From here on, wherever the section stops, a stored room that is played has its timeout; and if the section is the
    timeout's own handler, then at its end the room is not played.
   */
  predicate SafeRest(playing: bool, secure: bool, rest: seq<Stage>, handler: bool)
    decreases rest
  {
    && (playing ==> secure)
    && if rest == [] then
         !(handler && playing)
       else if |rest[0]| == 1 then
         SafeRest(PlayingAfter(playing, rest[0][0]), SecureAfter(secure, rest[0][0]), rest[1..], handler)
       else
         Neutral(rest[0]) && SafeRest(playing, secure, rest[1..], handler)
  }

  lemma {:induction false} MoreSecureIsSafe(playing: bool, rest: seq<Stage>, handler: bool, secure: bool, more: bool)
    requires SafeRest(playing, secure, rest, handler) && (secure ==> more)
    ensures SafeRest(playing, more, rest, handler)
    decreases rest
  {
    if rest != [] {
      if |rest[0]| == 1 {
        MoreSecureIsSafe(PlayingAfter(playing, rest[0][0]), rest[1..], handler,
                         SecureAfter(secure, rest[0][0]), SecureAfter(more, rest[0][0]));
      } else {
        MoreSecureIsSafe(playing, rest[1..], handler, secure, more);
      }
    }
  }

  /** Stages that schedule the timeout before they rely on it are safe without it. */
  lemma {:induction false} UnneededIsSafe(secure: bool, rest: seq<Stage>, handler: bool)
    requires SafeRest(false, secure, rest, handler) && !SavesUnscheduled(rest)
    ensures SafeRest(false, false, rest, handler)
    decreases rest
  {
    if rest != [] {
      if |rest[0]| == 1 {
        var e := rest[0][0];
        if !(e.ScheduleTimer? && e.kind.RoundTimeout?) {
          UnneededIsSafe(SecureAfter(secure, e), rest[1..], handler);
        }
      } else {
        UnneededIsSafe(secure, rest[1..], handler);
      }
    }
  }

  /** Stages without a save of the room. */
  predicate Unsaving(stages: seq<Stage>)
    decreases stages
  {
    stages == [] || ((if |stages[0]| == 1 then !stages[0][0].SaveRoom? else Neutral(stages[0]))
      && Unsaving(stages[1..]))
  }

  lemma {:induction false} UnsavingIsSafe(secure: bool, rest: seq<Stage>, handler: bool)
    requires Unsaving(rest)
    ensures SafeRest(false, secure, rest, handler)
    decreases rest
  {
    if rest != [] {
      if |rest[0]| == 1 {
        UnsavingIsSafe(SecureAfter(secure, rest[0][0]), rest[1..], handler);
      } else {
        UnsavingIsSafe(secure, rest[1..], handler);
      }
    }
  }

  lemma {:induction false} UnsavingJoined(a: seq<Stage>, b: seq<Stage>)
    requires Unsaving(a) && Unsaving(b)
    ensures Unsaving(a + b)
    decreases a
  {
    if a == [] {
      assert a + b == b;
    } else {
      UnsavingJoined(a[1..], b);
      assert (a + b)[0] == a[0] && (a + b)[1..] == a[1..] + b;
    }
  }

  lemma {:induction false} TimersAreUnsaving(stages: seq<Stage>)
    requires TimersOnly(stages)
    ensures Unsaving(stages)
    decreases stages
  {
    if stages != [] {
      TimersAreUnsaving(stages[1..]);
    }
  }

  /** The room is saved as not being played any more, and then nothing but timer commands follow. */
  lemma IdleSaveIsSafe(playing: bool, secure: bool, room: Room, after: seq<Stage>, handler: bool)
    requires (playing ==> secure) && !room.gameStatus.Playing? && TimersOnly(after)
    ensures SafeRest(playing, secure, [[SaveRoom(room)]] + after, handler)
  {
    TimersAreUnsaving(after);
    UnsavingIsSafe(secure, after, handler);
    assert ([[SaveRoom(room)]] + after)[1..] == after;
  }

  /** A save of a room that is secure anyway. */
  lemma SecureSaveIsSafe(playing: bool, secure: bool, room: Room)
    requires (playing ==> secure) && (room.gameStatus.Playing? ==> secure)
    ensures SafeRest(playing, secure, [[SaveRoom(room)]], false)
  {
    var save: seq<Stage> := [[SaveRoom(room)]];
    assert save[1..] == [];
  }

  lemma TimerFirstIsSafe(playing: bool, secure: bool, e: Effect, rest: seq<Stage>, handler: bool)
    requires (playing ==> secure) && e.ScheduleTimer? && SafeRest(playing, SecureAfter(secure, e), rest, handler)
    ensures SafeRest(playing, secure, [[e]] + rest, handler)
  {
    assert ([[e]] + rest)[1..] == rest;
  }

  lemma EndRoundIsSafe(secure: bool, room: Room, titles: Option<Reveal>, now: int, lost: set<Timers.TimerKind>,
    handler: bool)
    requires secure && room.currentRound.Some?
    ensures SafeRest(true, secure, EndRound(room, titles, now, lost).stages, handler)
  {
    var (ended, before) := FinalizeRoundEnd(room, titles, now);
    var cleanup := CleanupStaleRoundTimers(ended, lost);
    CancelsAreTimersOnly(ended, lost);
    IdleSaveIsSafe(true, secure, ended, cleanup, handler);
    var rest := [[SaveRoom(ended)]] + cleanup;
    if before == [] {
      assert EndRound(room, titles, now, lost).stages == rest;
    } else {
      TimerFirstIsSafe(true, secure, before[0][0], rest, handler);
      assert EndRound(room, titles, now, lost).stages == [[before[0][0]]] + rest;
    }
  }

  lemma RecomputeIsSafe(secure: bool, room: Room, now: int)
    requires !room.gameStatus.Playing?
    ensures var (r, before) := RecomputeReady(room, now); SafeRest(false, secure, before + [[SaveRoom(r)]], false)
  {
    var (r, before) := RecomputeReady(room, now);
    if before == [] {
      SecureSaveIsSafe(false, secure, r);
      assert before + [[SaveRoom(r)]] == [[SaveRoom(r)]];
    } else {
      SecureSaveIsSafe(false, true, r);
      TimerFirstIsSafe(false, secure, before[0][0], [[SaveRoom(r)]], false);
      assert before == [[before[0][0]]];
    }
  }

  lemma DeletionIsSafe(playing: bool, secure: bool, lost: set<Timers.TimerKind>)
    requires playing ==> secure
    ensures SafeRest(playing, secure, DeleteRoomStages(lost), false)
  {
    var timers := TryCancel(Timers.RoundTimeout, lost) + ClearSpeedModeTimer(lost);
    CancelsAreTimersOnly(Room(0, [], 0, 0, 0, false, false, false, Waiting, None), lost);
    TimersAreUnsaving(timers);
    var last: seq<Stage> := [DeleteGame()];
    assert last[1..] == [];
    UnsavingJoined(timers, last);
    UnsavingIsSafe(secure, timers + last, false);
    assert DeleteRoomStages(lost)[0] == [DeleteRoom] && DeleteRoomStages(lost)[1..] == timers + last;
  }

  lemma LeaveIsSafe(d: Data, room: Room, r: Request, secure: bool)
    requires GoodRoom(room) && d.room == Some(room) && r.Leave? && (BeingPlayed(d) ==> secure)
    ensures SafeRest(BeingPlayed(d), secure, LeavePlan(d, room, r.userId, r.now, r.lost).stages, false)
  {
    var i := IndexOf(room.participants, r.userId);
    if i != -1 {
      var left := WithoutParticipant(room, i);
      DeletionIsSafe(BeingPlayed(d), secure, r.lost);
      SecureSaveIsSafe(BeingPlayed(d), secure, left);
      if left.gameStatus.Loading? {
        RecomputeIsSafe(secure, left, r.now);
      } else if left.gameStatus.Playing? {
        EndRoundIsSafe(secure, left, d.titles, r.now, r.lost, false);
      }
    }
  }

  lemma MarkReadyIsSafe(d: Data, room: Room, u: UserId, now: int, secure: bool)
    requires GoodRoom(room) && d.room == Some(room) && (BeingPlayed(d) ==> secure)
    ensures SafeRest(BeingPlayed(d), secure, MarkReadyPlan(room, u, now).stages, false)
  {
    if room.currentRound.Some? && room.gameStatus.Loading? {
      var round := room.currentRound.value;
      var ready := if u in round.readyUserIds then round.readyUserIds else round.readyUserIds + [u];
      RecomputeIsSafe(secure, room.(currentRound := Some(round.(readyUserIds := ready))), now);
    }
  }

  lemma SubmitIsSafe(d: Data, room: Room, r: Request, secure: bool)
    requires GoodRoom(room) && d.room == Some(room) && r.Submit? && (BeingPlayed(d) ==> secure)
    ensures SafeRest(BeingPlayed(d), secure, SubmitPlan(d, room, r.userId, r.message, r.now, r.lost).stages, false)
  {
    if ChatActionOf(d, room, r.userId, r.message).Correct? {
      var answered := WithCorrectAnswer(room, r.userId);
      var at := r.now + SPEED_MODE_REVEAL_DELAY_MS;
      var revealing := answered.(currentRound := Some(answered.currentRound.value.(autoRevealAt := Some(at))));
      EndRoundIsSafe(secure, answered, d.titles, r.now, r.lost, false);
      SecureSaveIsSafe(true, secure, answered);
      SecureSaveIsSafe(true, secure, revealing);
      var timer := ScheduleTimer(Timers.SpeedReveal, at);
      TimerFirstIsSafe(true, secure, timer, [[SaveRoom(revealing)]], false);
      assert [[timer]] + [[SaveRoom(revealing)]] == [[timer], [SaveRoom(revealing)]];
    }
  }

  lemma RequestSkipIsSafe(d: Data, room: Room, r: Request, secure: bool)
    requires GoodRoom(room) && d.room == Some(room) && r.RequestSkip? && (BeingPlayed(d) ==> secure)
    ensures SafeRest(BeingPlayed(d), secure, RequestSkipPlan(d, room, r.userId, r.now, r.lost).stages, false)
  {
    if room.currentRound.Some? && room.gameStatus.Playing? {
      var round := room.currentRound.value;
      var skip := if r.userId in round.skipUserIds then round.skipUserIds else round.skipUserIds + [r.userId];
      var asked := room.(currentRound := Some(round.(skipUserIds := skip)));
      EndRoundIsSafe(secure, asked, d.titles, r.now, r.lost, false);
      SecureSaveIsSafe(true, secure, asked);
    }
  }

  lemma ForceSkipIsSafe(d: Data, room: Room, u: UserId, now: int, secure: bool)
    requires d.room == Some(room) && (BeingPlayed(d) ==> secure)
    ensures SafeRest(BeingPlayed(d), secure, ForceSkipPlan(room, u, now).stages, false)
  {
    var plan := ForceSkipPlan(room, u, now);
    if plan.stages != [] {
      SecureSaveIsSafe(true, true, plan.stages[1][0].room);
      TimerFirstIsSafe(true, secure, plan.stages[0][0], [plan.stages[1]], false);
      assert plan.stages[1] == [SaveRoom(plan.stages[1][0].room)];
      assert [[plan.stages[0][0]]] + [plan.stages[1]] == plan.stages;
    }
  }

  // ----- starting and advancing

  /** Writes of other documents, and then the save of a room that is not played. */
  predicate QuietSave(stages: seq<Stage>)
    decreases stages
  {
    || stages == []
    || (|stages[0]| == 1 && stages[0][0].SaveRoom? && !stages[0][0].room.gameStatus.Playing? && stages[1..] == [])
    || ((Neutral(stages[0]) || (TimerWrite(stages[0]) && !stages[0][0].kind.RoundTimeout?)) && QuietSave(stages[1..]))
  }

  lemma {:induction false} QuietSaveIsSafe(secure: bool, stages: seq<Stage>)
    requires QuietSave(stages)
    ensures SafeRest(false, secure, stages, false)
    decreases stages
  {
    if stages != [] && stages[1..] != [] {
      QuietSaveIsSafe(secure, stages[1..]);
    }
  }

  lemma RoundStagesAreQuiet(data: RoundData, room: Room, index: nat, total: nat)
    ensures QuietSave(RoundStages(data, room, index, total))
  {
    var stages := RoundStages(data, room, index, total);
    var save: seq<Stage> := [[SaveRoom(LoadingRoom(room, index, total))]];
    assert save[1..] == [];
    assert stages[1..][1..] == save && |stages[1..]| == 2 && stages[1..][0] == [SetReveal(data.Titles())];
    assert QuietSave(save) && QuietSave(stages[1..]);
  }

  lemma StartIsQuiet(room: Room, rounds: Option<seq<RoundData>>, shuffled: seq<RoundData>)
    ensures QuietSave(StartGame(room, rounds, shuffled).stages)
  {
    if rounds.Some? && rounds.value != [] {
      var selected := Take(if room.isRandom then shuffled else rounds.value, room.songLimit);
      var store: seq<Stage> := [StoreGame(selected)];
      assert store[1..] == [] && Neutral(StoreGame(selected));
      if selected != [] {
        var first := SnapshotOf(selected)[selected[0].quizSongId];
        RoundStagesAreQuiet(first, room, 0, |selected|);
        assert GameStages(room, selected)[1..] == RoundStages(first, room, 0, |selected|);
      }
    }
  }

  lemma FinishIsQuiet(room: Room, stages: seq<Stage>)
    requires stages == [DeleteGame(), [SaveRoom(FinishedRoom(room))]]
    ensures QuietSave(stages)
  {
    var save: seq<Stage> := [[SaveRoom(FinishedRoom(room))]];
    assert save[1..] == [];
    assert stages[1..] == save && stages[0] == DeleteGame();
  }

  lemma AdvanceIsQuiet(d: Data, room: Room)
    requires GoodData(d) && d.room == Some(room) && room.gameStatus.RoundEnded?
    ensures QuietSave(AdvanceToNextRound(d, room).stages)
  {
    var round := room.currentRound.value;
    AdvanceFindsRound(d, room);
    if round.roundIndex + 1 < round.totalRounds {
      RoundStagesAreQuiet(SongAt(d, round.roundIndex + 1), room, round.roundIndex + 1, round.totalRounds);
    } else {
      FinishIsQuiet(room, AdvanceToNextRound(d, room).stages);
    }
  }

  lemma {:induction false} QuietAfterTimers(timers: seq<Stage>, stages: seq<Stage>)
    requires QuietSave(timers) && TimersOnly(timers) && QuietSave(stages)
    ensures QuietSave(timers + stages)
    decreases timers
  {
    if timers == [] {
      assert timers + stages == stages;
    } else {
      QuietAfterTimers(timers[1..], stages);
      assert (timers + stages)[0] == timers[0] && (timers + stages)[1..] == timers[1..] + stages;
    }
  }

  lemma SpeedCancelsAreQuiet(lost: set<Timers.TimerKind>)
    ensures TimersOnly(ClearSpeedModeTimer(lost)) && QuietSave(ClearSpeedModeTimer(lost))
  {
    var a, b := TryCancel(Timers.SpeedReveal, lost), TryCancel(Timers.SpeedNext, lost);
    assert a != [] ==> a[1..] == [];
    assert b != [] ==> b[1..] == [];
    TimersOnlyJoined(a, b);
    QuietAfterTimers(a, b);
  }

  lemma NextIsQuiet(d: Data, room: Room, u: UserId, lost: set<Timers.TimerKind>)
    requires GoodData(d) && d.room == Some(room)
    ensures QuietSave(NextPlan(d, room, u, lost).stages)
  {
    if room.hostUserId == u && room.gameStatus.RoundEnded? {
      AdvanceIsQuiet(d, room);
      SpeedCancelsAreQuiet(lost);
      QuietAfterTimers(ClearSpeedModeTimer(lost), AdvanceToNextRound(d, room).stages);
    }
  }

  lemma GameRequestIsSafe(d: Data, r: Request, secure: bool)
    requires GoodData(d) && d.room.Some? && RoomCommits.ChangesGame(r) && (BeingPlayed(d) ==> secure)
    ensures SafeRest(BeingPlayed(d), secure, PlanOf(d, r).stages, false)
  {
    var room := d.room.value;
    if PlanOf(d, r).stages != [] {
      if r.Start? {
        StartIsQuiet(room, r.rounds, r.shuffled);
      } else if r.Restart? {
        StartIsQuiet(room.(participants := ZeroScores(room.participants)), r.rounds, r.shuffled);
      } else if r.Next? {
        NextIsQuiet(d, room, r.requester, r.lost);
      } else {
        AdvanceIsQuiet(d, room);
      }
      QuietSaveIsSafe(secure, PlanOf(d, r).stages);
    }
  }

  lemma TimeUpIsSafe(d: Data, room: Room, r: Request, secure: bool)
    requires GoodRoom(room) && d.room == Some(room) && (r.RoundTimeoutFired? || r.SpeedRevealFired?)
      && (BeingPlayed(d) ==> secure)
    ensures SafeRest(BeingPlayed(d), secure, PlanOf(d, r).stages, r.RoundTimeoutFired?)
  {
    if room.gameStatus.Playing? {
      EndRoundIsSafe(secure, room, d.titles, r.now, r.lost, r.RoundTimeoutFired?);
    }
  }

  lemma SavingRequestIsSafe(d: Data, r: Request, secure: bool)
    requires GoodData(d) && (r.Create? || (d.room.Some? && (r.Join? || r.Update?))) && Admissible(d, r)
      && (BeingPlayed(d) ==> secure)
    ensures SafeRest(BeingPlayed(d), secure, PlanOf(d, r).stages, false)
  {
    var stages: seq<Stage> := PlanOf(d, r).stages;
    if stages != [] {
      SecureSaveIsSafe(BeingPlayed(d), secure, stages[0][0].room);
    }
  }

  /** No request ever leaves a playing room without its timeout, and the handler of the timeout ends the round. */
  lemma PlanIsSafe(d: Data, r: Request, secure: bool)
    requires GoodData(d) && Admissible(d, r) && (BeingPlayed(d) ==> secure)
    ensures SafeRest(BeingPlayed(d), secure, PlanOf(d, r).stages, r.RoundTimeoutFired?)
  {
    if r.Create? {
      SavingRequestIsSafe(d, r, secure);
    } else if d.room.Some? {
      var room := d.room.value;
      if r.Join? || r.Update? {
        SavingRequestIsSafe(d, r, secure);
      } else if r.Leave? {
        LeaveIsSafe(d, room, r, secure);
      } else if r.MarkReady? {
        MarkReadyIsSafe(d, room, r.userId, r.now, secure);
      } else if r.Submit? {
        SubmitIsSafe(d, room, r, secure);
      } else if r.RequestSkip? {
        RequestSkipIsSafe(d, room, r, secure);
      } else if r.ForceSkip? {
        ForceSkipIsSafe(d, room, r.requester, r.now, secure);
      } else if RoomCommits.ChangesGame(r) {
        GameRequestIsSafe(d, r, secure);
      } else {
        TimeUpIsSafe(d, room, r, secure);
      }
    }
  }
}
