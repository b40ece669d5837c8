/** What the commit of a request may do to the room, and why a request that failed before it can simply be repeated. */
module RoomCommits {
  import opened Names
  import opened RoomModel
  import opened RoomInvariants
  import opened RoomRequests
  import opened RoomRuns
  import opened RoomTimerProtocol

  // ----- the moves of a room

  function Rank(status: Status): nat {
    match status
    case Waiting => 0
    case Loading => 1
    case Playing => 2
    case RoundEnded => 3
    case Finished => 4
  }

  /**
    In the same round, which can only proceed from loading to playing to its end; the titles change only with the
    status.
   */
  predicate StaysInRound(was: Room, after: Room) {
    && was.currentRound.Some? && after.currentRound.Some?
    && after.currentRound.value.roundIndex == was.currentRound.value.roundIndex
    && after.currentRound.value.totalRounds == was.currentRound.value.totalRounds
    && Rank(was.gameStatus) <= Rank(after.gameStatus)
    && (was.gameStatus == after.gameStatus ==> after.currentRound.value.title == was.currentRound.value.title)
  }

  predicate StaysIdle(was: Room, after: Room) {
    was.currentRound.None? && after.currentRound.None? && after.gameStatus == was.gameStatus
  }

  /** The room has just been saved with nothing known yet of the round `index`. */
  predicate Enters(after: Room, index: nat, total: nat) {
    after.gameStatus.Loading?
      && after.currentRound == Some(Round(index, total, [], [], [], None, None, None, None, false, None))
  }

  predicate Starts(was: Room, after: Room) {
    was.currentRound.None? && after.currentRound.Some? && Enters(after, 0, after.currentRound.value.totalRounds)
  }

  predicate Advances(was: Room, after: Room) {
    && was.gameStatus.RoundEnded? && was.currentRound.Some?
    && was.currentRound.value.roundIndex + 1 < was.currentRound.value.totalRounds
    && Enters(after, was.currentRound.value.roundIndex + 1, was.currentRound.value.totalRounds)
    && after.participants == was.participants
  }

  predicate Finishes(was: Room, after: Room) {
    && was.gameStatus.RoundEnded? && was.currentRound.Some?
    && was.currentRound.value.roundIndex + 1 == was.currentRound.value.totalRounds
    && after.gameStatus.Finished? && after.currentRound.None?
    && after.participants == was.participants
  }

  predicate Stays(was: Room, after: Room) {
    StaysInRound(was, after) || StaysIdle(was, after)
  }

  predicate Moves(was: Room, after: Room) {
    Stays(was, after) || Starts(was, after) || Advances(was, after) || Finishes(was, after)
  }

  /** Neither the scores nor the list of correct users changed. */
  predicate SameScores(was: Room, after: Room) {
    && after.participants == was.participants
    && (was.currentRound.Some? && after.currentRound.Some? ==>
          after.currentRound.value.correctUserIds == was.currentRound.value.correctUserIds)
  }

  // ----- the shape of the requests

  /** No key but the room record is written. */
  predicate OnlySaves(stages: seq<Stage>)
    decreases stages
  {
    stages == [] || ((TimerWrite(stages[0]) || (|stages[0]| == 1 && stages[0][0].SaveRoom?)) && OnlySaves(stages[1..]))
  }

  lemma {:induction false} OnlyTheRoomChanges(d: Data, stages: seq<Stage>, d': Data, complete: bool)
    requires OnlySaves(stages) && Ran(d, stages, d', complete)
    ensures d' == d.(room := d'.room)
    decreases stages
  {
    if stages != [] {
      assert stages[0] == [stages[0][0]];
      OneWriteStage(d, stages[0][0]);
      if Ran(RunStage(d, stages[0]), stages[1..], d', complete) {
        OnlyTheRoomChanges(RunStage(d, stages[0]), stages[1..], d', complete);
      }
    }
  }

  /** The stages save exactly this room, if any, and write nothing else. */
  predicate JustSaves(stages: seq<Stage>, room: Option<Room>) {
    CommitShape(stages) && OnlySaves(stages) && SavedRoom(stages) == room
  }

  lemma {:induction false} TimersJustSaveNothing(stages: seq<Stage>)
    requires TimersOnly(stages)
    ensures JustSaves(stages, None)
    decreases stages
  {
    if stages != [] {
      TimersJustSaveNothing(stages[1..]);
    }
  }

  lemma {:induction false} SaveAmongTimersShape(before: seq<Stage>, room: Room, after: seq<Stage>)
    requires TimersOnly(before) && TimersOnly(after)
    ensures JustSaves(before + [[SaveRoom(room)]] + after, Some(room))
    decreases before
  {
    var stages := before + [[SaveRoom(room)]] + after;
    if before == [] {
      assert stages[0] == [SaveRoom(room)] && stages[1..] == after;
      TimersJustSaveNothing(after);
    } else {
      SaveAmongTimersShape(before[1..], room, after);
      assert stages[0] == before[0] && stages[1..] == before[1..] + [[SaveRoom(room)]] + after;
    }
  }

  lemma SaveShape(room: Room)
    ensures JustSaves([[SaveRoom(room)]], Some(room))
  {
    SaveAmongTimersShape([], room, []);
    assert [] + [[SaveRoom(room)]] + [] == [[SaveRoom(room)]];
  }

  lemma EndRoundShape(room: Room, titles: Option<Reveal>, now: int, lost: set<TimerKind>)
    ensures JustSaves(EndRound(room, titles, now, lost).stages, Some(FinalizeRoundEnd(room, titles, now).0))
  {
    var (ended, before) := FinalizeRoundEnd(room, titles, now);
    CancelsAreTimersOnly(ended, lost);
    SaveAmongTimersShape(before, ended, CleanupStaleRoundTimers(ended, lost));
  }

  lemma RecomputeShape(room: Room, now: int)
    ensures var (r, before) := RecomputeReady(room, now); JustSaves(before + [[SaveRoom(r)]], Some(r))
  {
    var (r, before) := RecomputeReady(room, now);
    SaveAmongTimersShape(before, r, []);
    assert before + [[SaveRoom(r)]] + [] == before + [[SaveRoom(r)]];
  }

  /** The request saves the room, if at all, without starting or advancing the game. */
  ghost predicate SavesMove(room: Room, stages: seq<Stage>) {
    && JustSaves(stages, SavedRoom(stages))
    && (SavedRoom(stages).Some? ==> Stays(room, SavedRoom(stages).value))
  }

  ghost predicate SavesSameScores(room: Room, stages: seq<Stage>) {
    SavesMove(room, stages) && (SavedRoom(stages).Some? ==> SameScores(room, SavedRoom(stages).value))
  }

  lemma NothingSaved(room: Room)
    ensures SavesMove(room, [])
  {
  }

  lemma JoinMoves(room: Room, u: UserId, account: bool, matches: bool)
    requires GoodRoom(room)
    ensures SavesMove(room, JoinPlan(room, u, account, matches).stages)
  {
    var ps := room.participants + [Participant(u, 0)];
    SaveShape(room.(participants := ps, curUserCnt := |ps|));
    NothingSaved(room);
  }

  /** The request deletes the room: it is the departure of the last participant. */
  predicate DeletesRoom(d: Data, r: Request) {
    d.room.Some? && r.Leave? && IndexOf(d.room.value.participants, r.userId) != -1 && |d.room.value.participants| == 1
  }

  lemma LeaveMoves(d: Data, room: Room, r: Request)
    requires GoodRoom(room) && d.room == Some(room) && r.Leave? && !DeletesRoom(d, r)
    ensures SavesMove(room, LeavePlan(d, room, r.userId, r.now, r.lost).stages)
  {
    NothingSaved(room);
    var i := IndexOf(room.participants, r.userId);
    if i != -1 {
      var left := WithoutParticipant(room, i);
      SaveShape(left);
      RecomputeShape(left, r.now);
      EndRoundShape(left, d.titles, r.now, r.lost);
    }
  }

  lemma UpdateMoves(room: Room, r: Request)
    requires GoodRoom(room) && r.Update?
    ensures SavesMove(room, UpdatePlan(room, r).stages)
  {
    NothingSaved(room);
    if UpdatePlan(room, r).stages != [] {
      SaveShape(UpdatePlan(room, r).stages[0][0].room);
    }
  }

  lemma MarkReadyMoves(room: Room, u: UserId, now: int)
    requires GoodRoom(room)
    ensures SavesSameScores(room, MarkReadyPlan(room, u, now).stages)
  {
    NothingSaved(room);
    if room.currentRound.Some? && room.gameStatus.Loading? {
      var round := room.currentRound.value;
      var ready := if u in round.readyUserIds then round.readyUserIds else round.readyUserIds + [u];
      RecomputeShape(room.(currentRound := Some(round.(readyUserIds := ready))), now);
    }
  }

  lemma SubmitMoves(d: Data, room: Room, u: UserId, message: string, now: int, lost: set<TimerKind>)
    requires GoodRoom(room) && d.room == Some(room)
    ensures SavesMove(room, SubmitPlan(d, room, u, message, now, lost).stages)
  {
    NothingSaved(room);
    if ChatActionOf(d, room, u, message).Correct? {
      var answered := WithCorrectAnswer(room, u);
      SaveShape(answered);
      EndRoundShape(answered, d.titles, now, lost);
      var at := now + SPEED_MODE_REVEAL_DELAY_MS;
      var revealing := answered.(currentRound := Some(answered.currentRound.value.(autoRevealAt := Some(at))));
      OneTimerShape(ScheduleTimer(SpeedReveal, at), revealing);
    }
  }

  lemma OneTimerShape(timer: Effect, room: Room)
    requires timer.ScheduleTimer?
    ensures JustSaves([[timer], [SaveRoom(room)]], Some(room))
  {
    SaveAmongTimersShape([[timer]], room, []);
    assert [[timer]] + [[SaveRoom(room)]] + [] == [[timer], [SaveRoom(room)]];
  }

  lemma RequestSkipMoves(d: Data, room: Room, u: UserId, now: int, lost: set<TimerKind>)
    requires GoodRoom(room)
    ensures SavesSameScores(room, RequestSkipPlan(d, room, u, now, lost).stages)
  {
    NothingSaved(room);
    if room.currentRound.Some? && room.gameStatus.Playing? {
      var round := room.currentRound.value;
      var skip := if u in round.skipUserIds then round.skipUserIds else round.skipUserIds + [u];
      var asked := room.(currentRound := Some(round.(skipUserIds := skip)));
      SaveShape(asked);
      EndRoundShape(asked, d.titles, now, lost);
    }
  }

  lemma ForceSkipMoves(room: Room, u: UserId, now: int)
    requires GoodRoom(room)
    ensures SavesSameScores(room, ForceSkipPlan(room, u, now).stages)
  {
    NothingSaved(room);
    if room.hostUserId == u && room.currentRound.Some? && room.gameStatus.Playing? {
      var forced := room.(currentRound :=
        Some(room.currentRound.value.(forceSkipAt := Some(now + FORCE_SKIP_DELAY_MS))));
      OneTimerShape(ScheduleTimer(RoundTimeout, now + FORCE_SKIP_DELAY_MS), forced);
    }
  }

  lemma TimeUpMoves(d: Data, room: Room, now: int, lost: set<TimerKind>)
    requires GoodRoom(room)
    ensures SavesSameScores(room, TimeUpPlan(d, room, now, lost).stages)
  {
    NothingSaved(room);
    EndRoundShape(room, d.titles, now, lost);
  }

  /** The requests that write the documents of the game. */
  predicate ChangesGame(r: Request) {
    r.Start? || r.Restart? || r.Next? || r.SpeedNextFired?
  }

  /** Every request on a stored room that neither starts nor advances the game nor deletes the room. */
  lemma SimpleRequestMoves(d: Data, r: Request)
    requires GoodData(d) && d.room.Some? && !r.Create? && !ChangesGame(r) && !DeletesRoom(d, r)
    ensures SavesMove(d.room.value, PlanOf(d, r).stages)
  {
    var room := d.room.value;
    if r.Join? {
      JoinMoves(room, r.userId, r.account, r.passwordMatches);
    } else if r.Leave? {
      LeaveMoves(d, room, r);
    } else if r.Update? {
      UpdateMoves(room, r);
    } else if r.MarkReady? {
      MarkReadyMoves(room, r.userId, r.now);
    } else if r.Submit? {
      SubmitMoves(d, room, r.userId, r.message, r.now, r.lost);
    } else if r.RequestSkip? {
      RequestSkipMoves(d, room, r.userId, r.now, r.lost);
    } else if r.ForceSkip? {
      ForceSkipMoves(room, r.requester, r.now);
    } else {
      TimeUpMoves(d, room, r.now, r.lost);
    }
  }

  // ----- the requests that start and advance the game

  lemma RoundStagesShape(data: RoundData, room: Room, index: nat, total: nat)
    ensures CommitShape(RoundStages(data, room, index, total))
    ensures SavedRoom(RoundStages(data, room, index, total)) == Some(LoadingRoom(room, index, total))
  {
    var stages := RoundStages(data, room, index, total);
    var save: seq<Stage> := [[SaveRoom(LoadingRoom(room, index, total))]];
    assert save[1..] == [];
    assert stages[1..][1..] == save && |stages[1..]| == 2 && stages[1..][0][0].SetReveal?;
    assert SavedRoom(stages) == SavedRoom(stages[1..]) == SavedRoom(save);
  }

  lemma FinishShape(room: Room, stages: seq<Stage>)
    requires stages == [DeleteGame(), [SaveRoom(FinishedRoom(room))]]
    ensures CommitShape(stages) && SavedRoom(stages) == Some(FinishedRoom(room))
  {
    var save: seq<Stage> := [[SaveRoom(FinishedRoom(room))]];
    assert save[1..] == [];
    assert stages[1..] == save && |stages[0]| == 4;
  }

  lemma {:induction false} TimersFirstShape(timers: seq<Stage>, stages: seq<Stage>)
    requires TimersOnly(timers) && CommitShape(stages)
    ensures CommitShape(timers + stages) && SavedRoom(timers + stages) == SavedRoom(stages)
    decreases timers
  {
    if timers == [] {
      assert timers + stages == stages;
    } else {
      TimersFirstShape(timers[1..], stages);
      assert (timers + stages)[0] == timers[0] && (timers + stages)[1..] == timers[1..] + stages;
    }
  }

  lemma StartMoves(room: Room, reset: Room, rounds: Option<seq<RoundData>>, shuffled: seq<RoundData>)
    requires room.currentRound.None?
    ensures var stages := StartGame(reset, rounds, shuffled).stages;
      CommitShape(stages) && (SavedRoom(stages).Some? ==> Starts(room, SavedRoom(stages).value))
  {
    if rounds.Some? && rounds.value != [] {
      var selected := Take(if reset.isRandom then shuffled else rounds.value, reset.songLimit);
      var store: seq<Stage> := [StoreGame(selected)];
      assert store[1..] == [];
      if selected != [] {
        var first := SnapshotOf(selected)[selected[0].quizSongId];
        RoundStagesShape(first, reset, 0, |selected|);
        assert GameStages(reset, selected)[1..] == RoundStages(first, reset, 0, |selected|);
      }
    }
  }

  lemma AdvanceMoves(d: Data, room: Room)
    requires GoodData(d) && d.room == Some(room) && room.gameStatus.RoundEnded?
    ensures var stages := AdvanceToNextRound(d, room).stages;
      && CommitShape(stages) && SavedRoom(stages).Some?
      && (Advances(room, SavedRoom(stages).value) || Finishes(room, SavedRoom(stages).value))
  {
    var round := room.currentRound.value;
    AdvanceFindsRound(d, room);
    if round.roundIndex + 1 < round.totalRounds {
      RoundStagesShape(SongAt(d, round.roundIndex + 1), room, round.roundIndex + 1, round.totalRounds);
    } else {
      FinishShape(room, AdvanceToNextRound(d, room).stages);
    }
  }

  lemma NextMoves(d: Data, room: Room, u: UserId, lost: set<TimerKind>)
    requires GoodData(d) && d.room == Some(room)
    ensures var stages := NextPlan(d, room, u, lost).stages;
      CommitShape(stages) && (SavedRoom(stages).Some? ==> Moves(room, SavedRoom(stages).value))
  {
    if room.hostUserId == u && room.gameStatus.RoundEnded? {
      AdvanceMoves(d, room);
      CancelsAreTimersOnly(room, lost);
      TimersFirstShape(ClearSpeedModeTimer(lost), AdvanceToNextRound(d, room).stages);
    }
  }

  lemma GameRequestMoves(d: Data, r: Request)
    requires GoodData(d) && d.room.Some? && ChangesGame(r)
    ensures var stages := PlanOf(d, r).stages;
      CommitShape(stages) && (SavedRoom(stages).Some? ==> Moves(d.room.value, SavedRoom(stages).value))
  {
    var room := d.room.value;
    if r.Start? {
      if room.gameStatus.Waiting? {
        StartMoves(room, room, r.rounds, r.shuffled);
      }
    } else if r.Restart? {
      if room.gameStatus.Finished? {
        StartMoves(room, room.(participants := ZeroScores(room.participants)), r.rounds, r.shuffled);
      }
    } else if r.Next? {
      NextMoves(d, room, r.requester, r.lost);
    } else if room.gameStatus.RoundEnded? {
      AdvanceMoves(d, room);
    }
  }

  // ----- deleting

  predicate SaveNoRoom(stages: seq<Stage>)
    decreases stages
  {
    stages == [] || (SavesNoRoom(stages[0]) && SaveNoRoom(stages[1..]))
  }

  lemma {:induction false} SaveNoRoomJoined(a: seq<Stage>, b: seq<Stage>)
    requires SaveNoRoom(a) && SaveNoRoom(b)
    ensures SaveNoRoom(a + b)
    decreases a
  {
    if a == [] {
      assert a + b == b;
    } else {
      SaveNoRoomJoined(a[1..], b);
      assert (a + b)[1..] == a[1..] + b;
    }
  }

  lemma {:induction false} TimersSaveNoRoom(timers: seq<Stage>)
    requires TimersOnly(timers)
    ensures SaveNoRoom(timers)
    decreases timers
  {
    if timers != [] {
      TimersSaveNoRoom(timers[1..]);
    }
  }

  /** Once the room is gone, nothing brings it back. */
  lemma {:induction false} GoneStaysGone(d: Data, stages: seq<Stage>, d': Data, complete: bool)
    requires d.room.None? && Ran(d, stages, d', complete) && SaveNoRoom(stages)
    ensures d'.room.None?
    decreases stages
  {
    if stages != [] {
      StageKeepsRoom(d, stages[0]);
      if Ran(RunStage(d, stages[0]), stages[1..], d', complete) {
        GoneStaysGone(RunStage(d, stages[0]), stages[1..], d', complete);
      } else {
        var landed: seq<Landing> :| |landed| == |stages[0]| && d' == RunPart(d, stages[0], landed);
        PartKeepsRoom(d, stages[0], landed);
      }
    }
  }

  lemma DeletionMoves(d: Data, stages: seq<Stage>, d': Data, complete: bool)
    requires stages != [] && stages[0] == [DeleteRoom] && SaveNoRoom(stages[1..])
    requires d.room.Some? && Ran(d, stages, d', complete)
    ensures d' == d || d'.room.None?
    ensures complete ==> d'.room.None?
  {
    OneWriteStage(d, DeleteRoom);
    if Ran(RunStage(d, stages[0]), stages[1..], d', complete) {
      GoneStaysGone(ExecData(d, DeleteRoom), stages[1..], d', complete);
    }
  }

  lemma DeletionShape(lost: set<TimerKind>)
    ensures DeleteRoomStages(lost) != [] && DeleteRoomStages(lost)[0] == [DeleteRoom]
    ensures SaveNoRoom(DeleteRoomStages(lost)[1..])
  {
    var timers := TryCancel(RoundTimeout, lost) + ClearSpeedModeTimer(lost);
    var last: seq<Stage> := [DeleteGame()];
    assert last[1..] == [];
    TimersOnlyJoined(TryCancel(SpeedReveal, lost), TryCancel(SpeedNext, lost));
    TimersOnlyJoined(TryCancel(RoundTimeout, lost), ClearSpeedModeTimer(lost));
    TimersSaveNoRoom(timers);
    SaveNoRoomJoined(timers, last);
    assert DeleteRoomStages(lost)[1..] == timers + last;
  }

  // ----- all of them

  /** What a step, complete or not, may do to the room record. */
  ghost predicate Changes(d: Data, r: Request, d': Data) {
    || d'.room == d.room
    || (d.room.None? && r.Create? && d'.room == Some(NewRoom(r)))
    || (DeletesRoom(d, r) && d'.room.None?)
    || (d.room.Some? && d'.room.Some? && Moves(d.room.value, d'.room.value) && d' == RunStages(d, PlanOf(d, r).stages))
  }

  /** Every request but one that deletes the room saves it at most once, after all other documents. */
  lemma RequestShape(d: Data, r: Request)
    requires GoodData(d) && Admissible(d, r) && !DeletesRoom(d, r)
    ensures var stages := PlanOf(d, r).stages;
      && CommitShape(stages)
      && (SavedRoom(stages).Some? ==>
            if d.room.None? then r.Create? && SavedRoom(stages) == Some(NewRoom(r))
            else Moves(d.room.value, SavedRoom(stages).value))
  {
    if r.Create? {
      SaveShape(NewRoom(r));
    } else if d.room.Some? {
      if ChangesGame(r) {
        GameRequestMoves(d, r);
      } else {
        SimpleRequestMoves(d, r);
      }
    }
  }

  /**
    The commit point of every request: cut short anywhere, it has left the room record as it was, or has had its whole
    effect on the documents. A departure that deletes the room has left everything as it was, or the room is gone.
   */
  lemma RequestCommits(d: Data, step: Step, d': Data)
    requires GoodData(d) && StepsTo(d, step, d')
    ensures step.complete ==> d' == RunStages(d, PlanOf(d, step.request).stages)
    ensures !DeletesRoom(d, step.request) ==> d'.room == d.room || d' == RunStages(d, PlanOf(d, step.request).stages)
    ensures DeletesRoom(d, step.request) ==> d' == d || d'.room.None?
  {
    var r := step.request;
    RequestKeepsGood(d, r);
    RanKeepsGood(d, PlanOf(d, r).stages, d', step.complete);
    if DeletesRoom(d, r) {
      DeletionShape(r.lost);
      DeletionMoves(d, PlanOf(d, r).stages, d', step.complete);
    } else {
      RequestShape(d, r);
      CommitPoint(d, PlanOf(d, r).stages, d', step.complete);
    }
  }

  /**
    A request, complete or cut short, leaves the room record as it was, or creates or deletes it, or has its whole
    effect, and then the room has made one of the moves of the game.
   */
  lemma StepMoves(d: Data, step: Step, d': Data)
    requires GoodData(d) && StepsTo(d, step, d')
    ensures Changes(d, step.request, d')
  {
    RequestCommits(d, step, d');
    if !DeletesRoom(d, step.request) {
      RequestShape(d, step.request);
      CommitPoint(d, PlanOf(d, step.request).stages, d', step.complete);
    }
  }
}
