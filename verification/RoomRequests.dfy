/** Every request and every timer keeps every stored room good, at each of its writes. */
module RoomRequests {
  import opened Names
  import opened RoomModel
  import opened RoomInvariants
  import opened RoomTimerProtocol

  lemma CancelsAreTimersOnly(room: Room, lost: set<TimerKind>)
    ensures TimersOnly(CleanupStaleRoundTimers(room, lost))
    ensures TimersOnly(ClearSpeedModeTimer(lost))
    ensures TimersOnly(TryCancel(RoundTimeout, lost) + ClearSpeedModeTimer(lost))
  {
    TimersOnlyJoined(TryCancel(RoundTimeout, lost), if room.speedModeEnabled then TryCancel(SpeedReveal, lost) else []);
    TimersOnlyJoined(TryCancel(SpeedReveal, lost), TryCancel(SpeedNext, lost));
    TimersOnlyJoined(TryCancel(RoundTimeout, lost), ClearSpeedModeTimer(lost));
  }

  /** Saving a room in which nothing relevant changed for the documents around it. */
  lemma SameRoundStored(d: Data, was: Room, changed: Room)
    requires RoundStored(d, was) && was.currentRound.Some? && changed.currentRound.Some?
    requires changed.currentRound.value.roundIndex == was.currentRound.value.roundIndex
    requires changed.currentRound.value.totalRounds == was.currentRound.value.totalRounds
    requires changed.gameStatus == was.gameStatus || (was.gameStatus.Loading? && changed.gameStatus.Playing?)
    requires changed.currentRound.value.title == was.currentRound.value.title
    ensures RoundStored(d, changed)
  {
  }

  /** The end of a round, from any room that may be played. */
  lemma EndRoundKeepsGood(d: Data, room: Room, now: int, lost: set<TimerKind>)
    requires GoodData(d) && WellFormed(room) && ScoresBounded(room) && room.gameStatus.Playing? && RoundStored(d, room)
    ensures KeepsGood(d, EndRound(room, d.titles, now, lost).stages)
    ensures RunStages(d, EndRound(room, d.titles, now, lost).stages)
         == d.(room := Some(FinalizeRoundEnd(room, d.titles, now).0))
    ensures FinalizeRoundEnd(room, d.titles, now).0.gameStatus.RoundEnded?
  {
    var (ended, before) := FinalizeRoundEnd(room, d.titles, now);
    CancelsAreTimersOnly(ended, lost);
    SaveAmongTimers(d, before, ended, CleanupStaleRoundTimers(ended, lost));
  }

  lemma RecomputeKeepsGood(d: Data, room: Room, now: int)
    requires GoodData(d) && room.gameStatus.Loading? && room.currentRound.Some?
    requires WellFormed(room) && ScoresBounded(room) && RoundStored(d, room)
    requires room.currentRound.value.correctUserIds == [] && room.currentRound.value.skipUserIds == []
    ensures var (r, before) := RecomputeReady(room, now); KeepsGood(d, before + [[SaveRoom(r)]])
  {
    var (r, before) := RecomputeReady(room, now);
    SameRoundStored(d, room, r);
    SaveAmongTimers(d, before, r, []);
    assert before + [[SaveRoom(r)]] + [] == before + [[SaveRoom(r)]];
  }

  lemma SaveKeepsGood(d: Data, room: Room)
    requires GoodData(d) && GoodRoom(room) && RoundStored(d, room)
    ensures KeepsGood(d, [[SaveRoom(room)]])
  {
    SaveAmongTimers(d, [], room, []);
    assert [] + [[SaveRoom(room)]] + [] == [[SaveRoom(room)]];
  }

  // ----- joining and leaving

  lemma JoinKeepsGood(d: Data, room: Room, u: UserId, account: bool, matches: bool)
    requires GoodData(d) && d.room == Some(room) && (!account ==> !Takes(room, u))
    ensures KeepsGood(d, JoinPlan(room, u, account, matches).stages)
  {
    if (account && Takes(room, u)) || room.curUserCnt >= room.maxUserCnt || (room.isPrivate && !matches) {
      return;
    }
    var ps := room.participants + [Participant(u, 0)];
    var joined := room.(participants := ps, curUserCnt := |ps|);
    assert Takes(joined, joined.hostUserId) by {
      var i :| 0 <= i < |room.participants| && room.participants[i].userId == room.hostUserId;
      assert ps[i].userId == room.hostUserId;
    }
    if room.currentRound.Some? {
      OldMembersStillMissing(room.participants, u, room.currentRound.value.readyUserIds);
      OldMembersStillMissing(room.participants, u, room.currentRound.value.correctUserIds);
      SameRoundStored(d, room, joined);
    }
    SaveKeepsGood(d, joined);
  }

  lemma OldMembersStillMissing(ps: seq<Participant>, u: UserId, ids: seq<UserId>)
    ensures !AllIn(ps, ids) ==> !AllIn(ps + [Participant(u, 0)], ids)
  {
    if !AllIn(ps, ids) {
      var i :| 0 <= i < |ps| && ps[i].userId !in ids;
      assert (ps + [Participant(u, 0)])[i] == ps[i];
    }
  }

  /** Nothing of a user who leaves remains in the room, the others stay as they were, and one of them is the host. */
  lemma LeaverIsForgotten(room: Room, i: nat)
    requires WellFormed(room) && i < |room.participants| && |room.participants| > 1
    ensures var u, left := room.participants[i].userId, WithoutParticipant(room, i);
      && !Takes(left, u) && left.hostUserId != u
      && (forall p :: p in left.participants <==> p in room.participants && p.userId != u)
      && (left.currentRound.Some? ==>
            var round := left.currentRound.value;
            u !in round.readyUserIds && u !in round.correctUserIds && u !in round.skipUserIds)
  {
    var u, left := room.participants[i].userId, WithoutParticipant(room, i);
    forall k | 0 <= k < |left.participants|
      ensures left.participants[k] == room.participants[if k < i then k else k + 1] && left.participants[k].userId != u
    {
    }
    forall p | p in room.participants && p.userId != u ensures p in left.participants {
      var k :| 0 <= k < |room.participants| && room.participants[k] == p;
      assert left.participants[if k < i then k else k - 1] == p;
    }
    assert left.participants[0] in left.participants;
  }

  lemma DepartureKeepsShapeOfRoom(room: Room, i: nat)
    requires WellFormed(room) && i < |room.participants| && |room.participants| > 1
    ensures WellFormed(WithoutParticipant(room, i))
    ensures WithoutParticipant(room, i).gameStatus == room.gameStatus
  {
    var left := WithoutParticipant(room, i);
    forall k | 0 <= k < |left.participants|
      ensures left.participants[k] == room.participants[if k < i then k else k + 1]
    {
    }
    if room.hostUserId != room.participants[i].userId {
      var h :| 0 <= h < |room.participants| && room.participants[h].userId == room.hostUserId;
      assert left.participants[if h < i then h else h - 1].userId == room.hostUserId;
    } else {
      assert left.participants[0].userId == left.hostUserId;
    }
  }

  lemma DepartureKeepsScores(room: Room, i: nat)
    requires WellFormed(room) && ScoresBounded(room) && i < |room.participants| && |room.participants| > 1
    ensures ScoresBounded(WithoutParticipant(room, i))
  {
    var left := WithoutParticipant(room, i);
    forall k | 0 <= k < |left.participants|
      ensures left.participants[k] == room.participants[if k < i then k else k + 1]
      ensures left.participants[k].userId != room.participants[i].userId
    {
    }
  }

  /** What is left of a good room after a departure: all but quiescence, which the request restores. */
  lemma DepartureKeepsShape(d: Data, room: Room, i: nat)
    requires GoodRoom(room) && RoundStored(d, room) && i < |room.participants| && |room.participants| > 1
    ensures var left := WithoutParticipant(room, i);
      WellFormed(left) && ScoresBounded(left) && RoundStored(d, left) && left.gameStatus == room.gameStatus
  {
    DepartureKeepsShapeOfRoom(room, i);
    DepartureKeepsScores(room, i);
    if room.currentRound.Some? {
      SameRoundStored(d, room, WithoutParticipant(room, i));
    }
  }

  lemma DeleteKeepsGood(d: Data, room: Room, lost: set<TimerKind>)
    requires GoodData(d) && d.room == Some(room)
    ensures KeepsGood(d, DeleteRoomStages(lost))
  {
    var gone := d.(room := None);
    NoRoomIsGood(gone);
    OneStage(d, DeleteRoom);
    var timers := TryCancel(RoundTimeout, lost) + ClearSpeedModeTimer(lost);
    CancelsAreTimersOnly(room, lost);
    TimerStagesKeepData(gone, timers);
    StagesAppend(d, [[DeleteRoom]], timers);
    GameDeletesNoRoom(gone);
    StagesAppend(d, [[DeleteRoom]] + timers, [DeleteGame()]);
    assert DeleteRoomStages(lost) == [[DeleteRoom]] + timers + [DeleteGame()];
  }

  lemma GameDeletesNoRoom(d: Data)
    requires GoodData(d) && (d.room.Some? ==> d.room.value.currentRound.None?)
    ensures KeepsGood(d, [DeleteGame()]) && GoodData(RunStage(d, DeleteGame()))
      && RunStage(d, DeleteGame()).room == d.room
    ensures RunStages(d, [DeleteGame()]) == RunStage(d, DeleteGame())
  {
    NoRoomKeepsGood(d, DeleteGame());
  }

  predicate SavesNoRoom(stage: Stage) {
    forall i :: 0 <= i < |stage| ==> !stage[i].SaveRoom? && !stage[i].DeleteRoom?
  }

  lemma {:induction false} PartKeepsRoom(d: Data, stage: Stage, landed: seq<Landing>)
    requires SavesNoRoom(stage) && |landed| == |stage|
    ensures RunPart(d, stage, landed).room == d.room
    decreases stage
  {
    if stage != [] {
      PartKeepsRoom(if landed[0].Landed? then ExecData(d, stage[0]) else d, stage[1..], landed[1..]);
    }
  }

  lemma {:induction false} StageKeepsRoom(d: Data, stage: Stage)
    requires SavesNoRoom(stage)
    ensures RunStage(d, stage).room == d.room
    decreases stage
  {
    if stage != [] {
      StageKeepsRoom(ExecData(d, stage[0]), stage[1..]);
    }
  }

  /** Without a room, or with one that is in no game, the other documents may be in any state. */
  lemma NoRoomKeepsGood(d: Data, stage: Stage)
    requires GoodData(d) && (d.room.Some? ==> d.room.value.currentRound.None?) && SavesNoRoom(stage)
    ensures KeepsGood(d, [stage]) && RunStages(d, [stage]) == RunStage(d, stage) && GoodData(RunStage(d, stage))
    ensures RunStage(d, stage).room == d.room
  {
    forall landed: seq<Landing> | |landed| == |stage| ensures GoodData(RunPart(d, stage, landed)) {
      PartKeepsRoom(d, stage, landed);
    }
    StageKeepsRoom(d, stage);
    assert [stage][1..] == [];
  }

  lemma LeaveKeepsGood(d: Data, room: Room, u: UserId, now: int, lost: set<TimerKind>)
    requires GoodData(d) && d.room == Some(room)
    ensures KeepsGood(d, LeavePlan(d, room, u, now, lost).stages)
  {
    var i := IndexOf(room.participants, u);
    if i == -1 {
    } else if |room.participants| == 1 {
      DeleteKeepsGood(d, room, lost);
    } else {
      DepartureKeepsShape(d, room, i);
      var left := WithoutParticipant(room, i);
      if left.gameStatus.Loading? {
        RecomputeKeepsGood(d, left, now);
      } else if left.gameStatus.Playing?
        && (AllIn(left.participants, left.currentRound.value.correctUserIds) || HasSkipMajority(left)) {
        EndRoundKeepsGood(d, left, now, lost);
      } else {
        SaveKeepsGood(d, left);
      }
    }
  }

  // ----- settings and the start of a game

  lemma UpdateKeepsGood(d: Data, room: Room, r: Request)
    requires GoodData(d) && d.room == Some(room) && r.Update? && Admissible(d, r)
    ensures KeepsGood(d, UpdatePlan(room, r).stages)
  {
    if UpdatePlan(room, r).stages != [] {
      SaveKeepsGood(d, UpdatePlan(room, r).stages[0][0].room);
    }
  }

  lemma CreateKeepsGood(d: Data, r: Request)
    requires GoodData(d) && r.Create? && Admissible(d, r)
    ensures KeepsGood(d, CreatePlan(r).stages)
  {
    assert Takes(NewRoom(r), r.host) by {
      assert NewRoom(r).participants[0].userId == r.host;
    }
    SaveKeepsGood(d, NewRoom(r));
  }

  /** A fresh loading room is good once the documents of its round are stored. */
  lemma LoadingRoomIsGood(d: Data, room: Room, index: nat, total: nat)
    requires WellFormed(room) && index < total
    requires forall i :: 0 <= i < |room.participants| ==> room.participants[i].score <= 6 * index
    requires d.songOrder.Some? && d.snapshot.Some? && |d.songOrder.value| == total
    requires forall i :: 0 <= i < total ==> d.songOrder.value[i] in d.snapshot.value
    requires d.answers == Some(SongAt(d, index).answers) && d.titles == Some(SongAt(d, index).Titles())
    ensures GoodRoom(LoadingRoom(room, index, total)) && RoundStored(d, LoadingRoom(room, index, total))
  {
    var loading := LoadingRoom(room, index, total);
    assert Takes(loading, loading.hostUserId);
    assert room.participants[0].userId !in loading.currentRound.value.readyUserIds;
  }

  /** A song order and a snapshot drawn from the same rounds fit together. */
  lemma SelectionIsCovered(selected: seq<RoundData>)
    ensures |SongIds(selected)| == |selected|
    ensures forall i :: 0 <= i < |selected| ==> SongIds(selected)[i] in SnapshotOf(selected)
  {
  }

  /** The answers and titles of a round do not matter to a stored room that is neither loading nor playing. */
  lemma BetweenRounds(d: Data, d': Data)
    requires GoodData(d) && d.room.Some? && !d.room.value.gameStatus.Loading? && !d.room.value.gameStatus.Playing?
    requires d' == d.(answers := d'.answers, titles := d'.titles)
    ensures GoodData(d')
  {
  }

  /** Answers, titles, and then the room that is loading that round. */
  lemma RoundWrites(d: Data, data: RoundData, room: Room, index: nat, total: nat)
    requires GoodData(d) && d.room.Some? && !d.room.value.gameStatus.Loading? && !d.room.value.gameStatus.Playing?
    requires WellFormed(room) && index < total
    requires forall i :: 0 <= i < |room.participants| ==> room.participants[i].score <= 6 * index
    requires d.songOrder.Some? && d.snapshot.Some? && |d.songOrder.value| == total
    requires forall i :: 0 <= i < total ==> d.songOrder.value[i] in d.snapshot.value
    requires data == SongAt(d, index)
    ensures var stages := RoundStages(data, room, index, total);
      && KeepsGood(d, stages)
      && RunStages(d, stages)
      == d.(answers := Some(data.answers), titles := Some(data.Titles()), room := Some(LoadingRoom(room, index, total)))
  {
    var d1 := d.(answers := Some(data.answers));
    var d2 := d1.(titles := Some(data.Titles()));
    var loading := LoadingRoom(room, index, total);
    BetweenRounds(d, d1);
    BetweenRounds(d, d2);
    LoadingRoomIsGood(d2, room, index, total);
    OneStage(d, SetAnswers(data.answers));
    OneStage(d1, SetReveal(data.Titles()));
    OneStage(d2, SaveRoom(loading));
    StagesAppend(d1, [[SetReveal(data.Titles())]], [[SaveRoom(loading)]]);
    StagesAppend(d, [[SetAnswers(data.answers)]], [[SetReveal(data.Titles())]] + [[SaveRoom(loading)]]);
    assert RoundStages(data, room, index, total)
        == [[SetAnswers(data.answers)]] + ([[SetReveal(data.Titles())]] + [[SaveRoom(loading)]]);
  }

  lemma StoreGameWrites(d: Data, selected: seq<RoundData>)
    ensures RunStage(d, StoreGame(selected))
      == d.(songOrder := Some(SongIds(selected)), snapshot := Some(SnapshotOf(selected)))
  {
    var stage := StoreGame(selected);
    assert stage[1..] == [SetSnapshot(SnapshotOf(selected))];
    var d1 := ExecData(d, SetSongOrder(SongIds(selected)));
    assert RunStage(d, stage) == RunStage(d1, stage[1..]);
    OneWriteStage(d1, SetSnapshot(SnapshotOf(selected)));
  }

  /** Song order and snapshot, stored together while the room is in no game. */
  lemma SelectionWrites(d: Data, selected: seq<RoundData>, stored: Data)
    requires GoodData(d) && d.room.Some? && d.room.value.currentRound.None?
    requires stored == d.(songOrder := Some(SongIds(selected)), snapshot := Some(SnapshotOf(selected)))
    ensures KeepsGood(d, [StoreGame(selected)]) && GoodData(stored)
    ensures RunStages(d, [StoreGame(selected)]) == stored
  {
    StoreGameWrites(d, selected);
    NoRoomKeepsGood(d, StoreGame(selected));
  }

  lemma FirstRoundWrites(d: Data, room: Room, selected: seq<RoundData>)
    requires GoodData(d) && d.room.Some? && d.room.value.currentRound.None? && selected != []
    requires WellFormed(room) && forall i :: 0 <= i < |room.participants| ==> room.participants[i].score == 0
    ensures KeepsGood(d, GameStages(room, selected))
  {
    var first := SnapshotOf(selected)[selected[0].quizSongId];
    var d1 := d.(songOrder := Some(SongIds(selected)), snapshot := Some(SnapshotOf(selected)));
    SelectionWrites(d, selected, d1);
    SelectionIsCovered(selected);
    RoundWrites(d1, first, room, 0, |selected|);
    StagesAppend(d, [StoreGame(selected)], RoundStages(first, room, 0, |selected|));
  }

  lemma StartKeepsGood(d: Data, room: Room, rounds: Option<seq<RoundData>>, shuffled: seq<RoundData>)
    requires GoodData(d) && d.room.Some? && d.room.value.currentRound.None?
    requires WellFormed(room) && forall i :: 0 <= i < |room.participants| ==> room.participants[i].score == 0
    ensures KeepsGood(d, StartGame(room, rounds, shuffled).stages)
  {
    if rounds.Some? && rounds.value != [] {
      var selected := Take(if room.isRandom then shuffled else rounds.value, room.songLimit);
      if selected == [] {
        SelectionWrites(d, selected, d.(songOrder := Some(SongIds(selected)), snapshot := Some(SnapshotOf(selected))));
      } else {
        FirstRoundWrites(d, room, selected);
      }
    }
  }

  // ----- the course of a game

  /** Dropping documents of the game after its last round, whichever of the deletes take effect. */
  lemma FinishedGameDocuments(d: Data, d': Data)
    requires GoodData(d) && d.room.Some? && d.room.value.gameStatus.RoundEnded? && d'.room == d.room
    requires d.room.value.currentRound.value.roundIndex + 1 >= d.room.value.currentRound.value.totalRounds
    requires d'.songOrder == d.songOrder || d'.songOrder.None?
    requires d'.snapshot == d.snapshot || d'.snapshot.None?
    ensures GoodData(d')
  {
  }

  /** A delete that takes effect leaves nothing, and one that does not leaves what was there. */
  lemma PartOfDeletes(d: Data, stage: Stage, landed: seq<Landing>)
    requires stage == DeleteGame() && |landed| == 4
    ensures RunPart(d, stage, landed).room == d.room
    ensures RunPart(d, stage, landed).songOrder == d.songOrder || RunPart(d, stage, landed).songOrder.None?
    ensures RunPart(d, stage, landed).snapshot == d.snapshot || RunPart(d, stage, landed).snapshot.None?
  {
    var d1 := if landed[0].Landed? then ExecData(d, DelSongOrder) else d;
    var d2 := if landed[1].Landed? then ExecData(d1, DelSnapshot) else d1;
    var rest := [DelSnapshot, DelAnswers, DelReveal];
    assert stage[1..] == rest;
    assert RunPart(d, stage, landed) == RunPart(d1, rest, landed[1..]);
    assert rest[1..] == [DelAnswers, DelReveal];
    assert RunPart(d1, rest, landed[1..]) == RunPart(d2, rest[1..], landed[1..][1..]);
    TailOfDeletes(d2, rest[1..], landed[1..][1..]);
  }

  lemma TailOfDeletes(d: Data, stage: Stage, landed: seq<Landing>)
    requires stage == [DelAnswers, DelReveal] && |landed| == 2
    ensures var d' := RunPart(d, stage, landed);
      d'.room == d.room && d'.songOrder == d.songOrder && d'.snapshot == d.snapshot
  {
    assert stage[1..] == [DelReveal];
    var d1 := if landed[0].Landed? then ExecData(d, DelAnswers) else d;
    assert RunPart(d, stage, landed) == RunPart(d1, [DelReveal], landed[1..]);
    OneWriteStage(d1, DelReveal);
  }

  lemma WholeDeletes(d: Data)
    ensures RunStage(d, DeleteGame()) == Data(d.room, None, None, None, None)
  {
    var stage := DeleteGame();
    assert stage[1..] == [DelSnapshot, DelAnswers, DelReveal];
    assert stage[1..][1..] == [DelAnswers, DelReveal];
    assert stage[1..][1..][1..] == [DelReveal];
    assert stage[1..][1..][1..][1..] == [];
  }

  function FinishedRoom(room: Room): Room {
    room.(gameStatus := Finished, currentRound := None)
  }

  lemma DeletesKeepGood(d: Data)
    requires GoodData(d) && d.room.Some? && d.room.value.gameStatus.RoundEnded?
    requires d.room.value.currentRound.value.roundIndex + 1 >= d.room.value.currentRound.value.totalRounds
    ensures KeepsGood(d, [DeleteGame()]) && RunStages(d, [DeleteGame()]) == Data(d.room, None, None, None, None)
    ensures GoodData(Data(d.room, None, None, None, None))
  {
    forall landed: seq<Landing> | |landed| == |DeleteGame()| ensures GoodData(RunPart(d, DeleteGame(), landed)) {
      PartOfDeletes(d, DeleteGame(), landed);
      FinishedGameDocuments(d, RunPart(d, DeleteGame(), landed));
    }
    WholeDeletes(d);
    FinishedGameDocuments(d, RunStage(d, DeleteGame()));
    assert [DeleteGame()][1..] == [];
  }

  lemma FinishKeepsGood(d: Data, room: Room)
    requires GoodData(d) && d.room == Some(room) && room.gameStatus.RoundEnded?
    requires room.currentRound.value.roundIndex + 1 >= room.currentRound.value.totalRounds
    ensures var stages := [DeleteGame(), [SaveRoom(FinishedRoom(room))]];
      KeepsGood(d, stages) && RunStages(d, stages) == Data(Some(FinishedRoom(room)), None, None, None, None)
  {
    DeletesKeepGood(d);
    var bare := Data(d.room, None, None, None, None);
    OneStage(bare, SaveRoom(FinishedRoom(room)));
    StagesAppend(d, [DeleteGame()], [[SaveRoom(FinishedRoom(room))]]);
    assert [DeleteGame()] + [[SaveRoom(FinishedRoom(room))]] == [DeleteGame(), [SaveRoom(FinishedRoom(room))]];
  }

  /** In a good store the game is over exactly after its last round, and until then the next round is always found. */
  lemma AdvanceFindsRound(d: Data, room: Room)
    requires GoodData(d) && d.room == Some(room) && room.gameStatus.RoundEnded?
    ensures var round := room.currentRound.value;
      AdvanceToNextRound(d, room) ==
        if round.roundIndex + 1 < round.totalRounds then
          Steps(RoundStages(SongAt(d, round.roundIndex + 1), room, round.roundIndex + 1, round.totalRounds))
        else
          Steps([DeleteGame(), [SaveRoom(FinishedRoom(room))]])
  {
  }

  lemma AdvanceKeepsGood(d: Data, room: Room)
    requires GoodData(d) && d.room == Some(room) && room.gameStatus.RoundEnded?
    ensures KeepsGood(d, AdvanceToNextRound(d, room).stages)
  {
    var round := room.currentRound.value;
    AdvanceFindsRound(d, room);
    if round.roundIndex + 1 < round.totalRounds {
      RoundWrites(d, SongAt(d, round.roundIndex + 1), room, round.roundIndex + 1, round.totalRounds);
    } else {
      FinishKeepsGood(d, room);
    }
  }

  lemma NextKeepsGood(d: Data, room: Room, u: UserId, lost: set<TimerKind>)
    requires GoodData(d) && d.room == Some(room)
    ensures KeepsGood(d, NextPlan(d, room, u, lost).stages)
  {
    if room.hostUserId == u && room.gameStatus.RoundEnded? {
      CancelsAreTimersOnly(room, lost);
      TimerStagesKeepData(d, ClearSpeedModeTimer(lost));
      AdvanceKeepsGood(d, room);
      StagesAppend(d, ClearSpeedModeTimer(lost), AdvanceToNextRound(d, room).stages);
    }
  }

  // ----- what happens within a round

  lemma MarkReadyKeepsGood(d: Data, room: Room, u: UserId, now: int)
    requires GoodData(d) && d.room == Some(room)
    ensures KeepsGood(d, MarkReadyPlan(room, u, now).stages)
  {
    if room.currentRound.Some? && room.gameStatus.Loading? {
      var round := room.currentRound.value;
      var ready := if u in round.readyUserIds then round.readyUserIds else round.readyUserIds + [u];
      var marked := room.(currentRound := Some(round.(readyUserIds := ready)));
      SameRoundStored(d, room, marked);
      RecomputeKeepsGood(d, marked, now);
    }
  }

  /** A correct answer keeps the shape of the room, and the score bound makes room for its points. */
  lemma CorrectAnswerKeepsShape(d: Data, room: Room, u: UserId)
    requires GoodRoom(room) && RoundStored(d, room) && room.gameStatus.Playing?
    requires u !in room.currentRound.value.correctUserIds
    ensures var answered := WithCorrectAnswer(room, u);
      && WellFormed(answered) && ScoresBounded(answered) && RoundStored(d, answered)
      && answered.gameStatus.Playing? && !HasSkipMajority(answered)
  {
    var answered := WithCorrectAnswer(room, u);
    forall k | 0 <= k < |room.participants|
      ensures answered.participants[k].userId == room.participants[k].userId
      ensures answered.participants[k].score <= MaxScore(answered.currentRound.value, answered.participants[k].userId)
    {
    }
    var h :| 0 <= h < |room.participants| && room.participants[h].userId == room.hostUserId;
    assert answered.participants[h].userId == room.hostUserId;
    SameRoundStored(d, room, answered);
  }

  lemma CorrectKeepsGood(d: Data, answered: Room, now: int, lost: set<TimerKind>)
    requires GoodData(d) && WellFormed(answered) && ScoresBounded(answered) && RoundStored(d, answered)
    requires answered.gameStatus.Playing? && !HasSkipMajority(answered)
    ensures KeepsGood(d, CorrectPlan(d, answered, now, lost).stages)
  {
    var round := answered.currentRound.value;
    if AllIn(answered.participants, round.correctUserIds) {
      EndRoundKeepsGood(d, answered, now, lost);
    } else if answered.speedModeEnabled && |round.correctUserIds| == 1 {
      var at := now + SPEED_MODE_REVEAL_DELAY_MS;
      var saved := answered.(currentRound := Some(round.(autoRevealAt := Some(at))));
      SameRoundStored(d, answered, saved);
      var before: seq<Stage> := [[ScheduleTimer(SpeedReveal, at)]];
      SaveAmongTimers(d, before, saved, []);
      assert before + [[SaveRoom(saved)]] + [] == CorrectPlan(d, answered, now, lost).stages;
    } else {
      SaveKeepsGood(d, answered);
    }
  }

  lemma SubmitKeepsGood(d: Data, room: Room, u: UserId, message: string, now: int, lost: set<TimerKind>)
    requires GoodData(d) && d.room == Some(room)
    ensures KeepsGood(d, SubmitPlan(d, room, u, message, now, lost).stages)
  {
    if ChatActionOf(d, room, u, message).Correct? {
      CorrectAnswerKeepsShape(d, room, u);
      CorrectKeepsGood(d, WithCorrectAnswer(room, u), now, lost);
    }
  }

  lemma RequestSkipKeepsGood(d: Data, room: Room, u: UserId, now: int, lost: set<TimerKind>)
    requires GoodData(d) && d.room == Some(room)
    ensures KeepsGood(d, RequestSkipPlan(d, room, u, now, lost).stages)
  {
    if room.currentRound.Some? && room.gameStatus.Playing? {
      var round := room.currentRound.value;
      var skip := if u in round.skipUserIds then round.skipUserIds else round.skipUserIds + [u];
      var asked := room.(currentRound := Some(round.(skipUserIds := skip)));
      SameRoundStored(d, room, asked);
      if HasSkipMajority(asked) {
        EndRoundKeepsGood(d, asked, now, lost);
      } else {
        SaveKeepsGood(d, asked);
      }
    }
  }

  lemma ForceSkipKeepsGood(d: Data, room: Room, u: UserId, now: int)
    requires GoodData(d) && d.room == Some(room)
    ensures KeepsGood(d, ForceSkipPlan(room, u, now).stages)
  {
    if room.hostUserId == u && room.currentRound.Some? && room.gameStatus.Playing? {
      var forced := room.(currentRound :=
        Some(room.currentRound.value.(forceSkipAt := Some(now + FORCE_SKIP_DELAY_MS))));
      SameRoundStored(d, room, forced);
      var before: seq<Stage> := [[ScheduleTimer(RoundTimeout, now + FORCE_SKIP_DELAY_MS)]];
      SaveAmongTimers(d, before, forced, []);
      assert before + [[SaveRoom(forced)]] + [] == ForceSkipPlan(room, u, now).stages;
    }
  }

  lemma TimeUpKeepsGood(d: Data, room: Room, now: int, lost: set<TimerKind>)
    requires GoodData(d) && d.room == Some(room)
    ensures KeepsGood(d, TimeUpPlan(d, room, now, lost).stages)
  {
    if room.gameStatus.Playing? {
      EndRoundKeepsGood(d, room, now, lost);
    }
  }

  // ----- all of them

  lemma RestartKeepsGood(d: Data, room: Room, rounds: Option<seq<RoundData>>, shuffled: seq<RoundData>)
    requires GoodData(d) && d.room == Some(room) && room.gameStatus.Finished?
    ensures KeepsGood(d, StartGame(room.(participants := ZeroScores(room.participants)), rounds, shuffled).stages)
  {
    var reset := room.(participants := ZeroScores(room.participants));
    var h :| 0 <= h < |room.participants| && room.participants[h].userId == room.hostUserId;
    assert reset.participants[h].userId == room.hostUserId;
    StartKeepsGood(d, reset, rounds, shuffled);
  }

  lemma RoundRequestKeepsGood(d: Data, room: Room, r: Request)
    requires GoodData(d) && d.room == Some(room)
    requires r.MarkReady? || r.Next? || r.Submit? || r.RequestSkip? || r.ForceSkip? || IsTimer(r)
    ensures KeepsGood(d, PlanOf(d, r).stages)
  {
    if r.MarkReady? {
      MarkReadyKeepsGood(d, room, r.userId, r.now);
    } else if r.Next? {
      NextKeepsGood(d, room, r.requester, r.lost);
    } else if r.Submit? {
      SubmitKeepsGood(d, room, r.userId, r.message, r.now, r.lost);
    } else if r.RequestSkip? {
      RequestSkipKeepsGood(d, room, r.userId, r.now, r.lost);
    } else if r.ForceSkip? {
      ForceSkipKeepsGood(d, room, r.requester, r.now);
    } else if r.SpeedNextFired? {
      if room.gameStatus.RoundEnded? {
        AdvanceKeepsGood(d, room);
      }
    } else {
      TimeUpKeepsGood(d, room, r.now, r.lost);
    }
  }

  /** Every request keeps the store good after each of its writes, and after any part of writes issued together. */
  lemma RequestKeepsGood(d: Data, r: Request)
    requires GoodData(d) && Admissible(d, r)
    ensures KeepsGood(d, PlanOf(d, r).stages)
  {
    if r.Create? {
      CreateKeepsGood(d, r);
    } else if d.room.Some? {
      var room := d.room.value;
      if r.Join? {
        JoinKeepsGood(d, room, r.userId, r.account, r.passwordMatches);
      } else if r.Leave? {
        LeaveKeepsGood(d, room, r.userId, r.now, r.lost);
      } else if r.Update? {
        UpdateKeepsGood(d, room, r);
      } else if r.Start? {
        if room.gameStatus.Waiting? {
          StartKeepsGood(d, room, r.rounds, r.shuffled);
        }
      } else if r.Restart? {
        if room.gameStatus.Finished? {
          RestartKeepsGood(d, room, r.rounds, r.shuffled);
        }
      } else {
        RoundRequestKeepsGood(d, room, r);
      }
    }
  }
}
