/** What the start of a game and its next round have done to documents and timers when they complete. */
module RoomGameOutcomes {
  import opened Names
  import opened RoomModel
  import opened RoomRetry
  import opened RoomStore
  import opened RoomTimerProtocol
  import opened RoomWorldRetry
  import opened RoomOutcomes
  import opened RoomMembership

  /** A stage of writes to documents leaves the timers alone. */
  predicate WritesDocuments(stage: Stage) {
    forall i :: 0 <= i < |stage| ==> !stage[i].ScheduleTimer? && !stage[i].CancelTimer?
  }

  lemma {:induction false} DocumentsKeepTimers(timers: map<TimerKind, int>, stage: Stage)
    requires WritesDocuments(stage)
    ensures StageTimers(timers, stage) == timers
    decreases stage
  {
    if stage != [] {
      DocumentsKeepTimers(timers, stage[1..]);
    }
  }

  /** The world after stages that write nothing but documents. */
  lemma {:induction false} DocumentWorld(w: World, stages: seq<Stage>)
    requires forall i :: 0 <= i < |stages| ==> WritesDocuments(stages[i])
    ensures RunWorld(w, stages) == World(RunStages(w.data, stages), w.timers)
    decreases stages
  {
    if stages != [] {
      DocumentsKeepTimers(w.timers, stages[0]);
      DocumentWorld(StageWorld(w, stages[0]), stages[1..]);
    }
  }

  /** The room loads this round, of which nothing is known yet, and is otherwise as before. */
  predicate Loads(room: Room, index: nat, total: nat, after: Room) {
    && after == room.(gameStatus := Loading, currentRound := after.currentRound) && after.currentRound.Some?
    && var round := after.currentRound.value;
      && round.roundIndex == index && round.totalRounds == total
      && round.readyUserIds == [] && round.correctUserIds == [] && round.skipUserIds == []
      && round.forceSkipAt.None? && round.autoRevealAt.None? && round.autoNextRoundAt.None?
      && round.playScheduledAt.None? && !round.revealed && round.title.None?
  }

  /** The stored answers and titles are those of this round. */
  predicate HoldsRound(d: Data, data: RoundData) {
    && d.answers == Some(data.answers)
    && d.titles == Some(Reveal(data.quizSongId, data.songNm, data.atstNm, data.albmNm))
  }

  // ----- the start

  /** The rounds of the game: the first so many of the quiz in its order, or in the order that was drawn. */
  predicate Selects(room: Room, rounds: seq<RoundData>, shuffled: seq<RoundData>, selected: seq<RoundData>) {
    && selected <= (if room.isRandom then shuffled else rounds)
    && |selected| == (var n := if room.isRandom then |shuffled| else |rounds|;
                      if room.songLimit < n then room.songLimit else n)
  }

  /** Order and snapshot are those of the selected rounds; of two rounds with one song the later is kept. */
  predicate StoresGame(d: Data, selected: seq<RoundData>) {
    && d.songOrder.Some? && d.snapshot.Some?
    && |d.songOrder.value| == |selected|
    && (forall i :: 0 <= i < |selected| ==> d.songOrder.value[i] == selected[i].quizSongId)
    && (forall id :: id in d.snapshot.value ==>
          exists i :: 0 <= i < |selected| && selected[i].quizSongId == id)
    && (forall i :: 0 <= i < |selected| && IsLast(selected, i) ==>
          selected[i].quizSongId in d.snapshot.value && d.snapshot.value[selected[i].quizSongId] == selected[i])
  }

  /** No later round has the same song. */
  predicate IsLast(rounds: seq<RoundData>, i: nat)
    requires i < |rounds|
  {
    forall k :: i < k < |rounds| ==> rounds[k].quizSongId != rounds[i].quizSongId
  }

  lemma LastInFront(rounds: seq<RoundData>, i: nat)
    requires i < |rounds| - 1 && IsLast(rounds, i)
    ensures IsLast(rounds[..|rounds| - 1], i) && rounds[|rounds| - 1].quizSongId != rounds[i].quizSongId
  {
  }

  lemma {:induction false} SnapshotKeepsLast(rounds: seq<RoundData>, i: nat)
    requires i < |rounds| && IsLast(rounds, i)
    ensures rounds[i].quizSongId in SnapshotOf(rounds) && SnapshotOf(rounds)[rounds[i].quizSongId] == rounds[i]
  {
    if i < |rounds| - 1 {
      LastInFront(rounds, i);
      SnapshotKeepsLast(rounds[..|rounds| - 1], i);
    }
  }

  lemma SelectionIsStored(d: Data, selected: seq<RoundData>)
    requires d.songOrder == Some(SongIds(selected)) && d.snapshot == Some(SnapshotOf(selected))
    ensures StoresGame(d, selected)
  {
    forall i | 0 <= i < |selected| && IsLast(selected, i)
      ensures selected[i].quizSongId in SnapshotOf(selected)
        && SnapshotOf(selected)[selected[i].quizSongId] == selected[i]
    {
      SnapshotKeepsLast(selected, i);
    }
  }

  ghost predicate Started(w: World, room: Room, rounds: seq<RoundData>, shuffled: seq<RoundData>, w': World) {
    exists selected: seq<RoundData> ::
      && Selects(room, rounds, shuffled, selected) && selected != []
      && w'.timers == w.timers && StoresGame(w'.data, selected)
      && w'.data.room.Some? && Loads(room, 0, |selected|, w'.data.room.value)
      && selected[0].quizSongId in w'.data.snapshot.value
      && HoldsRound(w'.data, w'.data.snapshot.value[selected[0].quizSongId])
  }

  lemma StartedWorld(w: World, room: Room, rounds: seq<RoundData>, shuffled: seq<RoundData>)
    requires StartGame(room, Some(rounds), shuffled).refusal.None?
    ensures Started(w, room, rounds, shuffled, RunWorld(w, StartGame(room, Some(rounds), shuffled).stages))
  {
    var selected := Take(if room.isRandom then shuffled else rounds, room.songLimit);
    assert Selects(room, rounds, shuffled, selected);
    GameWorld(w, room, selected);
    SelectionIsStored(RunWorld(w, GameStages(room, selected)).data, selected);
  }

  lemma GameWorld(w: World, room: Room, selected: seq<RoundData>)
    requires selected != []
    ensures var w' := RunWorld(w, GameStages(room, selected));
      && w'.timers == w.timers
      && w'.data.songOrder == Some(SongIds(selected)) && w'.data.snapshot == Some(SnapshotOf(selected))
      && w'.data.room.Some? && Loads(room, 0, |selected|, w'.data.room.value)
      && HoldsRound(w'.data, SnapshotOf(selected)[selected[0].quizSongId])
  {
    var stages := GameStages(room, selected);
    var first := RoundStages(SnapshotOf(selected)[selected[0].quizSongId], room, 0, |selected|);
    assert stages == [StoreGame(selected)] + first;
    assert stages[0] == StoreGame(selected) && stages[1..] == first;
    forall i | 0 <= i < |stages| ensures WritesDocuments(stages[i]) {
      assert i > 0 ==> stages[i] == first[i - 1];
    }
    DocumentWorld(w, stages);
    GameStagesResult(w.data, room, selected);
  }

  /**
    A game starts with its order and its rounds stored, the first of them loading with its own answers and titles, and
    everybody's score as it was.
   */
  lemma StartOutcome(w: World, room: Room, r: Request, w': World)
    requires w.data.room == Some(room) && r.Start? && CompletesWorld(w, r, w')
    ensures r.requester == room.hostUserId && room.gameStatus.Waiting? && r.rounds.Some?
    ensures Started(w, room, r.rounds.value, r.shuffled, w')
  {
    CompleteIsRunWorld(w, PlanOf(w.data, r).stages, w');
    StartedWorld(w, room, r.rounds.value, r.shuffled);
  }

  /** A game that is started again is one of participants without points. */
  lemma RestartOutcome(w: World, room: Room, r: Request, w': World)
    requires w.data.room == Some(room) && r.Restart? && CompletesWorld(w, r, w')
    ensures r.requester == room.hostUserId && room.gameStatus.Finished? && r.rounds.Some?
    ensures exists reset: seq<Participant> ::
      && |reset| == |room.participants|
      && (forall i :: 0 <= i < |reset| ==> reset[i] == Participant(room.participants[i].userId, 0))
      && Started(w, room.(participants := reset), r.rounds.value, r.shuffled, w')
  {
    CompleteIsRunWorld(w, PlanOf(w.data, r).stages, w');
    StartedWorld(w, room.(participants := ZeroScores(room.participants)), r.rounds.value, r.shuffled);
  }

  // ----- the next round

  /** The next round of the stored order loads with its own answers and titles, or the game is finished without one. */
  predicate Advanced(d: Data, room: Room, d': Data) {
    var order := if d.songOrder.Some? then d.songOrder.value else [];
    var snapshot := if d.snapshot.Some? then d.snapshot.value else map[];
    var next := if room.currentRound.Some? then room.currentRound.value.roundIndex + 1 else 0;
    if next >= |order| then
      d' == Data(Some(room.(gameStatus := Finished, currentRound := None)), None, None, None, None)
    else
      && order[next] in snapshot && HoldsRound(d', snapshot[order[next]])
      && d'.songOrder == d.songOrder && d'.snapshot == d.snapshot
      && d'.room.Some? && Loads(room, next, |order|, d'.room.value)
  }

  lemma AdvancedWorld(w: World, room: Room)
    requires AdvanceToNextRound(w.data, room).refusal.None?
    ensures var w' := RunWorld(w, AdvanceToNextRound(w.data, room).stages);
      Advanced(w.data, room, w'.data) && w'.timers == w.timers
  {
    var stages := AdvanceToNextRound(w.data, room).stages;
    var order := if w.data.songOrder.Some? then w.data.songOrder.value else [];
    var next := if room.currentRound.Some? then room.currentRound.value.roundIndex + 1 else 0;
    DocumentWorld(w, stages);
    if next >= |order| {
      FinishResult(w.data, room, stages);
    } else {
      RoundStagesResult(w.data, w.data.snapshot.value[order[next]], room, next, |order|);
    }
  }

  /** The host's request for the next round clears both speed mode timers, and advances. */
  lemma NextOutcome(w: World, room: Room, r: Request, w': World)
    requires w.data.room == Some(room) && r.Next? && CompletesWorld(w, r, w')
    ensures r.requester == room.hostUserId && room.gameStatus.RoundEnded?
    ensures Advanced(w.data, room, w'.data)
    ensures Cleared(w, w', SpeedReveal, r.lost) && Cleared(w, w', SpeedNext, r.lost)
    ensures SameTimer(w, w', RoundTimeout) && SameTimer(w, w', DisconnectGrace)
  {
    var advance := AdvanceToNextRound(w.data, room);
    CompleteIsRunWorld(w, PlanOf(w.data, r).stages, w');
    ClearedWorld(w, r.lost);
    WorldJoined(w, ClearSpeedModeTimer(r.lost), advance.stages);
    AdvancedWorld(RunWorld(w, ClearSpeedModeTimer(r.lost)), room);
  }

  /** The timer of the next round advances a round that is over, and does nothing otherwise. */
  lemma SpeedNextOutcome(w: World, room: Room, w': World)
    requires w.data.room == Some(room) && CompletesWorld(w, SpeedNextFired, w')
    ensures room.gameStatus.RoundEnded? ==> Advanced(w.data, room, w'.data) && w'.timers == w.timers
    ensures !room.gameStatus.RoundEnded? ==> w' == w
  {
    CompleteIsRunWorld(w, PlanOf(w.data, SpeedNextFired).stages, w');
    if room.gameStatus.RoundEnded? {
      AdvancedWorld(w, room);
    }
  }
}
