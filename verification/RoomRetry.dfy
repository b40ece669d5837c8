/**
  A transition that failed before its commit point can be repeated: it ends in the state of a run without the failure.
 */
module RoomRetry {
  import opened Names
  import opened RoomModel
  import opened RoomInvariants
  import opened RoomRequests
  import opened RoomRuns
  import opened RoomCommits
  import opened RoomTimerProtocol

  // ----- song order and snapshot are stored only when a game starts

  predicate SetsNoOrder(stage: Stage) {
    forall i :: 0 <= i < |stage| ==> !stage[i].SetSongOrder? && !stage[i].SetSnapshot?
  }

  predicate NeverSetsOrder(stages: seq<Stage>)
    decreases stages
  {
    stages == [] || (SetsNoOrder(stages[0]) && NeverSetsOrder(stages[1..]))
  }

  /** Order and snapshot are as before, or deleted. */
  predicate OrderDropped(d: Data, d': Data) {
    (d'.songOrder == d.songOrder || d'.songOrder.None?) && (d'.snapshot == d.snapshot || d'.snapshot.None?)
  }

  lemma {:induction false} PartDropsOrder(d: Data, stage: Stage, landed: seq<Landing>)
    requires SetsNoOrder(stage) && |landed| == |stage|
    ensures OrderDropped(d, RunPart(d, stage, landed))
    decreases stage
  {
    if stage != [] {
      PartDropsOrder(if landed[0].Landed? then ExecData(d, stage[0]) else d, stage[1..], landed[1..]);
    }
  }

  lemma {:induction false} StageDropsOrder(d: Data, stage: Stage)
    requires SetsNoOrder(stage)
    ensures OrderDropped(d, RunStage(d, stage))
    decreases stage
  {
    if stage != [] {
      StageDropsOrder(ExecData(d, stage[0]), stage[1..]);
    }
  }

  lemma {:induction false} RanDropsOrder(d: Data, stages: seq<Stage>, d': Data, complete: bool)
    requires NeverSetsOrder(stages) && Ran(d, stages, d', complete)
    ensures OrderDropped(d, d')
    decreases stages
  {
    if stages != [] {
      if Ran(RunStage(d, stages[0]), stages[1..], d', complete) {
        StageDropsOrder(d, stages[0]);
        RanDropsOrder(RunStage(d, stages[0]), stages[1..], d', complete);
      } else {
        var landed: seq<Landing> :| |landed| == |stages[0]| && d' == RunPart(d, stages[0], landed);
        PartDropsOrder(d, stages[0], landed);
      }
    }
  }

  lemma {:induction false} SavesSetNoOrder(stages: seq<Stage>)
    requires OnlySaves(stages)
    ensures NeverSetsOrder(stages)
    decreases stages
  {
    if stages != [] {
      SavesSetNoOrder(stages[1..]);
    }
  }

  lemma {:induction false} OrderNeverSetJoined(timers: seq<Stage>, stages: seq<Stage>)
    requires TimersOnly(timers) && NeverSetsOrder(stages)
    ensures NeverSetsOrder(timers + stages)
    decreases timers
  {
    if timers == [] {
      assert timers + stages == stages;
    } else {
      OrderNeverSetJoined(timers[1..], stages);
      assert (timers + stages)[0] == timers[0] && (timers + stages)[1..] == timers[1..] + stages;
    }
  }

  lemma RoundStagesSetNoOrder(data: RoundData, room: Room, index: nat, total: nat)
    ensures NeverSetsOrder(RoundStages(data, room, index, total))
  {
    var stages := RoundStages(data, room, index, total);
    var save: seq<Stage> := [[SaveRoom(LoadingRoom(room, index, total))]];
    assert save[1..] == [];
    assert stages[1..][1..] == save && |stages[1..]| == 2 && stages[1..][0] == [SetReveal(data.Titles())];
    assert NeverSetsOrder(save) && NeverSetsOrder(stages[1..]);
  }

  lemma FinishSetsNoOrder(room: Room, stages: seq<Stage>)
    requires stages == [DeleteGame(), [SaveRoom(FinishedRoom(room))]]
    ensures NeverSetsOrder(stages)
  {
    var save: seq<Stage> := [[SaveRoom(FinishedRoom(room))]];
    assert save[1..] == [];
    assert stages[1..] == save && stages[0] == DeleteGame();
  }

  lemma AdvanceSetsNoOrder(d: Data, room: Room)
    requires GoodData(d) && d.room == Some(room) && room.gameStatus.RoundEnded?
    ensures NeverSetsOrder(AdvanceToNextRound(d, room).stages)
  {
    var round := room.currentRound.value;
    AdvanceFindsRound(d, room);
    if round.roundIndex + 1 < round.totalRounds {
      RoundStagesSetNoOrder(SongAt(d, round.roundIndex + 1), room, round.roundIndex + 1, round.totalRounds);
    } else {
      FinishSetsNoOrder(room, AdvanceToNextRound(d, room).stages);
    }
  }

  lemma NextSetsNoOrder(d: Data, room: Room, u: UserId, lost: set<TimerKind>)
    requires GoodData(d) && d.room == Some(room)
    ensures NeverSetsOrder(NextPlan(d, room, u, lost).stages)
  {
    if room.hostUserId == u && room.gameStatus.RoundEnded? {
      AdvanceSetsNoOrder(d, room);
      CancelsAreTimersOnly(room, lost);
      OrderNeverSetJoined(ClearSpeedModeTimer(lost), AdvanceToNextRound(d, room).stages);
    }
  }

  /** During a game no step changes the order or the snapshot, except that they are deleted. */
  lemma GameKeepsOrder(d: Data, step: Step, d': Data)
    requires GoodData(d) && StepsTo(d, step, d') && d.room.Some? && d.room.value.currentRound.Some?
    requires !DeletesRoom(d, step.request)
    ensures OrderDropped(d, d')
  {
    var r := step.request;
    if r.Next? {
      NextSetsNoOrder(d, d.room.value, r.requester, r.lost);
    } else if r.SpeedNextFired? {
      if d.room.value.gameStatus.RoundEnded? {
        AdvanceSetsNoOrder(d, d.room.value);
      }
    } else if !ChangesGame(r) {
      SimpleRequestMoves(d, r);
      SavesSetNoOrder(PlanOf(d, r).stages);
    }
    RanDropsOrder(d, PlanOf(d, r).stages, d', step.complete);
  }

  // ----- what the complete transitions come to

  lemma {:induction false} RunJoined(d: Data, a: seq<Stage>, b: seq<Stage>)
    ensures RunStages(d, a + b) == RunStages(RunStages(d, a), b)
    decreases a
  {
    if a == [] {
      assert a + b == b;
    } else {
      RunJoined(RunStage(d, a[0]), a[1..], b);
      assert (a + b)[0] == a[0] && (a + b)[1..] == a[1..] + b;
    }
  }

  lemma RunOne(d: Data, e: Effect)
    ensures RunStages(d, [[e]]) == ExecData(d, e)
  {
    OneWriteStage(d, e);
    assert [[e]][1..] == [];
  }

  lemma RoundStagesResult(d: Data, data: RoundData, room: Room, index: nat, total: nat)
    ensures RunStages(d, RoundStages(data, room, index, total))
         == Data(Some(LoadingRoom(room, index, total)), d.songOrder, d.snapshot, Some(data.answers),
           Some(data.Titles()))
  {
    var a: seq<Stage> := [[SetAnswers(data.answers)]];
    var b: seq<Stage> := [[SetReveal(data.Titles())]];
    var c: seq<Stage> := [[SaveRoom(LoadingRoom(room, index, total))]];
    assert RoundStages(data, room, index, total) == a + (b + c);
    RunJoined(d, a, b + c);
    RunOne(d, SetAnswers(data.answers));
    RunJoined(RunStages(d, a), b, c);
    RunOne(RunStages(d, a), SetReveal(data.Titles()));
    RunOne(RunStages(RunStages(d, a), b), SaveRoom(LoadingRoom(room, index, total)));
  }

  /** A started game leaves nothing of the documents that were there before. */
  lemma GameStagesResult(d: Data, room: Room, selected: seq<RoundData>)
    requires selected != []
    ensures var first := SnapshotOf(selected)[selected[0].quizSongId];
      RunStages(d, GameStages(room, selected))
      == Data(Some(LoadingRoom(room, 0, |selected|)), Some(SongIds(selected)), Some(SnapshotOf(selected)),
              Some(first.answers), Some(first.Titles()))
  {
    var store: seq<Stage> := [StoreGame(selected)];
    assert store[1..] == [];
    StoreGameWrites(d, selected);
    assert RunStages(d, store) == RunStage(d, StoreGame(selected));
    var first := SnapshotOf(selected)[selected[0].quizSongId];
    RunJoined(d, store, RoundStages(first, room, 0, |selected|));
    RoundStagesResult(RunStages(d, store), first, room, 0, |selected|);
  }

  lemma FinishResult(d: Data, room: Room, stages: seq<Stage>)
    requires stages == [DeleteGame()] + [[SaveRoom(FinishedRoom(room))]]
    ensures RunStages(d, stages) == Data(Some(FinishedRoom(room)), None, None, None, None)
  {
    var drop: seq<Stage> := [DeleteGame()];
    assert drop[1..] == [];
    WholeDeletes(d);
    assert RunStages(d, drop) == RunStage(d, DeleteGame());
    RunJoined(d, drop, [[SaveRoom(FinishedRoom(room))]]);
    RunOne(RunStages(d, drop), SaveRoom(FinishedRoom(room)));
  }

  /** The next round, or the end of the game, depends on the room and on the stored order alone. */
  lemma AdvanceResult(d: Data, room: Room)
    requires GoodData(d) && d.room == Some(room) && room.gameStatus.RoundEnded?
    ensures var round := room.currentRound.value;
      && AdvanceToNextRound(d, room).refusal.None?
      && RunStages(d, AdvanceToNextRound(d, room).stages) ==
          if round.roundIndex + 1 < round.totalRounds then
            var next := SongAt(d, round.roundIndex + 1);
            Data(Some(LoadingRoom(room, round.roundIndex + 1, round.totalRounds)), d.songOrder, d.snapshot,
                 Some(next.answers), Some(next.Titles()))
          else
            Data(Some(FinishedRoom(room)), None, None, None, None)
  {
    var round := room.currentRound.value;
    AdvanceFindsRound(d, room);
    if round.roundIndex + 1 < round.totalRounds {
      RoundStagesResult(d, SongAt(d, round.roundIndex + 1), room, round.roundIndex + 1, round.totalRounds);
    } else {
      FinishResult(d, room, AdvanceToNextRound(d, room).stages);
    }
  }

  lemma AdvanceRequestResult(d: Data, room: Room, r: Request)
    requires GoodData(d) && d.room == Some(room) && AdvancesGame(r) && room.gameStatus.RoundEnded?
    requires PlanOf(d, r).refusal.None?
    ensures RunStages(d, PlanOf(d, r).stages) == RunStages(d, AdvanceToNextRound(d, room).stages)
  {
    if r.Next? {
      CancelsAreTimersOnly(room, r.lost);
      TimersRan(d, ClearSpeedModeTimer(r.lost), d, true);
      RunJoined(d, ClearSpeedModeTimer(r.lost), AdvanceToNextRound(d, room).stages);
    }
  }

  // ----- the theorem

  predicate AdvancesGame(r: Request) {
    r.Next? || r.SpeedNextFired?
  }

  /** The second request attempts the transition of the first again, perhaps at another time or by another way. */
  predicate Repeats(r: Request, again: Request) {
    (r.Start? ==> again.Start?) && (r.Restart? ==> again.Restart?) && (AdvancesGame(r) ==> AdvancesGame(again))
  }

  /** A start depends on the room alone, and a complete one overwrites all documents of the game. */
  lemma RetriedStart(d: Data, d': Data, again: Request)
    requires GoodData(d) && d.room.Some? && d'.room == d.room && (again.Start? || again.Restart?)
    requires PlanOf(d, again).refusal.None?
    ensures PlanOf(d', again) == PlanOf(d, again)
    ensures RunStages(d', PlanOf(d', again).stages) == RunStages(d, PlanOf(d, again).stages)
  {
    var room := if again.Start? then d.room.value
      else d.room.value.(participants := ZeroScores(d.room.value.participants));
    var all := again.rounds.value;
    var selected := Take(if room.isRandom then again.shuffled else all, room.songLimit);
    assert PlanOf(d, again) == PlanOf(d', again) == Steps(GameStages(room, selected));
    GameStagesResult(d, room, selected);
    GameStagesResult(d', room, selected);
  }

  lemma SameAdvance(d: Data, d': Data)
    requires GoodData(d) && GoodData(d') && d.room.Some? && d'.room == d.room && OrderDropped(d, d')
    requires d.room.value.gameStatus.RoundEnded?
    ensures AdvanceToNextRound(d', d.room.value) == AdvanceToNextRound(d, d.room.value)
  {
    AdvanceFindsRound(d, d.room.value);
    AdvanceFindsRound(d', d.room.value);
  }

  lemma RetriedAdvance(d: Data, d': Data, again: Request)
    requires GoodData(d) && GoodData(d') && d.room.Some? && d'.room == d.room && OrderDropped(d, d')
      && AdvancesGame(again)
    requires d.room.value.gameStatus.RoundEnded?
    requires PlanOf(d, again).refusal.None?
    ensures PlanOf(d', again) == PlanOf(d, again)
    ensures RunStages(d', PlanOf(d', again).stages) == RunStages(d, PlanOf(d, again).stages)
  {
    SameAdvance(d, d');
    AdvanceResult(d, d.room.value);
    AdvanceResult(d', d.room.value);
    AdvanceRequestResult(d, d.room.value, again);
    AdvanceRequestResult(d', d.room.value, again);
  }

  /** A failed request other than the start and the advance of a game changes nothing but the room. */
  lemma FailedSimpleRequest(d: Data, step: Step, d': Data)
    requires GoodData(d) && StepsTo(d, step, d') && d'.room == d.room
    requires !ChangesGame(step.request) || d.room.None?
    ensures d' == d
  {
    var r := step.request;
    if r.Create? {
      SaveShape(NewRoom(r));
      OnlyTheRoomChanges(d, PlanOf(d, r).stages, d', step.complete);
    } else if d.room.Some? {
      if DeletesRoom(d, r) {
        DeletionShape(r.lost);
        DeletionMoves(d, PlanOf(d, r).stages, d', step.complete);
      } else {
        SimpleRequestMoves(d, r);
        OnlyTheRoomChanges(d, PlanOf(d, r).stages, d', step.complete);
      }
    }
  }

  /**
    Whatever the step had written by then, a repetition that is not refused goes through the very stages it would have
    gone through without it, and ends in the same documents.
   */
  lemma RetriedStep(d: Data, step: Step, d': Data, again: Request)
    requires GoodData(d) && StepsTo(d, step, d') && d'.room == d.room
    requires Repeats(step.request, again) && PlanOf(d, again).refusal.None?
    ensures PlanOf(d', again) == PlanOf(d, again)
    ensures RunStages(d', PlanOf(d', again).stages) == RunStages(d, PlanOf(d, again).stages)
  {
    var r := step.request;
    if d.room.None? || !ChangesGame(r) {
      FailedSimpleRequest(d, step, d');
    } else if r.Start? || r.Restart? {
      RetriedStart(d, d', again);
    } else if d.room.value.gameStatus.RoundEnded? {
      StepKeepsGood(d, step, d');
      GameKeepsOrder(d, step, d');
      RetriedAdvance(d, d', again);
    }
  }

  /** The request, undisturbed, leads from `d` to `d'` and is not refused. */
  ghost predicate Completes(d: Data, r: Request, d': Data) {
    PlanOf(d, r).refusal.None? && Ran(d, PlanOf(d, r).stages, d', true)
  }

  lemma {:induction false} CompleteRunIsUnique(d: Data, stages: seq<Stage>, d': Data)
    requires Ran(d, stages, d', true)
    ensures d' == RunStages(d, stages)
    decreases stages
  {
    if stages != [] {
      CompleteRunIsUnique(RunStage(d, stages[0]), stages[1..], d');
    }
  }

  /**
    Over every run: after a step that has not changed the room record, be it a failure after any of its writes, a
    repetition of its request that completes ends in the very documents in which it would have ended before that step.
   */
  lemma RetryReachesFaultFreeState(states: seq<Data>, steps: seq<Step>, i: nat, again: Request, end: Data)
    requires RoomRuns.Run(states, steps) && i < |steps| && states[i + 1].room == states[i].room
    requires Repeats(steps[i].request, again) && Completes(states[i], again, end)
    ensures Completes(states[i + 1], again, end)
  {
    RunIsGood(states, steps, i);
    assert StepAt(states, steps, i);
    RetriedStep(states[i], steps[i], states[i + 1], again);
    CompleteRunIsUnique(states[i], PlanOf(states[i], again).stages, end);
    RunsToSomewhere(states[i + 1], PlanOf(states[i + 1], again).stages);
  }
}
