/** The round service: ready check, end of a round, next round, and the timers around them, on a store that may fail. */
module RoomRoundService {
  import opened Names
  import opened RoomModel
  import opened RoomRequests
  import opened RoomShuffle
  import opened RoomStore
  import opened RoomTimerProtocol

  method MapSongIds(rounds: seq<RoundData>) returns (ids: seq<SongId>)
    ensures ids == SongIds(rounds)
  {
    ids := [];
    for i := 0 to |rounds|
      invariant |ids| == i && forall k :: 0 <= k < i ==> ids[k] == rounds[k].quizSongId
    {
      ids := ids + [rounds[i].quizSongId];
    }
  }

  method BuildSnapshot(rounds: seq<RoundData>) returns (snapshot: map<SongId, RoundData>)
    ensures snapshot == SnapshotOf(rounds)
  {
    snapshot := map[];
    for i := 0 to |rounds|
      invariant snapshot == SnapshotOf(rounds[..i])
    {
      snapshot := snapshot[rounds[i].quizSongId := rounds[i]];
      assert rounds[..i + 1][..i] == rounds[..i];
    }
    assert rounds[..|rounds|] == rounds;
  }

  class RoomRoundService {
    const store: RoomStore

    constructor (store: RoomStore)
      ensures this.store == store
    {
      this.store := store;
    }

    method RecomputeReadyStatus(room: Room, now: int) returns (ok: bool, after: Room)
      modifies store
      ensures Carried(old(store.Contents()), RecomputeReady(room, now).1, store.Contents(), ok)
      ensures ok ==> after == RecomputeReady(room, now).0
      ensures ok ==>
        if && room.currentRound.Some? && room.gameStatus.Loading?
           && forall i :: 0 <= i < |room.participants| ==>
                room.participants[i].userId in room.currentRound.value.readyUserIds
        then after.gameStatus.Playing? && store.timers == old(store.timers)[RoundTimeout := now + 31_800]
        else after == room && store.timers == old(store.timers)
      ensures store.Documents() == old(store.Documents())
      ensures store.failures >= old(store.failures) && (ok <==> store.failures == old(store.failures))
    {
      ok, after := true, room;
      if room.currentRound.Some? && room.gameStatus.Loading? {
        if AllIn(room.participants, room.currentRound.value.readyUserIds) {
          ok, after := BeginRound(room, now);
        }
      }
    }

    method BeginRound(room: Room, now: int) returns (ok: bool, after: Room)
      requires room.currentRound.Some?
      modifies store
      ensures after == room.(gameStatus := Playing,
        currentRound := Some(room.currentRound.value.(playScheduledAt := Some(now + PLAY_SCHEDULE_DELAY_MS))))
      ensures Carried(old(store.Contents()),
        [[ScheduleTimer(RoundTimeout, now + ROUND_TIME_LIMIT_MS + PLAY_SCHEDULE_DELAY_MS)]],
        store.Contents(), ok)
      ensures ok ==> store.timers == old(store.timers)[RoundTimeout := now + 31_800]
      ensures store.Documents() == old(store.Documents())
      ensures store.failures >= old(store.failures) && (ok <==> store.failures == old(store.failures))
    {
      after := room.(gameStatus := Playing);
      after := after.(currentRound :=
        Some(after.currentRound.value.(playScheduledAt := Some(now + PLAY_SCHEDULE_DELAY_MS))));
      ghost var landed;
      ok, landed := store.Issue(ScheduleTimer(RoundTimeout, now + (ROUND_TIME_LIMIT_MS + PLAY_SCHEDULE_DELAY_MS)));
    }

    method FinalizeRoundEnd(room: Room, now: int) returns (ok: bool, after: Room)
      modifies store
      ensures Carried(old(store.Contents()), RoomModel.FinalizeRoundEnd(room, old(store.titles), now).1,
        store.Contents(), ok)
      ensures ok ==> after == RoomModel.FinalizeRoundEnd(room, old(store.titles), now).0
      ensures ok && room.currentRound.Some? ==>
        && after.gameStatus.RoundEnded? && after.currentRound.Some?
        && after.currentRound.value.revealed && after.currentRound.value.title == old(store.titles)
        && after.currentRound.value.autoNextRoundAt
        == if room.speedModeEnabled then Some(now + 4_000) else room.currentRound.value.autoNextRoundAt
      ensures ok && room.currentRound.Some? && room.speedModeEnabled ==>
        store.timers == old(store.timers)[SpeedNext := now + 4_000]
      ensures room.currentRound.None? || !room.speedModeEnabled ==> store.timers == old(store.timers)
      ensures store.Documents() == old(store.Documents())
      ensures store.failures >= old(store.failures) && (ok <==> store.failures == old(store.failures))
    {
      ok, after := true, room;
      if room.currentRound.None? {
        return;
      }
      ok := store.ReadStrictly();
      if !ok {
        NothingCarried(store.Contents(), RoomModel.FinalizeRoundEnd(room, store.titles, now).1);
        return;
      }
      var round := room.currentRound.value;
      var titles := store.titles;
      round := round.(revealed := true);
      round := round.(title := titles);
      after := after.(gameStatus := RoundEnded);
      if room.speedModeEnabled {
        round := round.(autoNextRoundAt := Some(now + SPEED_MODE_NEXT_ROUND_DELAY_MS));
        ghost var landed;
        ok, landed := store.Issue(ScheduleTimer(SpeedNext, now + SPEED_MODE_NEXT_ROUND_DELAY_MS));
      }
      after := after.(currentRound := Some(round));
    }

    method CleanupStaleRoundTimers(room: Room, lost: set<TimerKind>)
      modifies store
      ensures Carried(old(store.Contents()), RoomModel.CleanupStaleRoundTimers(room, lost), store.Contents(), true)
      ensures var stale := {RoundTimeout} + if room.speedModeEnabled then {SpeedReveal} else {};
        store.timers == old(store.timers) - (stale - lost)
      ensures store.Documents() == old(store.Documents()) && store.failures == old(store.failures)
    {
      ghost var before := store.Contents();
      store.CancelUnawaited(RoundTimeout, lost);
      ghost var between := store.Contents();
      if room.speedModeEnabled {
        store.CancelUnawaited(SpeedReveal, lost);
      }
      CarriedOn(before, TryCancel(RoundTimeout, lost), between,
                if room.speedModeEnabled then TryCancel(SpeedReveal, lost) else [], store.Contents(), true);
    }

    method ClearSpeedModeTimer(lost: set<TimerKind>)
      modifies store
      ensures Carried(old(store.Contents()), RoomModel.ClearSpeedModeTimer(lost), store.Contents(), true)
      ensures store.timers == old(store.timers) - ({SpeedReveal, SpeedNext} - lost)
      ensures store.Documents() == old(store.Documents()) && store.failures == old(store.failures)
    {
      ghost var before := store.Contents();
      store.CancelUnawaited(SpeedReveal, lost);
      ghost var between := store.Contents();
      store.CancelUnawaited(SpeedNext, lost);
      CarriedOn(before, TryCancel(SpeedReveal, lost), between, TryCancel(SpeedNext, lost), store.Contents(), true);
    }

    /** Store the answers and the titles of a round that the stored snapshot has, and hand out its public state. */
    method PrepareRoundData(id: SongId, index: nat, total: nat) returns (ok: bool, found: bool, round: Round)
      modifies store
      ensures found ==> old(store.snapshot).Some? && id in old(store.snapshot).value
      ensures ok && !found ==> old(store.snapshot).None? || id !in old(store.snapshot).value
      ensures !found ==> store.Contents() == old(store.Contents())
      ensures found ==> Carried(old(store.Contents()), DataStages(old(store.snapshot).value[id]), store.Contents(), ok)
      ensures round == Round(index, total, [], [], [], None, None, None, None, false, None)
      ensures store.snapshot == old(store.snapshot)
      ensures store.failures >= old(store.failures) && (ok <==> store.failures == old(store.failures))
    {
      round := Round(index, total, [], [], [], None, None, None, None, false, None);
      ok := store.ReadStrictly();
      if !ok {
        return false, false, round;
      }
      if store.snapshot.None? || id !in store.snapshot.value {
        return true, false, round;
      }
      found := true;
      var data := store.snapshot.value[id];
      ghost var before := store.Contents();
      ghost var landed;
      ok, landed := store.Issue(SetAnswers(data.answers));
      if !ok {
        CarriedUntil(before, [[SetAnswers(data.answers)]], store.Contents(), [[SetReveal(data.Titles())]]);
        return;
      }
      ghost var between := store.Contents();
      ok, landed := store.Issue(SetReveal(data.Titles()));
      CarriedOn(before, [[SetAnswers(data.answers)]], between, [[SetReveal(data.Titles())]], store.Contents(), ok);
    }

    /**
      Draw the order, store it with its snapshot, and prepare the first round; the room itself is still to be saved.
     */
    method PrepareFirstRound(room: Room, rounds: Option<seq<RoundData>>, pick: nat -> nat)
      returns (outcome: Outcome, after: Room, ghost shuffled: seq<RoundData>)
      requires Draws(pick)
      modifies store
      ensures rounds.Some? ==> multiset(shuffled) == multiset(rounds.value)
      ensures Prepared(old(store.Contents()), StartGame(room, rounds, shuffled), store.Contents(), outcome, after)
      ensures store.failures >= old(store.failures) && (outcome.Failed? <==> store.failures > old(store.failures))
    {
      after, shuffled := room, [];
      if rounds.None? {
        return Refused(Unavailable), after, shuffled;
      }
      var all := rounds.value;
      shuffled := all;
      if |all| == 0 {
        return Refused(NotFound), after, shuffled;
      }
      var ordered := all;
      if room.isRandom {
        ordered := Shuffle(all, pick);
        shuffled := ordered;
      }
      var selected := if room.songLimit < |ordered| then ordered[..room.songLimit] else ordered;
      var songOrder := MapSongIds(selected);
      var snapshot := BuildSnapshot(selected);
      ghost var before := store.Contents();
      assert selected == Take(ordered, room.songLimit);
      assert [SetSongOrder(songOrder), SetSnapshot(snapshot)] == StoreGame(selected);
      var ok := store.IssueAll([SetSongOrder(songOrder), SetSnapshot(snapshot)]);
      if |songOrder| == 0 {
        outcome := if ok then Refused(NotFound) else Failed;
        return;
      }
      outcome, after := PrepareSelected(room, selected, songOrder[0], ok, before);
    }

    /** The first round of a game whose order and snapshot have been written, with success if `stored`. */
    method PrepareSelected(room: Room, selected: seq<RoundData>, id: SongId, stored: bool, ghost before: World)
      returns (outcome: Outcome, after: Room)
      requires selected != [] && id == selected[0].quizSongId
      requires Carried(before, [StoreGame(selected)], store.Contents(), stored)
      modifies store
      ensures Prepared(before, Steps(GameStages(room, selected)), store.Contents(), outcome, after)
      ensures store.failures >= old(store.failures)
      ensures outcome.Failed? <==> !stored || store.failures > old(store.failures)
      ensures !outcome.Refused?
    {
      after := room;
      ghost var first := SnapshotOf(selected)[id];
      if !stored {
        CarriedUntil(before, [StoreGame(selected)], store.Contents(), RoundStages(first, room, 0, |selected|));
        return Failed, after;
      }
      ghost var between := store.Contents();
      StoredSnapshot(before, between, selected);
      var ok, found, round := PrepareRoundData(id, 0, |selected|);
      after := room.(gameStatus := Loading, currentRound := Some(round));
      if !found {
        NothingCarried(between, RoundStages(first, room, 0, |selected|));
        CarriedOn(before, [StoreGame(selected)], between, RoundStages(first, room, 0, |selected|), between, false);
        return Failed, after;
      }
      SaveComesLast(StoreGame(selected), first, room, 0, |selected|);
      CarriedOn(before, [StoreGame(selected)], between, DataStages(first), store.Contents(), ok);
      PrefixPrepared(before, Steps(GameStages(room, selected)), [StoreGame(selected)] + DataStages(first),
                     store.Contents(), after, ok);
      outcome := if ok then Done else Failed;
    }

    /** The next round of the stored order, or the end of the game; the room itself is still to be saved. */
    method AdvanceToNextRound(room: Room) returns (outcome: Outcome, after: Room)
      modifies store
      ensures Prepared(old(store.Contents()), RoomModel.AdvanceToNextRound(old(store.Documents()), room),
        store.Contents(), outcome, after)
      ensures store.failures >= old(store.failures) && (outcome.Failed? <==> store.failures > old(store.failures))
    {
      after := room;
      var read := store.ReadStrictly();
      if !read {
        NothingCarried(store.Contents(), RoomModel.AdvanceToNextRound(store.Documents(), room).stages);
        return Failed, after;
      }
      var songOrder := if store.songOrder.Some? then store.songOrder.value else [];
      var nextIndex := if room.currentRound.Some? then room.currentRound.value.roundIndex + 1 else 0;
      ghost var before, plan := store.Contents(), RoomModel.AdvanceToNextRound(store.Documents(), room);
      var ok;
      if nextIndex >= |songOrder| {
        after := room.(gameStatus := Finished, currentRound := None);
        ok := store.IssueAll(DeleteGame());
        assert plan.stages == [DeleteGame()] + [[SaveRoom(after)]];
        PrefixPrepared(before, plan, [DeleteGame()], store.Contents(), after, ok);
      } else {
        var found, round;
        ok, found, round := PrepareRoundData(songOrder[nextIndex], nextIndex, |songOrder|);
        after := room.(gameStatus := Loading, currentRound := Some(round));
        if !ok && !found {
          NothingCarried(before, plan.stages);
          return Failed, after;
        }
        if !found {
          return Refused(NotFound), after;
        }
        ghost var data := before.data.snapshot.value[songOrder[nextIndex]];
        assert plan.stages == DataStages(data) + [[SaveRoom(after)]];
        PrefixPrepared(before, plan, DataStages(data), store.Contents(), after, ok);
      }
      outcome := if ok then Done else Failed;
    }
  }

  /** How a request ends: it returns, it is refused with an exception, or a write has failed. */
  datatype Outcome = Done | Refused(why: Refusal) | Failed

  /** All stages of the plan but the last one, which is to save `after`, have been carried out. */
  ghost predicate ReadyToSave(w: World, plan: Plan, w': World, after: Room) {
    && plan.refusal.None? && plan.stages != [] && plan.stages[|plan.stages| - 1] == [SaveRoom(after)]
    && Carried(w, plan.stages[..|plan.stages| - 1], w', true)
  }

  /** The plan is ready for its save, or refused, or cut short, as the outcome says. */
  ghost predicate Prepared(w: World, plan: Plan, w': World, outcome: Outcome, after: Room) {
    match outcome
    case Done => ReadyToSave(w, plan, w', after)
    case Refused(why) => plan.refusal == Some(why) && Carried(w, plan.stages, w', true)
    case Failed => Carried(w, plan.stages, w', false)
  }

  /** The answers and the titles of a round, one after the other. */
  function DataStages(data: RoundData): seq<Stage> {
    [[SetAnswers(data.answers)]] + [[SetReveal(data.Titles())]]
  }

  lemma SaveComesLast(first: Stage, data: RoundData, room: Room, index: nat, total: nat)
    ensures [first] + RoundStages(data, room, index, total)
         == [first] + DataStages(data) + [[SaveRoom(LoadingRoom(room, index, total))]]
  {
  }

  lemma PrefixPrepared(w: World, plan: Plan, prefix: seq<Stage>, w': World, after: Room, ok: bool)
    requires plan == Steps(prefix + [[SaveRoom(after)]]) && Carried(w, prefix, w', ok)
    ensures Prepared(w, plan, w', if ok then Done else Failed, after)
  {
    if ok {
      assert plan.stages[..|plan.stages| - 1] == prefix;
    } else {
      CarriedUntil(w, prefix, w', [[SaveRoom(after)]]);
    }
  }

  /** Once the writes of the selection are answered, the snapshot is there. */
  lemma StoredSnapshot(w: World, w': World, selected: seq<RoundData>)
    requires Carried(w, [StoreGame(selected)], w', true)
    ensures w'.data.snapshot == Some(SnapshotOf(selected))
  {
    var stages: seq<Stage> := [StoreGame(selected)];
    assert stages[1..] == [];
    assert w' == StageWorld(w, StoreGame(selected));
    StoreGameWrites(w.data, selected);
  }
}
