/**
  The room service: every request and timer handler, as it loads the room, changes it, and writes. Each is proved to
  carry out the plan of its request on the store, command by command, up to its end or to the command that failed.
 */
module RoomService {
  import opened Names
  import opened GameScoring
  import opened RoomModel
  import opened RoomInvariants
  import opened RoomRuns
  import opened RoomStore
  import opened RoomRoundService
  import opened RoomShuffle
  import opened RoomTimerProtocol
  import opened RoomWorldRetry
  import opened RoomOutcomes
  import opened RoomChat

  /** The request has been served as its plan says: carried out and then refused or not, or cut short by a failure. */
  ghost predicate Serves(w: World, r: Request, w': World, outcome: Outcome) {
    var plan := PlanOf(w.data, r);
    && Carried(w, plan.stages, w', !outcome.Failed?)
    && (!outcome.Failed? ==> outcome == if plan.refusal.Some? then Refused(plan.refusal.value) else Done)
  }

  /**
    The answer to a request, or the end of a handler. When the read of the room record fails, nothing is written; the
    request is told that there is no such room, and a handler returns as if its room were gone.
   */
  ghost predicate Answers(w: World, r: Request, w': World, outcome: Outcome, readFails: bool) {
    if readFails then w' == w && outcome == (if IsTimer(r) then Done else Refused(NotFound))
    else Serves(w, r, w', outcome)
  }

  /**
    A request that returns has completed, and so has done what its outcome says; one that is refused is refused for a
    reason that can be read off the room and the requester.
   */
  lemma AnswerMeans(w: World, r: Request, w': World, outcome: Outcome)
    requires Answers(w, r, w', outcome, false)
    ensures outcome.Done? <==> CompletesWorld(w, r, w') && !outcome.Failed?
    ensures outcome.Refused? ==> PlanOf(w.data, r).refusal == Some(outcome.why)
    ensures outcome.Refused? ==> Carried(w, PlanOf(w.data, r).stages, w', true)
  {
  }

  /** What the service does to the documents is a step of the room, and so keeps them good. */
  lemma ServingIsStep(w: World, r: Request, w': World, outcome: Outcome, readFails: bool)
    requires Answers(w, r, w', outcome, readFails) && Admissible(w.data, r)
    ensures StepsTo(w.data, Step(r, !outcome.Failed? && !readFails), w'.data)
    ensures GoodData(w.data) ==> GoodData(w'.data)
  {
    if readFails {
      NothingCarried(w, PlanOf(w.data, r).stages);
    }
    CarriedIsRan(w, PlanOf(w.data, r).stages, w', !outcome.Failed? && !readFails);
    if GoodData(w.data) {
      StepKeepsGood(w.data, Step(r, !outcome.Failed? && !readFails), w'.data);
    }
  }

  /** The end of a round after the save: before it the schedule, then the save, then the unawaited cancels. */
  lemma RoundEndCarried(w: World, room: Room, now: int, lost: set<TimerKind>, w1: World, w2: World, w3: World,
    saved: bool)
    requires Carried(w, FinalizeRoundEnd(room, w.data.titles, now).1, w1, true)
    requires Carried(w1, [[SaveRoom(FinalizeRoundEnd(room, w.data.titles, now).0)]], w2, saved)
    requires saved ==> Carried(w2, CleanupStaleRoundTimers(FinalizeRoundEnd(room, w.data.titles, now).0, lost), w3,
      true)
    ensures Carried(w, EndRound(room, w.data.titles, now, lost).stages, if saved then w3 else w2, saved)
  {
    var (ended, before) := FinalizeRoundEnd(room, w.data.titles, now);
    var save: seq<Stage> := [[SaveRoom(ended)]];
    CarriedOn(w, before, w1, save, w2, saved);
    if saved {
      CarriedOn(w, before + save, w2, CleanupStaleRoundTimers(ended, lost), w3, true);
    } else {
      CarriedUntil(w, before + save, w2, CleanupStaleRoundTimers(ended, lost));
    }
  }

  lemma RoundEndFailed(w: World, room: Room, now: int, lost: set<TimerKind>, w1: World)
    requires Carried(w, FinalizeRoundEnd(room, w.data.titles, now).1, w1, false)
    ensures Carried(w, EndRound(room, w.data.titles, now, lost).stages, w1, false)
  {
    var (ended, before) := FinalizeRoundEnd(room, w.data.titles, now);
    var rest := [[SaveRoom(ended)]] + CleanupStaleRoundTimers(ended, lost);
    CarriedUntil(w, before, w1, rest);
    assert before + rest == EndRound(room, w.data.titles, now, lost).stages;
  }

  class RoomService {
    const store: RoomStore
    const rounds: RoomRoundService

    predicate Valid() {
      rounds.store == store
    }

    constructor (store: RoomStore)
      ensures this.store == store && Valid()
    {
      this.store := store;
      rounds := new RoomRoundService(store);
    }

    /** `saveRoom`. */
    method SaveRoom(room: Room) returns (ok: bool)
      modifies store
      ensures Carried(old(store.Contents()), [[RoomModel.SaveRoom(room)]], store.Contents(), ok)
      ensures store.failures >= old(store.failures) && (ok <==> store.failures == old(store.failures))
    {
      ghost var landed;
      ok, landed := store.Issue(RoomModel.SaveRoom(room));
    }

    /** Finalize the round, save the room, and only then clean up its timers. */
    method EndRound(room: Room, now: int, lost: set<TimerKind>) returns (ok: bool)
      requires Valid()
      modifies store
      ensures Carried(old(store.Contents()), RoomModel.EndRound(room, old(store.titles), now, lost).stages,
        store.Contents(), ok)
      ensures store.failures >= old(store.failures) && (ok <==> store.failures == old(store.failures))
    {
      ghost var w := store.Contents();
      var ended;
      ok, ended := rounds.FinalizeRoundEnd(room, now);
      ghost var w1 := store.Contents();
      if !ok {
        RoundEndFailed(w, room, now, lost, w1);
        return;
      }
      ok := SaveRoom(ended);
      ghost var w2 := store.Contents();
      if ok {
        rounds.CleanupStaleRoundTimers(ended, lost);
      }
      RoundEndCarried(w, room, now, lost, w1, w2, store.Contents(), ok);
    }

    /** Begin the round if everybody is ready, and save the room in either case. */
    method RecomputeAndSave(room: Room, now: int) returns (ok: bool)
      requires Valid()
      modifies store
      ensures var (after, before) := RecomputeReady(room, now);
        Carried(old(store.Contents()), before + [[RoomModel.SaveRoom(after)]], store.Contents(), ok)
      ensures store.failures >= old(store.failures) && (ok <==> store.failures == old(store.failures))
    {
      ghost var w := store.Contents();
      ghost var (after, before) := RecomputeReady(room, now);
      var ready;
      ok, ready := rounds.RecomputeReadyStatus(room, now);
      ghost var w1 := store.Contents();
      if !ok {
        CarriedUntil(w, before, w1, [[RoomModel.SaveRoom(after)]]);
        return;
      }
      ok := SaveRoom(ready);
      CarriedOn(w, before, w1, [[RoomModel.SaveRoom(after)]], store.Contents(), ok);
    }

    method CreateRoom(host: UserId, maxUserCnt: int, songLimit: nat, songCount: nat, isRandom: bool, isPrivate: bool,
                      hasPassword: bool, speedModeEnabled: bool)
      returns (outcome: Outcome)
      modifies store
      ensures Serves(old(store.Contents()),
        Create(host, maxUserCnt, songLimit, songCount, isRandom, isPrivate, hasPassword, speedModeEnabled),
        store.Contents(), outcome)
      ensures outcome.Failed? <==> store.failures > old(store.failures)
    {
      if songLimit > songCount {
        return Refused(BadRequest);
      }
      if isPrivate && !hasPassword {
        return Refused(BadRequest);
      }
      var room := Room(host, [Participant(host, 0)], 1, maxUserCnt, songLimit, isRandom, isPrivate, speedModeEnabled,
        Waiting, None);
      var ok := SaveRoom(room);
      outcome := if ok then Done else Failed;
    }

    method JoinRoom(userId: UserId, account: bool, passwordMatches: bool) returns (outcome: Outcome)
      modifies store
      ensures Answers(old(store.Contents()), Join(userId, account, passwordMatches),
        store.Contents(), outcome, old(store.ReadFails()))
      ensures outcome.Failed? <==> store.failures > old(store.failures)
    {
      var record := store.GetRoomRecord();
      if record.None? {
        return Refused(NotFound);
      }
      var room := record.value;
      if account && Takes(room, userId) {
        return Done;
      }
      if room.curUserCnt >= room.maxUserCnt {
        return Refused(Conflict);
      }
      if room.isPrivate && !passwordMatches {
        return Refused(Unauthorized);
      }
      room := room.(participants := room.participants + [Participant(userId, 0)]);
      room := room.(curUserCnt := |room.participants|);
      var ok := SaveRoom(room);
      outcome := if ok then Done else Failed;
    }

    method LeaveRoom(userId: UserId, now: int, lost: set<TimerKind>) returns (outcome: Outcome)
      requires Valid()
      modifies store
      ensures Answers(old(store.Contents()), Leave(userId, now, lost),
        store.Contents(), outcome, old(store.ReadFails()))
      ensures outcome.Failed? <==> store.failures > old(store.failures)
    {
      var record := store.GetRoomRecord();
      if record.None? {
        return Refused(NotFound);
      }
      var room := record.value;
      var participantIndex := IndexOf(room.participants, userId);
      if participantIndex == -1 {
        return Refused(NotFound);
      }
      ghost var left := WithoutParticipant(room, participantIndex);
      room := room.(participants := room.participants[..participantIndex] + room.participants[participantIndex + 1..]);
      room := room.(curUserCnt := |room.participants|);
      var ok;
      if room.curUserCnt == 0 {
        ok := DeleteRoom(lost);
        return if ok then Done else Failed;
      }
      if room.hostUserId == userId {
        room := room.(hostUserId := room.participants[0].userId);
      }
      if room.currentRound.Some? {
        var round := room.currentRound.value;
        round := round.(readyUserIds := Without(round.readyUserIds, userId));
        round := round.(correctUserIds := Without(round.correctUserIds, userId));
        round := round.(skipUserIds := Without(round.skipUserIds, userId));
        room := room.(currentRound := Some(round));
      }
      assert room == left;
      outcome := SaveAfterDeparture(room, now, lost);
    }

    /** What a departure sets off: the round begins for those who are ready, or ends, or just goes on. */
    method SaveAfterDeparture(room: Room, now: int, lost: set<TimerKind>) returns (outcome: Outcome)
      requires Valid()
      modifies store
      ensures !outcome.Refused?
      ensures Carried(old(store.Contents()), AfterDeparture(old(store.titles), room, now, lost).stages,
        store.Contents(), outcome.Done?)
      ensures outcome.Failed? <==> store.failures > old(store.failures)
    {
      var ok;
      if room.gameStatus.Loading? {
        ok := RecomputeAndSave(room, now);
      } else if room.gameStatus.Playing? && room.currentRound.Some? {
        var allAnswered := AllIn(room.participants, room.currentRound.value.correctUserIds);
        if allAnswered || HasSkipMajority(room) {
          ok := EndRound(room, now, lost);
        } else {
          ok := SaveRoom(room);
        }
      } else {
        ok := SaveRoom(room);
      }
      outcome := if ok then Done else Failed;
    }

    method UpdateRoom(requester: UserId, maxUserCnt: int, songLimit: nat, songCount: nat, isRandom: bool,
                      isPrivate: bool, hasPassword: bool, speedModeEnabled: bool)
      returns (outcome: Outcome)
      modifies store
      ensures Answers(old(store.Contents()),
        Update(requester, maxUserCnt, songLimit, songCount, isRandom, isPrivate, hasPassword, speedModeEnabled),
        store.Contents(), outcome, old(store.ReadFails()))
      ensures outcome.Failed? <==> store.failures > old(store.failures)
    {
      var record := store.GetRoomRecord();
      if record.None? {
        return Refused(NotFound);
      }
      var room := record.value;
      if room.hostUserId != requester {
        return Refused(Forbidden);
      }
      if room.gameStatus != Waiting && room.gameStatus != Finished {
        return Refused(Conflict);
      }
      if maxUserCnt < room.curUserCnt || songLimit > songCount {
        return Refused(BadRequest);
      }
      if isPrivate && !hasPassword && !room.isPrivate {
        return Refused(BadRequest);
      }
      room := room.(songLimit := songLimit, isRandom := isRandom, speedModeEnabled := speedModeEnabled);
      room := room.(maxUserCnt := maxUserCnt, isPrivate := isPrivate);
      var ok := SaveRoom(room);
      outcome := if ok then Done else Failed;
    }

    method MarkReady(userId: UserId, now: int) returns (outcome: Outcome)
      requires Valid()
      modifies store
      ensures Answers(old(store.Contents()), RoomModel.MarkReady(userId, now),
        store.Contents(), outcome, old(store.ReadFails()))
      ensures outcome.Done? ==> !old(store.ReadFails()) && old(store.room).Some?
      ensures outcome.Done? ==>
        ReadyOutcome(old(store.Contents()), old(store.room).value, userId, now, store.Contents())
      ensures outcome.Failed? <==> store.failures > old(store.failures)
    {
      var record := store.GetRoomRecord();
      if record.None? {
        return Refused(NotFound);
      }
      var room := record.value;
      if room.currentRound.None? || room.gameStatus != Loading {
        return Done;
      }
      var round := room.currentRound.value;
      if userId !in round.readyUserIds {
        round := round.(readyUserIds := round.readyUserIds + [userId]);
      }
      var ok := RecomputeAndSave(room.(currentRound := Some(round)), now);
      if ok {
        MarkReadyOutcome(old(store.Contents()), room, userId, now, store.Contents());
      }
      outcome := if ok then Done else Failed;
    }

    method RequestSkip(userId: UserId, now: int, lost: set<TimerKind>) returns (outcome: Outcome)
      requires Valid()
      modifies store
      ensures Answers(old(store.Contents()), RoomModel.RequestSkip(userId, now, lost),
        store.Contents(), outcome, old(store.ReadFails()))
      ensures outcome.Failed? <==> store.failures > old(store.failures)
    {
      var record := store.GetRoomRecord();
      if record.None? {
        return Refused(NotFound);
      }
      var room := record.value;
      if room.currentRound.None? || room.gameStatus != Playing {
        return Done;
      }
      var round := room.currentRound.value;
      if userId !in round.skipUserIds {
        round := round.(skipUserIds := round.skipUserIds + [userId]);
      }
      room := room.(currentRound := Some(round));
      var ok;
      if HasSkipMajority(room) {
        ok := EndRound(room, now, lost);
      } else {
        ok := SaveRoom(room);
      }
      outcome := if ok then Done else Failed;
    }

    method ForceSkip(requester: UserId, now: int) returns (outcome: Outcome)
      modifies store
      ensures Answers(old(store.Contents()), RoomModel.ForceSkip(requester, now),
        store.Contents(), outcome, old(store.ReadFails()))
      ensures outcome.Failed? <==> store.failures > old(store.failures)
    {
      var record := store.GetRoomRecord();
      if record.None? {
        return Refused(NotFound);
      }
      var room := record.value;
      if room.hostUserId != requester {
        return Refused(Forbidden);
      }
      if room.currentRound.None? || room.gameStatus != Playing {
        return Refused(Conflict);
      }
      room := room.(currentRound := Some(room.currentRound.value.(forceSkipAt := Some(now + FORCE_SKIP_DELAY_MS))));
      var ok := ScheduleAndSave(ScheduleTimer(RoundTimeout, now + FORCE_SKIP_DELAY_MS), room);
      outcome := if ok then Done else Failed;
    }

    /** Schedule a timer, and save the room only if that was answered. */
    method ScheduleAndSave(timer: Effect, room: Room) returns (ok: bool)
      modifies store
      ensures Carried(old(store.Contents()), [[timer], [RoomModel.SaveRoom(room)]], store.Contents(), ok)
      ensures store.failures >= old(store.failures) && (ok <==> store.failures == old(store.failures))
    {
      ghost var w := store.Contents();
      ghost var landed;
      ghost var save: seq<Stage> := [[RoomModel.SaveRoom(room)]];
      assert [[timer]] + save == [[timer], [RoomModel.SaveRoom(room)]];
      ok, landed := store.Issue(timer);
      ghost var w1 := store.Contents();
      if !ok {
        CarriedUntil(w, [[timer]], w1, save);
        return;
      }
      ok := SaveRoom(room);
      CarriedOn(w, [[timer]], w1, save, store.Contents(), ok);
    }

    /** A chat message: broadcast, blocked, or taken as a correct answer. */
    method SubmitChatMessage(userId: UserId, message: string, now: int, lost: set<TimerKind>)
      returns (outcome: Outcome, action: ChatAction, points: nat, rank: nat)
      requires Valid()
      modifies store
      ensures Answers(old(store.Contents()), Submit(userId, message, now, lost),
        store.Contents(), outcome, old(store.ReadFails()))
      ensures outcome.Failed? <==> store.failures > old(store.failures)
      ensures !old(store.ReadFails()) && old(store.room).Some? ==>
        || action == ChatActionOf(old(store.Documents()), old(store.room).value, userId, message)
        || (outcome.Failed? && store.Contents() == old(store.Contents()))
      ensures outcome.Done? && old(InRound()) && IsHidden(old(store.room).value) ==>
        && (action.Broadcast? <==> !GivesAnyAway(StoredAnswers(old(store.Documents())), message))
        && (action.Correct? <==> AnswersCorrectly(old(store.Documents()), old(store.room).value, userId, message))
      ensures old(InRound()) && action.Correct? ==>
        points == PointsForRank(old(CorrectCount())) && rank == old(CorrectCount()) + 1
    {
      action, points, rank := Broadcast, 0, 0;
      var record := store.GetRoomRecord();
      if record.None? {
        outcome := Refused(NotFound);
        return;
      }
      var ok;
      ok, action, points, rank := TakeMessage(record.value, userId, message, now, lost);
      outcome := if ok then Done else Failed;
    }

    method TakeMessage(room: Room, userId: UserId, message: string, now: int, lost: set<TimerKind>)
      returns (ok: bool, action: ChatAction, points: nat, rank: nat)
      requires Valid()
      modifies store
      ensures var plan := SubmitPlan(old(store.Documents()), room, userId, message, now, lost);
        plan.refusal.None? && Carried(old(store.Contents()), plan.stages, store.Contents(), ok)
      ensures store.failures >= old(store.failures) && (ok <==> store.failures == old(store.failures))
      ensures || action == ChatActionOf(old(store.Documents()), room, userId, message)
              || (!ok && action == Broadcast && store.Contents() == old(store.Contents()))
      ensures ok && IsHidden(room) ==>
        && (action.Broadcast? <==> !GivesAnyAway(StoredAnswers(old(store.Documents())), message))
        && (action.Correct? <==> AnswersCorrectly(old(store.Documents()), room, userId, message))
      ensures action.Correct? ==>
        && room.currentRound.Some?
        && points == PointsForRank(|room.currentRound.value.correctUserIds|)
        && rank == |room.currentRound.value.correctUserIds| + 1
    {
      points, rank := 0, 0;
      ok, action := JudgeSubmission(room, userId, message);
      if !ok {
        NothingCarried(store.Contents(), SubmitPlan(store.Documents(), room, userId, message, now, lost).stages);
        return;
      }
      if action == Correct {
        ok, points, rank := TakeCorrectAnswer(room, userId, now, lost);
      }
    }

    /** What becomes of the message, by the answers of the round; nothing is written. */
    method JudgeSubmission(room: Room, userId: UserId, message: string) returns (ok: bool, action: ChatAction)
      modifies store
      ensures store.Contents() == old(store.Contents())
      ensures ok ==> action == ChatActionOf(store.Documents(), room, userId, message)
      ensures ok && IsHidden(room) ==>
        && (action.Broadcast? <==> !GivesAnyAway(StoredAnswers(store.Documents()), message))
        && (action.Correct? <==> AnswersCorrectly(store.Documents(), room, userId, message))
      ensures !ok ==> action == Broadcast
      ensures store.failures == old(store.failures) + if ok then 0 else 1
    {
      ok, action := true, Broadcast;
      if room.currentRound.None? || room.currentRound.value.revealed {
        return;
      }
      ok := store.ReadStrictly();
      if !ok {
        return;
      }
      var answers := if store.answers.Some? then store.answers.value else [];
      var verdict := JudgeMessage(answers, message);
      ChatActionDecides(store.Documents(), room, userId, message);
      if verdict.Unrelated? {
        return;
      }
      if room.gameStatus != Playing || !verdict.Exact? || userId in room.currentRound.value.correctUserIds {
        return true, Blocked;
      }
      action := Correct;
    }

    ghost predicate InRound()
      reads this, store
    {
      store.room.Some? && store.room.value.currentRound.Some?
    }

    ghost function CorrectCount(): nat
      requires InRound()
      reads this, store
    {
      |store.room.value.currentRound.value.correctUserIds|
    }

    /** The answer takes the next rank; then the round ends, or its reveal is scheduled, or the room is just saved. */
    method TakeCorrectAnswer(answered: Room, userId: UserId, now: int, lost: set<TimerKind>)
      returns (ok: bool, points: nat, rank: nat)
      requires Valid() && answered.currentRound.Some?
      modifies store
      ensures Carried(old(store.Contents()),
        CorrectPlan(old(store.Documents()), WithCorrectAnswer(answered, userId), now, lost).stages, store.Contents(),
          ok)
      ensures store.failures >= old(store.failures) && (ok <==> store.failures == old(store.failures))
      ensures points == PointsForRank(|answered.currentRound.value.correctUserIds|)
      ensures rank == |answered.currentRound.value.correctUserIds| + 1
    {
      var room, round := answered, answered.currentRound.value;
      rank := |round.correctUserIds|;
      round := round.(correctUserIds := round.correctUserIds + [userId]);
      points := PointsForRank(rank);
      rank := rank + 1;
      room := room.(currentRound := Some(round));
      var participant := IndexOf(room.participants, userId);
      if participant != -1 {
        var p := room.participants[participant];
        room := room.(participants := room.participants[participant := p.(score := p.score + points)]);
      }
      assert room == WithCorrectAnswer(answered, userId);
      if AllIn(room.participants, round.correctUserIds) {
        ok := EndRound(room, now, lost);
      } else if room.speedModeEnabled && |round.correctUserIds| == 1 {
        round := round.(autoRevealAt := Some(now + SPEED_MODE_REVEAL_DELAY_MS));
        ok := ScheduleAndSave(ScheduleTimer(SpeedReveal, now + SPEED_MODE_REVEAL_DELAY_MS),
          room.(currentRound := Some(round)));
      } else {
        ok := SaveRoom(room);
      }
    }

    /** The room is prepared; now save it, unless the preparation was refused or failed. */
    method SavePrepared(prepared: Outcome, after: Room, ghost w: World, ghost plan: Plan) returns (outcome: Outcome)
      requires Prepared(w, plan, store.Contents(), prepared, after)
      modifies store
      ensures Carried(w, plan.stages, store.Contents(), !outcome.Failed?)
      ensures !outcome.Failed? ==> outcome == if plan.refusal.Some? then Refused(plan.refusal.value) else Done
      ensures store.failures >= old(store.failures)
      ensures outcome.Failed? <==> prepared.Failed? || store.failures > old(store.failures)
    {
      if !prepared.Done? {
        return prepared;
      }
      ghost var w1 := store.Contents();
      ghost var prefix := plan.stages[..|plan.stages| - 1];
      var ok := SaveRoom(after);
      CarriedOn(w, prefix, w1, [[RoomModel.SaveRoom(after)]], store.Contents(), ok);
      assert plan.stages == prefix + [[RoomModel.SaveRoom(after)]];
      outcome := if ok then Done else Failed;
    }

    method StartGame(requester: UserId, quizRounds: Option<seq<RoundData>>, pick: nat -> nat)
      returns (outcome: Outcome, ghost shuffled: seq<RoundData>)
      requires Valid() && Draws(pick)
      modifies store
      ensures quizRounds.Some? ==> multiset(shuffled) == multiset(quizRounds.value)
      ensures Answers(old(store.Contents()), Start(requester, quizRounds, shuffled),
        store.Contents(), outcome, old(store.ReadFails()))
      ensures outcome.Failed? <==> store.failures > old(store.failures)
    {
      shuffled := if quizRounds.Some? then quizRounds.value else [];
      var record := store.GetRoomRecord();
      if record.None? {
        outcome := Refused(NotFound);
        return;
      }
      var room := record.value;
      if room.hostUserId != requester {
        outcome := Refused(Forbidden);
        return;
      }
      if room.gameStatus != Waiting {
        outcome := Refused(Conflict);
        return;
      }
      ghost var w := store.Contents();
      var after;
      outcome, after, shuffled := rounds.PrepareFirstRound(room, quizRounds, pick);
      outcome := SavePrepared(outcome, after, w, RoomModel.StartGame(room, quizRounds, shuffled));
    }

    method RestartGame(requester: UserId, quizRounds: Option<seq<RoundData>>, pick: nat -> nat)
      returns (outcome: Outcome, ghost shuffled: seq<RoundData>)
      requires Valid() && Draws(pick)
      modifies store
      ensures quizRounds.Some? ==> multiset(shuffled) == multiset(quizRounds.value)
      ensures Answers(old(store.Contents()), Restart(requester, quizRounds, shuffled),
        store.Contents(), outcome, old(store.ReadFails()))
      ensures outcome.Failed? <==> store.failures > old(store.failures)
    {
      shuffled := if quizRounds.Some? then quizRounds.value else [];
      var record := store.GetRoomRecord();
      if record.None? {
        outcome := Refused(NotFound);
        return;
      }
      var room := record.value;
      if room.hostUserId != requester {
        outcome := Refused(Forbidden);
        return;
      }
      if room.gameStatus != Finished {
        outcome := Refused(Conflict);
        return;
      }
      room := room.(participants := ZeroScores(room.participants));
      ghost var w := store.Contents();
      var after;
      outcome, after, shuffled := rounds.PrepareFirstRound(room, quizRounds, pick);
      outcome := SavePrepared(outcome, after, w, RoomModel.StartGame(room, quizRounds, shuffled));
    }

    method NextRound(requester: UserId, lost: set<TimerKind>) returns (outcome: Outcome)
      requires Valid()
      modifies store
      ensures Answers(old(store.Contents()), Next(requester, lost),
        store.Contents(), outcome, old(store.ReadFails()))
      ensures outcome.Failed? <==> store.failures > old(store.failures)
    {
      var record := store.GetRoomRecord();
      if record.None? {
        return Refused(NotFound);
      }
      var room := record.value;
      if room.hostUserId != requester {
        return Refused(Forbidden);
      }
      if room.gameStatus != RoundEnded {
        return Refused(Conflict);
      }
      ghost var w := store.Contents();
      rounds.ClearSpeedModeTimer(lost);
      ghost var w1 := store.Contents();
      var after;
      outcome, after := rounds.AdvanceToNextRound(room);
      outcome := SavePrepared(outcome, after, w1, AdvanceToNextRound(w.data, room));
      CarriedOn(w, ClearSpeedModeTimer(lost), w1, AdvanceToNextRound(w.data, room).stages, store.Contents(),
        !outcome.Failed?);
    }

    method HandleAutoNextRound() returns (outcome: Outcome)
      requires Valid()
      modifies store
      ensures Answers(old(store.Contents()), SpeedNextFired,
        store.Contents(), outcome, old(store.ReadFails()))
      ensures outcome.Failed? <==> store.failures > old(store.failures)
    {
      var record := store.GetRoomRecord();
      if record.None? || record.value.gameStatus != RoundEnded {
        return Done;
      }
      ghost var w := store.Contents();
      var after;
      var room := record.value;
      outcome, after := rounds.AdvanceToNextRound(room);
      outcome := SavePrepared(outcome, after, w, AdvanceToNextRound(w.data, room));
    }

    method HandleRoundTimeout(now: int, lost: set<TimerKind>) returns (outcome: Outcome)
      requires Valid()
      modifies store
      ensures Answers(old(store.Contents()), RoundTimeoutFired(now, lost),
        store.Contents(), outcome, old(store.ReadFails()))
      ensures outcome.Failed? <==> store.failures > old(store.failures)
    {
      var record := store.GetRoomRecord();
      if record.None? || record.value.gameStatus != Playing {
        return Done;
      }
      var ok := EndRound(record.value, now, lost);
      outcome := if ok then Done else Failed;
    }

    method HandleSpeedModeReveal(now: int, lost: set<TimerKind>) returns (outcome: Outcome)
      requires Valid()
      modifies store
      ensures Answers(old(store.Contents()), SpeedRevealFired(now, lost),
        store.Contents(), outcome, old(store.ReadFails()))
      ensures outcome.Failed? <==> store.failures > old(store.failures)
    {
      var record := store.GetRoomRecord();
      if record.None? || record.value.gameStatus != Playing {
        return Done;
      }
      var ok := EndRound(record.value, now, lost);
      outcome := if ok then Done else Failed;
    }

    /** Delete the record first; the timers are cancelled without waiting, and the documents of the game go together. */
    method DeleteRoom(lost: set<TimerKind>) returns (ok: bool)
      requires Valid()
      modifies store
      ensures Carried(old(store.Contents()), DeleteRoomStages(lost), store.Contents(), ok)
      ensures store.failures >= old(store.failures) && (ok <==> store.failures == old(store.failures))
    {
      ghost var w := store.Contents();
      ghost var first: seq<Stage> := [[RoomModel.DeleteRoom]];
      ghost var timers := TryCancel(RoundTimeout, lost) + ClearSpeedModeTimer(lost);
      ghost var last: seq<Stage> := [DeleteGame()];
      assert DeleteRoomStages(lost) == first + (timers + last);
      ghost var landed;
      ok, landed := store.Issue(RoomModel.DeleteRoom);
      ghost var w1 := store.Contents();
      if !ok {
        CarriedUntil(w, first, w1, timers + last);
        return;
      }
      store.CancelUnawaited(RoundTimeout, lost);
      ghost var w2 := store.Contents();
      rounds.ClearSpeedModeTimer(lost);
      ghost var w3 := store.Contents();
      CarriedOn(w1, TryCancel(RoundTimeout, lost), w2, ClearSpeedModeTimer(lost), w3, true);
      ok := store.IssueAll(DeleteGame());
      CarriedOn(w1, timers, w3, last, store.Contents(), ok);
      CarriedOn(w, first, w1, timers + last, store.Contents(), ok);
    }
  }
}
