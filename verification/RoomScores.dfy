/** Score accounting: what the participants of a round gain together is what its correct answers are worth. */
module RoomScores {
  import opened Names
  import opened GameScoring
  import opened RoomModel
  import opened RoomInvariants
  import opened RoomRuns
  import opened RoomCommits
  import opened RoomCourse
  import RoomRetry
  import Timers = RoomTimerProtocol

  function TotalScore(ps: seq<Participant>): nat {
    if ps == [] then 0 else ps[0].score + TotalScore(ps[1..])
  }

  /** The points of the first `k` correct answers of a round together. */
  function PointsOfFirst(k: nat): nat {
    if k == 0 then 0 else PointsOfFirst(k - 1) + PointsForRank(k - 1)
  }

  /** Six, four, three, and one for everybody after that. */
  lemma {:induction false} PointsAddUp(k: nat)
    ensures PointsOfFirst(k) == if k == 0 then 0 else if k == 1 then 6 else if k == 2 then 10 else 10 + k
  {
    if k > 0 {
      PointsAddUp(k - 1);
    }
  }

  /** The total score minus what the correct answers of this round account for. */
  function Balance(room: Room): int
    requires room.currentRound.Some?
  {
    TotalScore(room.participants) - PointsOfFirst(|room.currentRound.value.correctUserIds|)
  }

  lemma {:induction false} NewcomerAddsNothing(ps: seq<Participant>, u: UserId)
    ensures TotalScore(ps + [Participant(u, 0)]) == TotalScore(ps)
  {
    if ps != [] {
      NewcomerAddsNothing(ps[1..], u);
      assert (ps + [Participant(u, 0)])[1..] == ps[1..] + [Participant(u, 0)];
    } else {
      assert (ps + [Participant(u, 0)])[1..] == [];
    }
  }

  lemma {:induction false} RaisedScoreAddsUp(ps: seq<Participant>, i: nat, points: nat)
    requires i < |ps|
    ensures TotalScore(ps[i := ps[i].(score := ps[i].score + points)]) == TotalScore(ps) + points
  {
    var raised := ps[i := ps[i].(score := ps[i].score + points)];
    if i == 0 {
      assert raised[1..] == ps[1..];
    } else {
      RaisedScoreAddsUp(ps[1..], i - 1, points);
      assert raised[1..] == ps[1..][i - 1 := ps[i].(score := ps[i].score + points)];
    }
  }

  /** A participant's correct answer is worth the points of its rank, and a bystander's is worth nothing. */
  lemma CorrectAnswerScores(room: Room, u: UserId)
    requires room.currentRound.Some?
    ensures var answered, rank := WithCorrectAnswer(room, u), |room.currentRound.value.correctUserIds|;
      TotalScore(answered.participants) == TotalScore(room.participants)
        + if Takes(room, u) then PointsForRank(rank) else 0
  {
    var i := IndexOf(room.participants, u);
    if i != -1 {
      RaisedScoreAddsUp(room.participants, i, PointsForRank(|room.currentRound.value.correctUserIds|));
      assert Takes(room, u);
    }
  }

  lemma JoinKeepsBalance(room: Room, u: UserId, account: bool, matches: bool)
    requires GoodRoom(room) && room.currentRound.Some?
    ensures var saved := SavedRoom(JoinPlan(room, u, account, matches).stages);
      saved.Some? ==> saved.value.currentRound.Some? && Balance(saved.value) == Balance(room)
  {
    NewcomerAddsNothing(room.participants, u);
  }

  lemma SubmitKeepsBalance(d: Data, room: Room, u: UserId, message: string, now: int, lost: set<Timers.TimerKind>)
    requires GoodRoom(room) && d.room == Some(room) && room.currentRound.Some? && Takes(room, u)
    ensures var saved := SavedRoom(SubmitPlan(d, room, u, message, now, lost).stages);
      saved.Some? ==> saved.value.currentRound.Some? && Balance(saved.value) == Balance(room)
  {
    if ChatActionOf(d, room, u, message).Correct? {
      CorrectAnswerScores(room, u);
      CorrectKeepsBalance(d, WithCorrectAnswer(room, u), now, lost);
    }
  }

  /** What follows a correct answer changes neither scores nor correct users. */
  lemma CorrectKeepsBalance(d: Data, answered: Room, now: int, lost: set<Timers.TimerKind>)
    requires answered.currentRound.Some?
    ensures var saved := SavedRoom(CorrectPlan(d, answered, now, lost).stages);
      saved.Some? && saved.value.currentRound.Some? && Balance(saved.value) == Balance(answered)
  {
    SaveShape(answered);
    EndRoundShape(answered, d.titles, now, lost);
    var at := now + SPEED_MODE_REVEAL_DELAY_MS;
    OneTimerShape(ScheduleTimer(Timers.SpeedReveal, at),
                  answered.(currentRound := Some(answered.currentRound.value.(autoRevealAt := Some(at)))));
  }

  /** The request is no departure that took effect, and an answer comes from a participant. */
  predicate Accountable(d: Data, r: Request, d': Data) {
    && (r.Leave? ==> d'.room == d.room)
    && (r.Submit? ==> d.room.Some? && Takes(d.room.value, r.userId))
  }

  lemma SimpleRequestKeepsBalance(d: Data, r: Request)
    requires GoodData(d) && InGame(d) && !r.Create? && !ChangesGame(r) && !r.Leave?
    requires r.Submit? ==> Takes(d.room.value, r.userId)
    ensures var saved := SavedRoom(PlanOf(d, r).stages);
      saved.Some? ==> saved.value.currentRound.Some? && Balance(saved.value) == Balance(d.room.value)
  {
    var room := d.room.value;
    SimpleRequestMoves(d, r);
    if r.Join? {
      JoinKeepsBalance(room, r.userId, r.account, r.passwordMatches);
    } else if r.Submit? {
      SubmitKeepsBalance(d, room, r.userId, r.message, r.now, r.lost);
    } else if r.MarkReady? {
      MarkReadyMoves(room, r.userId, r.now);
    } else if r.RequestSkip? {
      RequestSkipMoves(d, room, r.userId, r.now, r.lost);
    } else if r.ForceSkip? {
      ForceSkipMoves(room, r.requester, r.now);
    } else if r.RoundTimeoutFired? || r.SpeedRevealFired? {
      TimeUpMoves(d, room, r.now, r.lost);
    }
  }

  lemma StepKeepsBalance(d: Data, step: Step, d': Data)
    requires GoodData(d) && GoodData(d') && StepsTo(d, step, d') && InGame(d) && InGame(d')
    requires d'.room.value.currentRound.value.roundIndex == d.room.value.currentRound.value.roundIndex
    requires Accountable(d, step.request, d')
    ensures Balance(d'.room.value) == Balance(d.room.value)
  {
    var r := step.request;
    if d'.room != d.room {
      StepMoves(d, step, d');
      if ChangesGame(r) {
        GameRequestMoves(d, r);
        AdvanceChangesRound(d, r, d');
      } else {
        SimpleRequestKeepsBalance(d, r);
        SimpleRequestMoves(d, r);
        CommitPoint(d, PlanOf(d, r).stages, d', step.complete);
      }
    }
  }

  /** A request that advances the game never stays in the round. */
  lemma AdvanceChangesRound(d: Data, r: Request, d': Data)
    requires GoodData(d) && InGame(d) && ChangesGame(r) && d'.room != d.room && InGame(d')
    requires d' == RunStages(d, PlanOf(d, r).stages)
    ensures d'.room.value.currentRound.value.roundIndex != d.room.value.currentRound.value.roundIndex
  {
    var room := d.room.value;
    if room.gameStatus.RoundEnded? && PlanOf(d, r).stages != [] {
      RoomRetry.AdvanceRequestResult(d, room, r);
      RoomRetry.AdvanceResult(d, room);
    }
  }

  predicate SameRound(d: Data, d': Data)
    requires InGame(d)
  {
    InGame(d') && d'.room.value.currentRound.value.roundIndex == d.room.value.currentRound.value.roundIndex
  }

  ghost predicate OneRound(states: seq<Data>, steps: seq<Step>, i: nat, j: nat) {
    && i <= j < |states| == |steps| + 1
    && InGame(states[i])
    && (forall k :: i <= k <= j ==> SameRound(states[i], states[k]))
    && (forall k :: i <= k < j ==> Accountable(states[k], steps[k].request, states[k + 1]))
  }

  lemma NextStepOfRound(states: seq<Data>, steps: seq<Step>, j: nat)
    requires Run(states, steps) && j < |steps| && InGame(states[j]) && SameRound(states[j], states[j + 1])
    requires Accountable(states[j], steps[j].request, states[j + 1])
    ensures Balance(states[j + 1].room.value) == Balance(states[j].room.value)
  {
    RunIsGood(states, steps, j);
    RunIsGood(states, steps, j + 1);
    assert StepAt(states, steps, j);
    StepKeepsBalance(states[j], steps[j], states[j + 1]);
  }

  lemma {:induction false} RoundKeepsBalance(states: seq<Data>, steps: seq<Step>, i: nat, j: nat)
    requires Run(states, steps) && OneRound(states, steps, i, j)
    ensures Balance(states[j].room.value) == Balance(states[i].room.value)
    decreases j
  {
    if i < j {
      RoundKeepsBalance(states, steps, i, j - 1);
      NextStepOfRound(states, steps, j - 1);
    }
  }

  /**
    In a round without departures whose answers come from participants, the participants together gain exactly the
    points of the first k ranks, k being the number of correct users; joins, skips, failures and retries included.
   */
  lemma RoundGainsItsPoints(states: seq<Data>, steps: seq<Step>, i: nat, j: nat)
    requires Run(states, steps) && OneRound(states, steps, i, j) && states[i].room.value.gameStatus.Loading?
    ensures TotalScore(states[j].room.value.participants)
         == TotalScore(states[i].room.value.participants)
          + PointsOfFirst(|states[j].room.value.currentRound.value.correctUserIds|)
  {
    RunIsGood(states, steps, i);
    RoundKeepsBalance(states, steps, i, j);
  }
}
