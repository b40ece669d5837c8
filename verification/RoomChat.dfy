/** What becomes of a chat message, from the answers and the message alone, and what a correct answer does. */
module RoomChat {
  import opened Names
  import opened GameScoring
  import opened RoomModel
  import opened RoomInvariants
  import opened RoomRuns
  import Timers = RoomTimerProtocol
  import opened RoomWorldRetry
  import opened RoomOutcomes

  /** The answers that are stored; a missing document counts as no answers. */
  function StoredAnswers(d: Data): seq<string> {
    if d.answers.Some? then d.answers.value else []
  }

  /** The message gives one of these answers away. */
  ghost predicate GivesAnyAway(answers: seq<string>, message: string) {
    exists k :: 0 <= k < |answers| && GivesAway(answers[k], message)
  }

  ghost predicate EqualsAny(answers: seq<string>, message: string) {
    exists k :: 0 <= k < |answers| && Equals(answers[k], message)
  }

  /** The room has a round whose titles are not public yet. */
  predicate IsHidden(room: Room) {
    room.currentRound.Some? && !room.currentRound.value.revealed
  }

  /** The message is a correct answer of this user: in a round that is played, and the user's first. */
  ghost predicate AnswersCorrectly(d: Data, room: Room, u: UserId, message: string) {
    && room.gameStatus.Playing? && IsHidden(room)
    && EqualsAny(StoredAnswers(d), message) && u !in room.currentRound.value.correctUserIds
  }

  /**
    Until the round is revealed: a message is shown exactly if it gives no answer away. It is correct exactly if the
    round is played, it equals an answer, and the user has not answered before. Any other message is blocked.
   */
  lemma ChatActionDecides(d: Data, room: Room, u: UserId, message: string)
    requires IsHidden(room)
    ensures var action := ChatActionOf(d, room, u, message);
      && (action.Broadcast? <==> !GivesAnyAway(StoredAnswers(d), message))
      && (action.Correct? <==> AnswersCorrectly(d, room, u, message))
      && (action.Blocked? <==> GivesAnyAway(StoredAnswers(d), message) && !AnswersCorrectly(d, room, u, message))
  {
    JudgeDecides(StoredAnswers(d), message);
    if EqualsAny(StoredAnswers(d), message) {
      var k :| 0 <= k < |StoredAnswers(d)| && Equals(StoredAnswers(d)[k], message);
      EqualGivesAway(StoredAnswers(d)[k], message);
    }
  }

  /** Without a round, or after it was revealed, every message is shown. */
  lemma EverythingIsShown(d: Data, room: Room, u: UserId, message: string)
    requires !IsHidden(room)
    ensures ChatActionOf(d, room, u, message).Broadcast?
  {
  }

  /**
    Over every run: while a round is loading or played, no message that is shown gives away an answer of the song that
    this round plays, and only such messages are held back.
   */
  lemma NothingIsGivenAway(states: seq<Data>, steps: seq<Step>, i: nat, u: UserId, message: string)
    requires Run(states, steps) && i < |states| && states[i].room.Some?
    requires states[i].room.value.gameStatus.Loading? || states[i].room.value.gameStatus.Playing?
    ensures var d, room := states[i], states[i].room.value;
      && room.currentRound.Some? && OrderStored(d, room.currentRound.value)
      && room.currentRound.value.roundIndex < |d.songOrder.value|
      && (ChatActionOf(d, room, u, message).Broadcast? <==>
            !GivesAnyAway(SongAt(d, room.currentRound.value.roundIndex).answers, message))
  {
    RunIsGood(states, steps, i);
    ChatActionDecides(states[i], states[i].room.value, u, message);
  }

  // ----- a correct answer

  /** The participant with the index `i` is the user, and the first one that is. */
  predicate IsAt(ps: seq<Participant>, u: UserId, i: nat) {
    i < |ps| && ps[i].userId == u && forall k :: 0 <= k < i ==> ps[k].userId != u
  }

  /** The points for an answer that `before` users gave before. */
  function Points(before: nat): nat {
    match before
    case 0 => 6
    case 1 => 4
    case 2 => 3
    case _ => 1
  }

  /** The user has taken the next rank, and the participant with that id, if there is one, has the points for it. */
  predicate Scored(room: Room, u: UserId, answered: Room)
    requires room.currentRound.Some?
  {
    var round, ps := room.currentRound.value, room.participants;
    && answered == room.(participants := answered.participants,
         currentRound := Some(round.(correctUserIds := round.correctUserIds + [u])))
    && |answered.participants| == |ps|
    && forall i :: 0 <= i < |ps| ==>
         answered.participants[i] ==
           if IsAt(ps, u, i) then Participant(u, ps[i].score + Points(|round.correctUserIds|)) else ps[i]
  }

  /**
    The round is over once all participants are right. In speed mode the first right answer, unless it ends the round,
    schedules the reveal in six seconds, as the room says. Otherwise the room is just saved.
   */
  predicate AfterAnswer(w: World, answered: Room, now: int, lost: set<Timers.TimerKind>, w': World)
    requires answered.currentRound.Some?
  {
    var round := answered.currentRound.value;
    if forall i :: 0 <= i < |answered.participants| ==> answered.participants[i].userId in round.correctUserIds then
      RoundOver(w, answered, now, lost, w')
    else if answered.speedModeEnabled && |round.correctUserIds| == 1 then
      && w'.data == w.data.(room := Some(answered.(currentRound := Some(round.(autoRevealAt := Some(now + 6_000))))))
      && w'.timers == w.timers[Timers.SpeedReveal := now + 6_000]
    else
      JustSaved(w, answered, w')
  }

  lemma AnsweredWorld(w: World, answered: Room, now: int, lost: set<Timers.TimerKind>)
    requires answered.currentRound.Some?
    ensures AfterAnswer(w, answered, now, lost, RunWorld(w, CorrectPlan(w.data, answered, now, lost).stages))
  {
    var round := answered.currentRound.value;
    if AllIn(answered.participants, round.correctUserIds) {
      EndRoundOutcome(w, answered, now, lost);
    } else if answered.speedModeEnabled && |round.correctUserIds| == 1 {
      var room := answered.(currentRound := Some(round.(autoRevealAt := Some(now + 6_000))));
      TwoWrites(w, ScheduleTimer(Timers.SpeedReveal, now + 6_000), SaveRoom(room));
    } else {
      OneWrite(w, SaveRoom(answered));
    }
  }

  lemma AnswerScores(room: Room, u: UserId)
    requires room.currentRound.Some?
    ensures Scored(room, u, WithCorrectAnswer(room, u))
  {
    var i := IndexOf(room.participants, u);
    assert i >= 0 ==> IsAt(room.participants, u, i);
  }

  ghost predicate MessageOutcome(w: World, room: Room, u: UserId, message: string, now: int,
    lost: set<Timers.TimerKind>, w': World)
  {
    if !AnswersCorrectly(w.data, room, u, message) then w' == w
    else exists answered: Room :: Scored(room, u, answered) && AfterAnswer(w, answered, now, lost, w')
  }

  lemma MessageWorld(w: World, room: Room, u: UserId, message: string, now: int, lost: set<Timers.TimerKind>)
    ensures MessageOutcome(w, room, u, message, now, lost,
                           RunWorld(w, SubmitPlan(w.data, room, u, message, now, lost).stages))
  {
    if IsHidden(room) {
      ChatActionDecides(w.data, room, u, message);
    }
    if AnswersCorrectly(w.data, room, u, message) {
      AnswerScores(room, u);
      AnsweredWorld(w, WithCorrectAnswer(room, u), now, lost);
    }
  }

  /** What a message does to documents and timers: nothing at all, unless it is a correct answer. */
  lemma SubmitOutcome(w: World, room: Room, u: UserId, message: string, now: int, lost: set<Timers.TimerKind>,
    w': World)
    requires w.data.room == Some(room) && CompletesWorld(w, Submit(u, message, now, lost), w')
    ensures MessageOutcome(w, room, u, message, now, lost, w')
  {
    CompleteIsRunWorld(w, PlanOf(w.data, Submit(u, message, now, lost)).stages, w');
    MessageWorld(w, room, u, message, now, lost);
  }
}
