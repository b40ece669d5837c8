/** The end of a round, by whatever request: what it leaves behind for the next one. */
module RoomRoundEnds {
  import opened Names
  import opened RoomModel
  import opened RoomInvariants
  import opened RoomTimerProtocol
  import opened RoomWorldRetry
  import opened RoomOutcomes
  import opened RoomMembership
  import opened RoomGameOutcomes
  import opened RoomChat

  /** The requests that may end a round. */
  predicate MayEndRound(r: Request) {
    r.Leave? || r.Submit? || r.RequestSkip? || r.RoundTimeoutFired? || r.SpeedRevealFired?
  }

  /** The stored round, before or after. */
  predicate HasRound(w: World) {
    w.data.room.Some? && w.data.room.value.currentRound.Some?
  }

  /**
    What the end of a round leaves: in speed mode the next round is due in four seconds, and the saved room says so;
    otherwise the timer of the next round is as it was found. The timeout of the round that is over is gone, and in
    speed mode its reveal, unless their cancels were lost.
   */
  predicate RoundLeft(w: World, now: int, lost: set<TimerKind>, w': World)
    requires HasRound(w) && HasRound(w')
  {
    var was, room := w.data.room.value, w'.data.room.value;
    && room.speedModeEnabled == was.speedModeEnabled
    && room.currentRound.value.revealed && room.currentRound.value.title == w.data.titles
    && (if room.speedModeEnabled then
          && SpeedNext in w'.timers && w'.timers[SpeedNext] == now + 4_000
          && room.currentRound.value.autoNextRoundAt == Some(now + 4_000)
          && Cleared(w, w', SpeedReveal, lost)
        else
          && SameTimer(w, w', SpeedNext) && SameTimer(w, w', SpeedReveal)
          && room.currentRound.value.autoNextRoundAt == was.currentRound.value.autoNextRoundAt)
    && (if RoundTimeout in lost then SameTimer(w, w', RoundTimeout) else RoundTimeout !in w'.timers)
  }

  lemma OverIsLeft(w: World, room: Room, now: int, lost: set<TimerKind>, w': World)
    requires HasRound(w) && room.currentRound.Some? && RoundOver(w, room, now, lost, w')
    requires room.speedModeEnabled == w.data.room.value.speedModeEnabled
    requires room.currentRound.value.autoNextRoundAt == w.data.room.value.currentRound.value.autoNextRoundAt
    ensures HasRound(w') && RoundLeft(w, now, lost, w')
  {
  }

  /** The round was played, and is over now. */
  predicate RoundEnded(w: World, w': World) {
    && HasRound(w) && w.data.room.value.gameStatus.Playing?
    && HasRound(w') && w'.data.room.value.gameStatus.RoundEnded?
  }

  /** The room goes from another status to the end of a round. */
  predicate Ends(w: World, w': World) {
    && w.data.room.Some? && WellFormed(w.data.room.value) && !w.data.room.value.gameStatus.RoundEnded?
    && w'.data.room.Some? && w'.data.room.value.gameStatus.RoundEnded?
  }

  lemma LeaveEndsRound(w: World, u: UserId, now: int, lost: set<TimerKind>, w': World)
    requires Ends(w, w') && CompletesWorld(w, Leave(u, now, lost), w')
    ensures RoundEnded(w, w') && RoundLeft(w, now, lost, w')
  {
    var was := w.data.room.value;
    LeaveOutcome(w, was, u, now, lost, w');
    var i: nat, left: Room :| LeftAs(was, u, i, left) && AfterLeaving(w, left, now, lost, w');
    OverIsLeft(w, left, now, lost, w');
  }

  lemma SubmitEndsRound(w: World, u: UserId, message: string, now: int, lost: set<TimerKind>, w': World)
    requires Ends(w, w') && CompletesWorld(w, Submit(u, message, now, lost), w')
    ensures RoundEnded(w, w') && RoundLeft(w, now, lost, w')
  {
    var was := w.data.room.value;
    SubmitOutcome(w, was, u, message, now, lost, w');
    var answered: Room :| Scored(was, u, answered) && AfterAnswer(w, answered, now, lost, w');
    OverIsLeft(w, answered, now, lost, w');
  }

  lemma SkipEndsRound(w: World, u: UserId, now: int, lost: set<TimerKind>, w': World)
    requires Ends(w, w') && CompletesWorld(w, RequestSkip(u, now, lost), w')
    ensures RoundEnded(w, w') && RoundLeft(w, now, lost, w')
  {
    var was := w.data.room.value;
    RequestSkipOutcome(w, was, u, now, lost, w');
    var round := was.currentRound.value;
    var skip: seq<UserId> :| Added(round.skipUserIds, u, skip)
      && var asked := was.(currentRound := Some(round.(skipUserIds := skip)));
         if 2 * |skip| > |was.participants| then RoundOver(w, asked, now, lost, w') else JustSaved(w, asked, w');
    OverIsLeft(w, was.(currentRound := Some(round.(skipUserIds := skip))), now, lost, w');
  }

  lemma TimeUpEndsRound(w: World, r: Request, w': World)
    requires Ends(w, w') && CompletesWorld(w, r, w') && (r.RoundTimeoutFired? || r.SpeedRevealFired?)
    ensures RoundEnded(w, w') && RoundLeft(w, r.now, r.lost, w')
  {
    TimeUpOutcome(w, w.data.room.value, r, w');
    OverIsLeft(w, w.data.room.value, r.now, r.lost, w');
  }

  /** Whatever request it was that ended the round, it was played, and the next one is prepared for. */
  lemma RoundEndOutcome(w: World, r: Request, w': World)
    requires GoodData(w.data) && Admissible(w.data, r) && CompletesWorld(w, r, w')
    requires w.data.room.Some? && !w.data.room.value.gameStatus.RoundEnded?
    requires w'.data.room.Some? && w'.data.room.value.gameStatus.RoundEnded?
    ensures MayEndRound(r) && RoundEnded(w, w') && RoundLeft(w, r.now, r.lost, w')
  {
    match r
    case Leave(u, now, lost) => LeaveEndsRound(w, u, now, lost, w');
    case Submit(u, message, now, lost) => SubmitEndsRound(w, u, message, now, lost, w');
    case RequestSkip(u, now, lost) => SkipEndsRound(w, u, now, lost, w');
    case RoundTimeoutFired(_, _) => TimeUpEndsRound(w, r, w');
    case SpeedRevealFired(_, _) => TimeUpEndsRound(w, r, w');
    case _ => OtherKeepsRound(w, r, w');
  }

  /** No other request ends a round. */
  lemma OtherKeepsRound(w: World, r: Request, w': World)
    requires w.data.room.Some? && Admissible(w.data, r) && CompletesWorld(w, r, w') && !MayEndRound(r)
    requires !w.data.room.value.gameStatus.RoundEnded?
    ensures w'.data.room.Some? && !w'.data.room.value.gameStatus.RoundEnded?
  {
    var was := w.data.room.value;
    match r
    case Join(u, account, matches) => JoinOutcome(w, was, u, account, matches, w');
    case Update(_, _, _, _, _, _, _, _) => UpdateOutcome(w, was, r, w');
    case Start(_, _, _) => StartOutcome(w, was, r, w');
    case Restart(_, _, _) => RestartOutcome(w, was, r, w');
    case MarkReady(u, now) => MarkReadyOutcome(w, was, u, now, w');
    case Next(_, _) => NextOutcome(w, was, r, w');
    case ForceSkip(u, now) => ForceSkipOutcome(w, was, u, now, w');
    case SpeedNextFired => SpeedNextOutcome(w, was, w');
    case _ =>
  }
}
