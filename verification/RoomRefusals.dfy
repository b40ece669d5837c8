/** Who is refused, and with what: each exception, from the room and the requester. */
module RoomRefusals {
  import opened Names
  import opened RoomModel
  import opened RoomStore
  import opened RoomTimerProtocol
  import opened RoomOutcomes
  import opened RoomMembership

  /** The requests that are the host's alone. */
  predicate HostOnly(r: Request) {
    r.Update? || r.Start? || r.Restart? || r.Next? || r.ForceSkip?
  }

  /** The request is the host's alone, and somebody else makes it. */
  predicate ByStranger(room: Room, r: Request) {
    HostOnly(r) && r.requester != room.hostUserId
  }

  /** The account takes part already and only comes back. */
  predicate ComesBack(room: Room, r: Request) {
    r.Join? && r.account && Takes(room, r.userId)
  }

  lemma ForbiddenIff(d: Data, r: Request)
    ensures PlanOf(d, r).refusal == Some(Forbidden) <==> d.room.Some? && ByStranger(d.room.value, r)
  {
  }

  /** The room is full, or its status does not admit the request. */
  predicate WrongMoment(room: Room, r: Request) {
    match r
    case Join(_, _, _) => room.curUserCnt >= room.maxUserCnt
    case Update(_, _, _, _, _, _, _, _) => !room.gameStatus.Waiting? && !room.gameStatus.Finished?
    case Start(_, _, _) => !room.gameStatus.Waiting?
    case Restart(_, _, _) => !room.gameStatus.Finished?
    case Next(_, _) => !room.gameStatus.RoundEnded?
    case ForceSkip(_, _) => !room.gameStatus.Playing? || room.currentRound.None?
    case _ => false
  }

  lemma ConflictIff(d: Data, r: Request)
    ensures PlanOf(d, r).refusal == Some(Conflict) <==>
      && d.room.Some? && WrongMoment(d.room.value, r)
      && !ByStranger(d.room.value, r) && !ComesBack(d.room.value, r)
  {
  }

  /** Only a newcomer to a private room that is not full is asked for the password. */
  lemma UnauthorizedIff(d: Data, r: Request)
    ensures PlanOf(d, r).refusal == Some(Unauthorized) <==>
      && d.room.Some? && r.Join? && d.room.value.isPrivate && !r.passwordMatches
      && d.room.value.curUserCnt < d.room.value.maxUserCnt && !ComesBack(d.room.value, r)
  {
  }

  /** More songs than the quiz has, or a private room without a password. */
  lemma BadRequestIff(d: Data, r: Request)
    ensures PlanOf(d, r).refusal == Some(BadRequest) <==>
      || (r.Create? && (r.songLimit > r.songCount || (r.isPrivate && !r.hasPassword)))
      || (&& r.Update? && d.room.Some? && !ByStranger(d.room.value, r) && !WrongMoment(d.room.value, r)
          && (|| r.maxUserCnt < d.room.value.curUserCnt || r.songLimit > r.songCount
              || (r.isPrivate && !r.hasPassword && !d.room.value.isPrivate)))
  {
  }

  /** The host starts a game at the right moment, and the quiz service gives no rounds. */
  lemma UnavailableIff(d: Data, r: Request)
    ensures PlanOf(d, r).refusal == Some(Unavailable) <==>
      && d.room.Some? && (r.Start? || r.Restart?) && r.rounds.None?
      && !ByStranger(d.room.value, r) && !WrongMoment(d.room.value, r)
  {
  }

  /** There is nothing to play: no round at all, or none that the settings admit. */
  predicate NothingToPlay(room: Room, rounds: seq<RoundData>, shuffled: seq<RoundData>) {
    rounds == [] || room.songLimit == 0 || (room.isRandom && shuffled == [])
  }

  /** The stored order has a next song, and the snapshot does not have it. */
  predicate NextIsMissing(d: Data, room: Room) {
    var next := if room.currentRound.Some? then room.currentRound.value.roundIndex + 1 else 0;
    && d.songOrder.Some? && next < |d.songOrder.value|
    && (d.snapshot.Some? ==> d.songOrder.value[next] !in d.snapshot.value)
  }

  lemma StartRefusedIff(room: Room, rounds: Option<seq<RoundData>>, shuffled: seq<RoundData>)
    ensures StartGame(room, rounds, shuffled).refusal
      == if rounds.None? then Some(Unavailable)
         else if NothingToPlay(room, rounds.value, shuffled) then Some(NotFound) else None
  {
  }

  lemma AdvanceRefusedIff(d: Data, room: Room)
    ensures AdvanceToNextRound(d, room).refusal == if NextIsMissing(d, room) then Some(NotFound) else None
  {
  }

  /** There is no room; or the leaver takes no part in it; or there is nothing to play. */
  lemma NotFoundIff(d: Data, r: Request)
    ensures PlanOf(d, r).refusal == Some(NotFound) <==>
      if d.room.None? then !r.Create? && !IsTimer(r)
      else
        var room := d.room.value;
        || (r.Leave? && !Takes(room, r.userId))
        || (&& (r.Start? || r.Restart?) && r.rounds.Some? && NothingToPlay(room, r.rounds.value, r.shuffled)
            && !ByStranger(room, r) && !WrongMoment(room, r))
        || (r.Next? && !ByStranger(room, r) && !WrongMoment(room, r) && NextIsMissing(d, room))
        || (r.SpeedNextFired? && room.gameStatus.RoundEnded? && NextIsMissing(d, room))
  {
    if d.room.Some? {
      var room := d.room.value;
      if r.Leave? {
        var i := IndexOf(room.participants, r.userId);
        assert i >= 0 ==> Takes(room, r.userId);
      } else if r.Start? {
        StartRefusedIff(room, r.rounds, r.shuffled);
      } else if r.Restart? {
        StartRefusedIff(room.(participants := ZeroScores(room.participants)), r.rounds, r.shuffled);
      } else if r.Next? || r.SpeedNextFired? {
        AdvanceRefusedIff(d, room);
      }
    }
  }

  /**
    A refused request leaves the room record as it was. Only the start of a game without songs has stored them by then,
    and only a request for a next round that is missing has cleared the speed mode timers.
   */
  lemma RefusedChangesNoRoom(w: World, r: Request, w': World)
    requires PlanOf(w.data, r).refusal.Some? && Carried(w, PlanOf(w.data, r).stages, w', true)
    ensures w'.data.room == w.data.room
    ensures !r.Start? && !r.Restart? ==> w'.data == w.data
    ensures !r.Next? ==> w'.timers == w.timers
    ensures r.Next? ==> SameTimer(w, w', RoundTimeout)
  {
    CompleteIsRunWorld(w, PlanOf(w.data, r).stages, w');
    if r.Next? {
      NextClearsTimers(w, r);
    } else if r.Start? || r.Restart? {
      StartStoresNothing(w, r);
    }
  }

  lemma NextClearsTimers(w: World, r: Request)
    requires r.Next? && PlanOf(w.data, r).refusal.Some?
    ensures var w' := RunWorld(w, PlanOf(w.data, r).stages); w'.data == w.data && SameTimer(w, w', RoundTimeout)
  {
    ClearedWorld(w, r.lost);
    assert ClearSpeedModeTimer(r.lost) + [] == ClearSpeedModeTimer(r.lost);
  }

  lemma StartStoresNothing(w: World, r: Request)
    requires (r.Start? || r.Restart?) && PlanOf(w.data, r).refusal.Some?
    ensures var w' := RunWorld(w, PlanOf(w.data, r).stages); w'.data.room == w.data.room && w'.timers == w.timers
  {
    OneStageWorld(w, StoreGame([]));
    NoGameStored(w);
  }

  lemma NoGameStored(w: World)
    ensures StageWorld(w, StoreGame([]))
      == World(w.data.(songOrder := Some([]), snapshot := Some(map[])), w.timers)
  {
    var stage := StoreGame([]);
    assert stage[1..] == [SetSnapshot(map[])] && stage[1..][1..] == [];
  }
}
