/** What joining, leaving and the settings of a room have done to documents and timers when they complete. */
module RoomMembership {
  import opened Names
  import opened RoomModel
  import opened RoomStore
  import opened RoomTimerProtocol
  import opened RoomWorldRetry
  import opened RoomOutcomes

  /** A new room waits with its host alone, and has the settings that were asked for. */
  lemma CreateOutcome(w: World, r: Request, w': World)
    requires r.Create? && CompletesWorld(w, r, w')
    ensures JustSaved(w, Room(r.host, [Participant(r.host, 0)], 1, r.maxUserCnt, r.songLimit, r.isRandom, r.isPrivate,
      r.speedModeEnabled, Waiting, None), w')
    ensures r.songLimit <= r.songCount && (r.isPrivate ==> r.hasPassword)
  {
    CompleteIsRunWorld(w, PlanOf(w.data, r).stages, w');
    OneWrite(w, SaveRoom(NewRoom(r)));
  }

  /**
    Somebody who joins comes behind all others with no points, and nothing else changes; an account that takes part
    already changes nothing.
   */
  lemma JoinOutcome(w: World, room: Room, u: UserId, account: bool, passwordMatches: bool, w': World)
    requires w.data.room == Some(room) && CompletesWorld(w, Join(u, account, passwordMatches), w')
    ensures account && Takes(room, u) ==> w' == w
    ensures !account || !Takes(room, u) ==>
      && room.curUserCnt < room.maxUserCnt && (room.isPrivate ==> passwordMatches)
      && JustSaved(w, room.(participants := room.participants + [Participant(u, 0)],
                            curUserCnt := |room.participants| + 1), w')
  {
    CompleteIsRunWorld(w, PlanOf(w.data, Join(u, account, passwordMatches)).stages, w');
    if !account || !Takes(room, u) {
      var ps := room.participants + [Participant(u, 0)];
      OneWrite(w, SaveRoom(room.(participants := ps, curUserCnt := |ps|)));
    }
  }

  /** Only the settings change, and only of a room that is not in a game and has room for those who are in it. */
  lemma UpdateOutcome(w: World, room: Room, r: Request, w': World)
    requires w.data.room == Some(room) && r.Update? && CompletesWorld(w, r, w')
    ensures r.requester == room.hostUserId && (room.gameStatus.Waiting? || room.gameStatus.Finished?)
    ensures room.curUserCnt <= r.maxUserCnt && r.songLimit <= r.songCount
    ensures r.isPrivate ==> r.hasPassword || room.isPrivate
    ensures JustSaved(w, Room(room.hostUserId, room.participants, room.curUserCnt, r.maxUserCnt, r.songLimit,
      r.isRandom, r.isPrivate, r.speedModeEnabled, room.gameStatus, room.currentRound), w')
  {
    CompleteIsRunWorld(w, PlanOf(w.data, r).stages, w');
    OneWrite(w, PlanOf(w.data, r).stages[0][0]);
  }

  // ----- leaving

  /** The list without this user; the others are in it as often as before. */
  predicate Dropped(was: seq<UserId>, u: UserId, after: seq<UserId>) {
    multiset(after) == multiset(was)[u := 0]
  }

  lemma {:induction false} WithoutDrops(was: seq<UserId>, u: UserId)
    ensures Dropped(was, u, Without(was, u))
  {
    if was != [] {
      WithoutDrops(was[1..], u);
      assert was == [was[0]] + was[1..];
    }
  }

  /** The participant with the index `i` is gone; the others are there in their order, and the first of them hosts. */
  predicate LeftAs(room: Room, u: UserId, i: nat, left: Room) {
    && i < |room.participants| && room.participants[i].userId == u
    && (forall k :: 0 <= k < i ==> room.participants[k].userId != u)
    && |left.participants| == |room.participants| - 1 > 0
    && (forall k :: 0 <= k < |left.participants| ==>
          left.participants[k] == room.participants[if k < i then k else k + 1])
    && left == room.(participants := left.participants, curUserCnt := |left.participants|,
         hostUserId := (if room.hostUserId == u then left.participants[0].userId else room.hostUserId),
         currentRound := left.currentRound)
    && match room.currentRound
       case None => left.currentRound.None?
       case Some(was) =>
         && left.currentRound.Some?
         && var round := left.currentRound.value;
           && Dropped(was.readyUserIds, u, round.readyUserIds)
           && Dropped(was.correctUserIds, u, round.correctUserIds)
           && Dropped(was.skipUserIds, u, round.skipUserIds)
           && round == was.(readyUserIds := round.readyUserIds, correctUserIds := round.correctUserIds,
                skipUserIds := round.skipUserIds)
  }

  /** The remaining participants have all answered, or enough of them ask for a skip. */
  predicate RoundIsDone(left: Room)
    requires left.currentRound.Some?
  {
    || (forall k :: 0 <= k < |left.participants| ==>
          left.participants[k].userId in left.currentRound.value.correctUserIds)
    || 2 * |left.currentRound.value.skipUserIds| > |left.participants|
  }

  /** What a departure sets off: a round that waited only for the leaver begins, or is over. */
  predicate AfterLeaving(w: World, left: Room, now: int, lost: set<TimerKind>, w': World) {
    if left.gameStatus.Loading? && left.currentRound.Some? then BegunIfReady(w, left, now, w')
    else if left.gameStatus.Playing? && left.currentRound.Some? && RoundIsDone(left) then
      RoundOver(w, left, now, lost, w')
    else JustSaved(w, left, w')
  }

  /** The room and all its documents are gone, and so are its timers unless their cancels were lost. */
  predicate RoomGone(w: World, lost: set<TimerKind>, w': World) {
    && w'.data == Data(None, None, None, None, None)
    && Cleared(w, w', RoundTimeout, lost) && Cleared(w, w', SpeedReveal, lost) && Cleared(w, w', SpeedNext, lost)
    && SameTimer(w, w', DisconnectGrace)
  }

  ghost predicate Departed(w: World, room: Room, u: UserId, now: int, lost: set<TimerKind>, w': World) {
    if |room.participants| == 1 then room.participants[0].userId == u && RoomGone(w, lost, w')
    else exists i: nat, left: Room :: LeftAs(room, u, i, left) && AfterLeaving(w, left, now, lost, w')
  }

  lemma ClearedWorld(w: World, lost: set<TimerKind>)
    ensures var w' := RunWorld(w, ClearSpeedModeTimer(lost));
      && w'.data == w.data && SameTimer(w, w', RoundTimeout) && SameTimer(w, w', DisconnectGrace)
      && Cleared(w, w', SpeedReveal, lost) && Cleared(w, w', SpeedNext, lost)
  {
    TriedCancel(w, SpeedReveal, lost);
    TriedCancel(RunWorld(w, TryCancel(SpeedReveal, lost)), SpeedNext, lost);
    WorldJoined(w, TryCancel(SpeedReveal, lost), TryCancel(SpeedNext, lost));
  }

  /** The documents of a game are gone, and nothing else. */
  lemma DeletedGame(w: World)
    ensures StageWorld(w, DeleteGame()) == World(Data(w.data.room, None, None, None, None), w.timers)
  {
    var stage := DeleteGame();
    assert stage[1..] == [DelSnapshot, DelAnswers, DelReveal];
    assert stage[1..][1..] == [DelAnswers, DelReveal];
    assert stage[1..][1..][1..] == [DelReveal];
    assert stage[1..][1..][1..][1..] == [];
  }

  lemma DeletedWorld(w: World, lost: set<TimerKind>)
    ensures RoomGone(w, lost, RunWorld(w, DeleteRoomStages(lost)))
  {
    var first: seq<Stage> := [[DeleteRoom]];
    var w1 := Exec(w, DeleteRoom);
    OneWrite(w, DeleteRoom);
    TriedCancel(w1, RoundTimeout, lost);
    var w2 := RunWorld(w1, TryCancel(RoundTimeout, lost));
    ClearedWorld(w2, lost);
    var w3 := RunWorld(w2, ClearSpeedModeTimer(lost));
    OneStageWorld(w3, DeleteGame());
    DeletedGame(w3);
    WorldJoined(w, first, TryCancel(RoundTimeout, lost));
    WorldJoined(w, first + TryCancel(RoundTimeout, lost), ClearSpeedModeTimer(lost));
    WorldJoined(w, first + TryCancel(RoundTimeout, lost) + ClearSpeedModeTimer(lost), [DeleteGame()]);
  }

  lemma DepartureLeaves(room: Room, i: nat)
    requires i < |room.participants| && |room.participants| > 1
    requires forall k :: 0 <= k < i ==> room.participants[k].userId != room.participants[i].userId
    ensures LeftAs(room, room.participants[i].userId, i, WithoutParticipant(room, i))
  {
    var u, left := room.participants[i].userId, WithoutParticipant(room, i);
    if room.currentRound.Some? {
      var round := room.currentRound.value;
      WithoutDrops(round.readyUserIds, u);
      WithoutDrops(round.correctUserIds, u);
      WithoutDrops(round.skipUserIds, u);
    }
  }

  lemma DepartureWorld(w: World, left: Room, now: int, lost: set<TimerKind>)
    ensures AfterLeaving(w, left, now, lost, RunWorld(w, AfterDeparture(w.data.titles, left, now, lost).stages))
  {
    OneWrite(w, SaveRoom(left));
    if left.currentRound.Some? {
      if left.gameStatus.Loading? {
        RecomputeOutcome(w, left, now);
      } else {
        EndRoundOutcome(w, left, now, lost);
      }
    } else {
      assert [] + [[SaveRoom(left)]] == [[SaveRoom(left)]];
    }
  }

  /**
    Who leaves is gone from the room and its lists, the others stay as and where they were, and the first of them takes
    over from a host who leaves. A round that waited only for the leaver begins or is over. The last to leave takes the
    room along.
   */
  lemma LeaveOutcome(w: World, room: Room, u: UserId, now: int, lost: set<TimerKind>, w': World)
    requires w.data.room == Some(room) && CompletesWorld(w, Leave(u, now, lost), w')
    ensures Departed(w, room, u, now, lost, w')
  {
    CompleteIsRunWorld(w, PlanOf(w.data, Leave(u, now, lost)).stages, w');
    var i := IndexOf(room.participants, u);
    var left := WithoutParticipant(room, i);
    if |room.participants| == 1 {
      DeletedWorld(w, lost);
    } else {
      DepartureLeaves(room, i);
      DepartureWorld(w, left, now, lost);
      assert LeftAs(room, u, i, left) && AfterLeaving(w, left, now, lost, w');
    }
  }
}
