/** What holds of every stored room, after every write of every request, wherever a failure cuts the request short. */
module RoomInvariants {
  import opened Names
  import opened RoomModel

  predicate DistinctUsers(ps: seq<Participant>) {
    forall i, j :: 0 <= i < j < |ps| ==> ps[i].userId != ps[j].userId
  }

  /** The shape of a stored room: its head count, its host, and what its status says about its round. */
  predicate WellFormed(room: Room) {
    && room.curUserCnt == |room.participants|
    && 1 <= |room.participants| <= room.maxUserCnt
    && DistinctUsers(room.participants)
    && Takes(room, room.hostUserId)
    && (room.currentRound.None? <==> room.gameStatus.Waiting? || room.gameStatus.Finished?)
    && (room.currentRound.Some? ==> (room.currentRound.value.revealed <==> room.gameStatus.RoundEnded?))
    && (room.currentRound.Some? && !room.currentRound.value.revealed ==> room.currentRound.value.title.None?)
  }

  /** Nothing is left undone: no loading room in which all are ready, no playing room whose round should be over. */
  predicate Quiescent(room: Room) {
    room.currentRound.Some? ==>
      var round := room.currentRound.value;
      && (room.gameStatus.Loading? ==>
            !AllIn(room.participants, round.readyUserIds) && round.correctUserIds == [] && round.skipUserIds == [])
      && (room.gameStatus.Playing? ==> !AllIn(room.participants, round.correctUserIds) && !HasSkipMajority(room))
  }

  function MaxScore(round: Round, u: UserId): nat {
    6 * round.roundIndex + if u in round.correctUserIds then 6 else 0
  }

  /** At most six points a round, and none before the first. */
  predicate ScoresBounded(room: Room) {
    && (room.gameStatus.Waiting? ==> forall i :: 0 <= i < |room.participants| ==> room.participants[i].score == 0)
    && (room.currentRound.Some? ==> forall i :: 0 <= i < |room.participants| ==>
          room.participants[i].score <= MaxScore(room.currentRound.value, room.participants[i].userId))
  }

  predicate GoodRoom(room: Room) {
    WellFormed(room) && Quiescent(room) && ScoresBounded(room)
  }

  /** The song order, while it is stored, has the promised length, and the snapshot has every song of it. */
  predicate OrderStored(d: Data, round: Round) {
    && d.songOrder.Some? && d.snapshot.Some?
    && |d.songOrder.value| == round.totalRounds
    && forall i :: 0 <= i < |d.songOrder.value| ==> d.songOrder.value[i] in d.snapshot.value
  }

  /** The data of the round `k` of the stored order. */
  function SongAt(d: Data, k: nat): RoundData
    requires d.songOrder.Some? && d.snapshot.Some? && k < |d.songOrder.value|
      && d.songOrder.value[k] in d.snapshot.value
  {
    d.snapshot.value[d.songOrder.value[k]]
  }

  /**
    The documents around a room in a game. Order and snapshot are there as long as there is a round left to play,
    and a room that is loading or playing has the answers and titles of exactly its own round.
   */
  predicate RoundStored(d: Data, room: Room) {
    room.currentRound.Some? ==>
      var round := room.currentRound.value;
      && round.roundIndex < round.totalRounds
      && (d.songOrder.Some? ==> |d.songOrder.value| == round.totalRounds)
      && (!room.gameStatus.RoundEnded? || round.roundIndex + 1 < round.totalRounds ==> OrderStored(d, round))
      && (room.gameStatus.Loading? || room.gameStatus.Playing? ==>
            && d.answers == Some(SongAt(d, round.roundIndex).answers)
            && d.titles == Some(SongAt(d, round.roundIndex).Titles()))
      && (room.gameStatus.RoundEnded? && OrderStored(d, round) ==>
            round.title == Some(SongAt(d, round.roundIndex).Titles()))
  }

  predicate GoodData(d: Data) {
    d.room.Some? ==> GoodRoom(d.room.value) && RoundStored(d, d.room.value)
  }

  /** Good after every write of the stages, and after any part of a stage, in this order. */
  ghost predicate KeepsGood(d: Data, stages: seq<Stage>)
    decreases stages
  {
    && GoodData(d)
    && (stages != [] ==>
          && (forall landed: seq<Landing> :: |landed| == |stages[0]| ==> GoodData(RunPart(d, stages[0], landed)))
          && KeepsGood(RunStage(d, stages[0]), stages[1..]))
  }

  predicate TimerWrite(stage: Stage) {
    |stage| == 1 && (stage[0].ScheduleTimer? || stage[0].CancelTimer?)
  }

  predicate TimersOnly(stages: seq<Stage>)
    decreases stages
  {
    stages == [] || (TimerWrite(stages[0]) && TimersOnly(stages[1..]))
  }

  lemma {:induction false} TimersOnlyJoined(a: seq<Stage>, b: seq<Stage>)
    requires TimersOnly(a) && TimersOnly(b)
    ensures TimersOnly(a + b)
    decreases a
  {
    if a == [] {
      assert a + b == b;
    } else {
      TimersOnlyJoined(a[1..], b);
      assert (a + b)[1..] == a[1..] + b;
    }
  }

  lemma {:induction false} TimerStagesKeepData(d: Data, stages: seq<Stage>)
    requires GoodData(d) && TimersOnly(stages)
    ensures KeepsGood(d, stages) && RunStages(d, stages) == d
  {
    if stages != [] {
      OneWriteStage(d, stages[0][0]);
      TimerStagesKeepData(d, stages[1..]);
    }
  }

  /** A stage of a single write lands or does not. */
  lemma OneWriteStage(d: Data, e: Effect)
    ensures RunStage(d, [e]) == ExecData(d, e)
    ensures forall landed: seq<Landing> :: |landed| == 1 ==>
      RunPart(d, [e], landed) == if landed[0].Landed? then ExecData(d, e) else d
  {
  }

  /** A stage of a single write, from one good state to another. */
  lemma OneStage(d: Data, e: Effect)
    requires GoodData(d) && GoodData(ExecData(d, e))
    ensures KeepsGood(d, [[e]]) && RunStages(d, [[e]]) == ExecData(d, e)
  {
    OneWriteStage(d, e);
    assert [[e]][1..] == [];
  }

  lemma NoRoomIsGood(d: Data)
    ensures d.room.None? ==> GoodData(d)
  {
  }

  lemma {:induction false} StagesAppend(d: Data, a: seq<Stage>, b: seq<Stage>)
    requires KeepsGood(d, a) && KeepsGood(RunStages(d, a), b)
    ensures KeepsGood(d, a + b) && RunStages(d, a + b) == RunStages(RunStages(d, a), b)
    decreases a
  {
    if a == [] {
      assert a + b == b;
    } else {
      StagesAppend(RunStage(d, a[0]), a[1..], b);
      assert (a + b)[0] == a[0] && (a + b)[1..] == a[1..] + b;
    }
  }

  /** A save of a good room, with timer commands before and after it. */
  lemma SaveAmongTimers(d: Data, before: seq<Stage>, room: Room, after: seq<Stage>)
    requires GoodData(d) && TimersOnly(before) && TimersOnly(after)
    requires GoodRoom(room) && RoundStored(d, room)
    ensures KeepsGood(d, before + [[SaveRoom(room)]] + after)
    ensures RunStages(d, before + [[SaveRoom(room)]] + after) == d.(room := Some(room))
  {
    TimerStagesKeepData(d, before);
    var saved := d.(room := Some(room));
    OneStage(d, SaveRoom(room));
    StagesAppend(d, before, [[SaveRoom(room)]]);
    TimerStagesKeepData(saved, after);
    StagesAppend(d, before + [[SaveRoom(room)]], after);
  }
}
