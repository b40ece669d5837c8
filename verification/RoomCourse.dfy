/** The course of a game: which rounds are played, in which order, and when the game is over. */
module RoomCourse {
  import opened Names
  import opened RoomModel
  import opened RoomInvariants
  import opened RoomRequests
  import opened RoomRuns
  import opened RoomCommits
  import opened RoomRetry

  predicate InGame(d: Data) {
    d.room.Some? && d.room.value.currentRound.Some?
  }

  /** The stored data of the round that is on. */
  function CurrentSong(d: Data): Option<RoundData> {
    if InGame(d) && OrderStored(d, d.room.value.currentRound.value)
       && d.room.value.currentRound.value.roundIndex < |d.songOrder.value| then
      Some(SongAt(d, d.room.value.currentRound.value.roundIndex))
    else
      None
  }

  /** The stored order and snapshot, read together, are this list of rounds. */
  ghost predicate CourseOf(d: Data, course: seq<RoundData>) {
    && d.songOrder.Some? && d.snapshot.Some? && |d.songOrder.value| == |course|
    && forall k :: 0 <= k < |course| ==> d.songOrder.value[k] in d.snapshot.value && SongAt(d, k) == course[k]
  }

  /** A room in a game is playing the course, and an ended round shows the titles of its place in it. */
  ghost predicate OnCourse(d: Data, course: seq<RoundData>) {
    InGame(d) ==>
      var round := d.room.value.currentRound.value;
      && round.totalRounds == |course| && round.roundIndex < |course|
      && (OrderStored(d, round) ==> CourseOf(d, course))
      && (d.room.value.gameStatus.RoundEnded? ==> round.title == Some(course[round.roundIndex].Titles()))
  }

  /** A step saved a new round. */
  predicate EntersRound(d: Data, d': Data) {
    d.room.Some? && d'.room.Some? && (Starts(d.room.value, d'.room.value) || Advances(d.room.value, d'.room.value))
  }

  /** The rounds entered by the steps `i` to `j`, as they were stored at that moment. */
  ghost function Played(states: seq<Data>, i: nat, j: nat): seq<Option<RoundData>>
    requires j < |states|
  {
    if j <= i then []
    else Played(states, i, j - 1) + if EntersRound(states[j - 1], states[j]) then [CurrentSong(states[j])] else []
  }

  /** Step `i` starts a game, and up to the state `j` the room is neither deleted nor starts another one. */
  ghost predicate OneGame(states: seq<Data>, i: nat, j: nat) {
    && i < j < |states|
    && states[i].room.Some? && states[i + 1].room.Some? && Starts(states[i].room.value, states[i + 1].room.value)
    && (forall k :: i < k <= j ==> states[k].room.Some?)
    && (forall k :: i < k < j ==> !Starts(states[k].room.value, states[k + 1].room.value))
  }

  /** What was played so far is exactly the course up to the current round, or all of it once the game is over. */
  ghost predicate PlayedSoFar(d: Data, course: seq<RoundData>, played: seq<Option<RoundData>>) {
    && |played| == (if InGame(d) then d.room.value.currentRound.value.roundIndex + 1 else |course|)
    && |played| <= |course|
    && (forall k :: 0 <= k < |played| ==> played[k] == Some(course[k]))
    && (d.room.Some? && d.room.value.currentRound.None? ==> d.room.value.gameStatus.Finished?)
  }

  // ----- one step

  /** A step that ends a round found the order still stored. */
  lemma EndedRoundShowsTitles(d: Data, step: Step, d': Data)
    requires GoodData(d) && StepsTo(d, step, d') && GoodData(d') && InGame(d) && InGame(d') && d'.room != d.room
    requires !d.room.value.gameStatus.RoundEnded? && d'.room.value.gameStatus.RoundEnded?
    ensures d'.songOrder == d.songOrder && d'.snapshot == d.snapshot
  {
    var r := step.request;
    if !ChangesGame(r) && !r.Create? {
      if DeletesRoom(d, r) {
        DeletionShape(r.lost);
        DeletionMoves(d, PlanOf(d, r).stages, d', step.complete);
      } else {
        SimpleRequestMoves(d, r);
        OnlyTheRoomChanges(d, PlanOf(d, r).stages, d', step.complete);
      }
    }
  }

  lemma StaysOnCourse(d: Data, step: Step, d': Data, course: seq<RoundData>)
    requires GoodData(d) && GoodData(d') && StepsTo(d, step, d') && OnCourse(d, course) && InGame(d) && InGame(d')
    requires OrderDropped(d, d') && (d'.room == d.room || StaysInRound(d.room.value, d'.room.value))
    ensures OnCourse(d', course)
  {
    if d'.room != d.room && d'.room.value.gameStatus.RoundEnded? && !d.room.value.gameStatus.RoundEnded? {
      EndedRoundShowsTitles(d, step, d');
    }
  }

  lemma AdvancesOnCourse(d: Data, d': Data, course: seq<RoundData>)
    requires GoodData(d) && GoodData(d') && OnCourse(d, course) && InGame(d) && InGame(d')
    requires OrderDropped(d, d') && Advances(d.room.value, d'.room.value)
    ensures OnCourse(d', course)
    ensures CurrentSong(d') == Some(course[d.room.value.currentRound.value.roundIndex + 1])
  {
    assert OrderStored(d', d'.room.value.currentRound.value);
    assert OrderStored(d, d.room.value.currentRound.value);
  }

  lemma MovesWhileThere(d: Data, step: Step, d': Data)
    requires GoodData(d) && StepsTo(d, step, d') && d.room.Some? && d'.room.Some?
    ensures d'.room == d.room || Moves(d.room.value, d'.room.value)
  {
    StepMoves(d, step, d');
  }

  /** A move that keeps the room on its course extends the list of played rounds by the round it enters, if any. */
  lemma MoveExtendsPlayed(d: Data, d': Data, course: seq<RoundData>, played: seq<Option<RoundData>>)
    requires d.room.Some? && d'.room.Some? && (d'.room == d.room || Moves(d.room.value, d'.room.value))
    requires !Starts(d.room.value, d'.room.value)
    requires OnCourse(d, course) && OnCourse(d', course) && PlayedSoFar(d, course, played)
    requires Advances(d.room.value, d'.room.value) ==>
      InGame(d) && d.room.value.currentRound.value.roundIndex + 1 < |course|
      && CurrentSong(d') == Some(course[d.room.value.currentRound.value.roundIndex + 1])
    ensures PlayedSoFar(d', course, played + if EntersRound(d, d') then [CurrentSong(d')] else [])
  {
  }

  /** One step of a game: the list of played rounds keeps being the course up to the current round. */
  lemma StepKeepsCourse(d: Data, step: Step, d': Data, course: seq<RoundData>, played: seq<Option<RoundData>>)
    requires GoodData(d) && GoodData(d') && StepsTo(d, step, d') && d.room.Some? && d'.room.Some?
    requires OnCourse(d, course) && PlayedSoFar(d, course, played)
    requires !Starts(d.room.value, d'.room.value)
    ensures OnCourse(d', course)
    ensures PlayedSoFar(d', course, played + if EntersRound(d, d') then [CurrentSong(d')] else [])
  {
    MovesWhileThere(d, step, d');
    if InGame(d) && InGame(d') {
      GameStepDropsOrder(d, step, d');
      if Advances(d.room.value, d'.room.value) {
        AdvancesOnCourse(d, d', course);
      } else {
        StaysOnCourse(d, step, d', course);
      }
    }
    MoveExtendsPlayed(d, d', course, played);
  }

  lemma GameStepDropsOrder(d: Data, step: Step, d': Data)
    requires GoodData(d) && StepsTo(d, step, d') && InGame(d) && d'.room.Some?
    ensures OrderDropped(d, d')
  {
    if DeletesRoom(d, step.request) {
      DeletionShape(step.request.lost);
      DeletionMoves(d, PlanOf(d, step.request).stages, d', step.complete);
    } else {
      GameKeepsOrder(d, step, d');
    }
  }

  // ----- the whole game

  lemma FirstRoundEntered(states: seq<Data>, steps: seq<Step>, i: nat, course: seq<RoundData>)
    requires Run(states, steps) && OneGame(states, i, i + 1) && CourseOf(states[i + 1], course)
    ensures OnCourse(states[i + 1], course) && PlayedSoFar(states[i + 1], course, Played(states, i, i + 1))
  {
    RunIsGood(states, steps, i + 1);
    assert Played(states, i, i) == [];
    assert Played(states, i, i + 1) == [CurrentSong(states[i + 1])];
  }

  lemma StepOfRunKeepsCourse(states: seq<Data>, steps: seq<Step>, k: nat, course: seq<RoundData>,
    played: seq<Option<RoundData>>)
    requires Run(states, steps) && k < |steps|
    requires states[k].room.Some? && states[k + 1].room.Some? && !Starts(states[k].room.value, states[k + 1].room.value)
    requires OnCourse(states[k], course) && PlayedSoFar(states[k], course, played)
    ensures OnCourse(states[k + 1], course)
    ensures PlayedSoFar(states[k + 1], course,
      played + if EntersRound(states[k], states[k + 1]) then [CurrentSong(states[k + 1])] else [])
  {
    RunIsGood(states, steps, k);
    RunIsGood(states, steps, k + 1);
    assert StepAt(states, steps, k);
    StepKeepsCourse(states[k], steps[k], states[k + 1], course, played);
  }

  lemma NextStepOfGame(states: seq<Data>, steps: seq<Step>, i: nat, j: nat, course: seq<RoundData>)
    requires Run(states, steps) && i + 1 < j < |states|
    requires states[j - 1].room.Some? && states[j].room.Some? && !Starts(states[j - 1].room.value, states[j].room.value)
    requires OnCourse(states[j - 1], course) && PlayedSoFar(states[j - 1], course, Played(states, i, j - 1))
    ensures OnCourse(states[j], course) && PlayedSoFar(states[j], course, Played(states, i, j))
  {
    StepOfRunKeepsCourse(states, steps, j - 1, course, Played(states, i, j - 1));
  }

  /**
    Over every run, whoever joins, leaves, answers, skips or retries, and whatever fails: the rounds played since the
    start of a game are the course of that game in its order, each once, up to the current round; and the game is
    finished exactly when all of them have been played.
   */
  lemma {:induction false} GamePlaysItsCourse(states: seq<Data>, steps: seq<Step>, i: nat, j: nat,
    course: seq<RoundData>)
    requires Run(states, steps) && OneGame(states, i, j) && CourseOf(states[i + 1], course)
    ensures OnCourse(states[j], course) && PlayedSoFar(states[j], course, Played(states, i, j))
    decreases j
  {
    if j == i + 1 {
      FirstRoundEntered(states, steps, i, course);
    } else {
      GamePlaysItsCourse(states, steps, i, j - 1, course);
      NextStepOfGame(states, steps, i, j, course);
    }
  }

  // ----- the choice of the course

  predicate DistinctSongs(rounds: seq<RoundData>) {
    forall i, j :: 0 <= i < j < |rounds| ==> rounds[i].quizSongId != rounds[j].quizSongId
  }

  /** With distinct songs the snapshot gives every song of the selection back. */
  lemma SelectionIsCourse(d: Data, selected: seq<RoundData>)
    requires DistinctSongs(selected) && d.songOrder == Some(SongIds(selected))
      && d.snapshot == Some(SnapshotOf(selected))
    ensures CourseOf(d, selected)
  {
    forall k | 0 <= k < |selected|
      ensures SongIds(selected)[k] in SnapshotOf(selected) && SnapshotOf(selected)[SongIds(selected)[k]] == selected[k]
    {
      var id := selected[k].quizSongId;
      assert id in SnapshotOf(selected);
      var m :| 0 <= m < |selected| && selected[m] == SnapshotOf(selected)[id];
      assert m == k;
    }
  }

  lemma TwiceIsTwo(rounds: seq<RoundData>, i: nat, j: nat)
    requires i < j < |rounds| && rounds[i] == rounds[j]
    ensures multiset(rounds)[rounds[i]] >= 2
  {
    assert rounds == rounds[..j] + rounds[j..];
    assert rounds[..j][i] == rounds[i] && rounds[j..][0] == rounds[j];
    assert multiset(rounds) == multiset(rounds[..j]) + multiset(rounds[j..]);
    assert rounds[i] in multiset(rounds[..j]) && rounds[i] in multiset(rounds[j..]);
  }

  lemma {:induction false} OnceIsOne(rounds: seq<RoundData>, x: RoundData)
    requires DistinctSongs(rounds)
    ensures multiset(rounds)[x] <= 1
  {
    if rounds != [] {
      var n := |rounds| - 1;
      OnceIsOne(rounds[..n], x);
      assert rounds == rounds[..n] + [rounds[n]];
      assert rounds[n] == x ==> x !in rounds[..n];
    }
  }

  lemma PermutationStaysDistinct(all: seq<RoundData>, shuffled: seq<RoundData>)
    requires DistinctSongs(all) && multiset(shuffled) == multiset(all)
    ensures DistinctSongs(shuffled) && |shuffled| == |all|
  {
    assert |multiset(shuffled)| == |multiset(all)|;
    forall i, j | 0 <= i < j < |shuffled| ensures shuffled[i].quizSongId != shuffled[j].quizSongId {
      assert shuffled[i] in multiset(all) && shuffled[j] in multiset(all);
      assert shuffled[i] in all && shuffled[j] in all;
      if shuffled[i] == shuffled[j] {
        TwiceIsTwo(shuffled, i, j);
        OnceIsOne(all, shuffled[i]);
      }
    }
  }

  /** The order in which a request starts to play the rounds of the quiz: as they come, or shuffled. */
  function OrderedRounds(room: Room, r: Request): seq<RoundData>
    requires (r.Start? || r.Restart?) && r.rounds.Some?
  {
    if room.isRandom then r.shuffled else r.rounds.value
  }

  lemma OnlyStartsStart(d: Data, step: Step, d': Data)
    requires GoodData(d) && StepsTo(d, step, d') && d.room.Some? && d'.room.Some? && Starts(d.room.value, d'.room.value)
    ensures step.request.Start? || step.request.Restart?
  {
    var r := step.request;
    var stages := PlanOf(d, r).stages;
    if !r.Create? && !r.Start? && !r.Restart? {
      if DeletesRoom(d, r) {
        DeletionShape(r.lost);
        DeletionMoves(d, stages, d', step.complete);
      } else if !ChangesGame(r) {
        SimpleRequestMoves(d, r);
        CommitPoint(d, stages, d', step.complete);
      }
    }
  }

  lemma DistinctSelection(d: Data, all: seq<RoundData>, ordered: seq<RoundData>, limit: nat)
    requires DistinctSongs(all) && multiset(ordered) == multiset(all)
    requires d.songOrder == Some(SongIds(Take(ordered, limit))) && d.snapshot == Some(SnapshotOf(Take(ordered, limit)))
    ensures DistinctSongs(ordered) && |ordered| == |all|
    ensures CourseOf(d, ordered[..if limit < |all| then limit else |all|])
  {
    PermutationStaysDistinct(all, ordered);
    assert Take(ordered, limit) == ordered[..if limit < |all| then limit else |all|];
    SelectionIsCourse(d, Take(ordered, limit));
  }

  /** The documents of a game that has just started. */
  lemma StartStores(d: Data, step: Step, d': Data)
    requires GoodData(d) && StepsTo(d, step, d') && d.room.Some? && d'.room.Some? && Starts(d.room.value, d'.room.value)
    ensures step.request.Start? || step.request.Restart?
    ensures step.request.rounds.Some? && d.room.value.songLimit >= 1
    ensures var selected := Take(OrderedRounds(d.room.value, step.request), d.room.value.songLimit);
      d'.songOrder == Some(SongIds(selected)) && d'.snapshot == Some(SnapshotOf(selected))
  {
    var r := step.request;
    OnlyStartsStart(d, step, d');
    StepMoves(d, step, d');
    var room := if r.Start? then d.room.value else d.room.value.(participants := ZeroScores(d.room.value.participants));
    StartSaves(d, room, r, d');
    GameStagesResult(d, room, Take(OrderedRounds(d.room.value, r), room.songLimit));
  }

  /**
    For a quiz with distinct songs, a game that starts has as its course the first `songLimit` rounds of the quiz, or
    all of them if there are fewer, in the drawn order: a duplicate-free part of a permutation.
   */
  lemma StartChoosesCourse(d: Data, step: Step, d': Data)
    requires GoodData(d) && StepsTo(d, step, d') && d.room.Some? && d'.room.Some? && Starts(d.room.value, d'.room.value)
    ensures step.request.Start? || step.request.Restart?
    ensures step.request.rounds.Some? && d.room.value.songLimit >= 1
    ensures var all, limit := step.request.rounds.value, d.room.value.songLimit;
      var ordered := OrderedRounds(d.room.value, step.request);
      DistinctSongs(all) ==>
        && DistinctSongs(ordered) && |ordered| == |all| && multiset(ordered) == multiset(all)
        && CourseOf(d', ordered[..if limit < |all| then limit else |all|])
  {
    StartStores(d, step, d');
    var all := step.request.rounds.value;
    if DistinctSongs(all) {
      DistinctSelection(d', all, OrderedRounds(d.room.value, step.request), d.room.value.songLimit);
    }
  }

  /** A start that takes effect found rounds and selected at least one of them. */
  lemma StartSaves(d: Data, room: Room, r: Request, d': Data)
    requires d.room.Some? && d'.room.Some? && d'.room != d.room && d' == RunStages(d, PlanOf(d, r).stages)
    requires r.Start? || r.Restart?
    requires room == if r.Start? then d.room.value
      else d.room.value.(participants := ZeroScores(d.room.value.participants))
    ensures r.rounds.Some? && Take(OrderedRounds(d.room.value, r), room.songLimit) != []
    ensures PlanOf(d, r).stages == GameStages(room, Take(OrderedRounds(d.room.value, r), room.songLimit))
  {
    assert PlanOf(d, r).stages == StartGame(room, r.rounds, r.shuffled).stages;
    if r.rounds.Some? && r.rounds.value != [] {
      StoreKeepsRoom(d, Take(OrderedRounds(d.room.value, r), room.songLimit));
    }
  }

  lemma StoreKeepsRoom(d: Data, selected: seq<RoundData>)
    ensures RunStages(d, [StoreGame(selected)]).room == d.room
  {
    StageKeepsRoom(d, StoreGame(selected));
    assert [StoreGame(selected)][1..] == [];
  }
}
