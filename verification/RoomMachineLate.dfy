/** Exactly when a cancel of the round timeout that takes effect late leaves a round without one. */
module RoomMachineLate {
  import opened Names
  import opened RoomModel
  import opened RoomInvariants
  import opened RoomMachine
  import opened RoomMachineSafety
  import opened RoomMachineRuns
  import Timers = RoomTimerProtocol

  /** A round that is stored as being played has no timeout that would end it. */
  ghost predicate Stranded(s: State) {
    BeingPlayed(s.world.data) && Timers.RoundTimeout !in s.world.timers
  }

  /** The state after the cancel. */
  function Cancelled(s: State): State {
    s.(world := s.world.(timers := s.world.timers - {Timers.RoundTimeout}))
  }

  lemma {:induction false} LeadsKeepsInv(s: State, events: seq<Event>, end: State)
    requires Inv(s) && Leads(s, events, end)
    ensures Inv(end) && end.lenient == s.lenient
    decreases events
  {
    if events != [] {
      StepKeepsInv(s, events[0]);
      LeadsKeepsInv(Apply(s, events[0]), events[1..], end);
    }
  }

  // ----- how a needed timeout is missed

  /** The section's own claim, if it is a handler's, is not finished. */
  predicate OwnClaimOpen(s: State) {
    s.section.Some? && s.section.value.claim.Some? && s.section.value.claim.value in s.claims ==>
      !s.claims[s.section.value.claim.value].finished
  }

  /** The pollers whose handlers are done forget their claims. */
  lemma {:induction false} PollersForget(s: State) returns (events: seq<Event>, end: State)
    requires OwnClaimOpen(s)
    ensures Leads(s, events, end) && NoCreation(events) && end == s.(claims := end.claims)
    ensures forall id :: id in end.claims ==> !end.claims[id].finished
    decreases |s.claims|
  {
    if id :| id in s.claims && s.claims[id].finished {
      var next := Apply(s, Forget(id));
      assert next.claims.Keys == s.claims.Keys - {id};
      var rest, last := PollersForget(next);
      OneLeads(s, Forget(id));
      LeadsOn(s, [Forget(id)], next, rest, last);
      events, end := [Forget(id)] + rest, last;
    } else {
      events, end := [], s;
    }
  }

  /** All writes of the current stage take effect. */
  lemma StageDone(s: State, secure: bool, handler: bool) returns (e: Event)
    requires InSection(s) && s.Rest() != [] && Timers.RoundTimeout !in s.world.timers
    requires forall id :: id in s.claims ==> !s.claims[id].finished
    requires SafeRest(BeingPlayed(s.world.data), secure, s.Rest(), handler)
    requires |s.Rest()[0]| == 1 ==> !(s.Rest()[0][0].ScheduleTimer? && s.Rest()[0][0].kind.RoundTimeout?)
    ensures Enabled(s, e) && InSection(Apply(s, e)) && Apply(s, e).Rest() == s.Rest()[1..]
      && Apply(s, e).claims == s.claims
    ensures Timers.RoundTimeout !in Apply(s, e).world.timers
    ensures BeingPlayed(Apply(s, e).world.data)
         == if |s.Rest()[0]| == 1 then PlayingAfter(BeingPlayed(s.world.data), s.Rest()[0][0])
           else BeingPlayed(s.world.data)
  {
    var stage := s.Rest()[0];
    var landed: seq<Landing> := seq(|stage|, _ => Landed);
    e := Write(landed, true);
    if |stage| == 1 {
      SinglePart(s.world, stage, landed);
    } else {
      NeutralPart(s.world, stage, landed);
    }
  }

  /** Without its timeout, the section goes on until it saves the playing room. */
  lemma {:induction false} SaveWithoutTimeout(s: State, secure: bool, handler: bool)
    returns (events: seq<Event>, end: State)
    requires InSection(s) && SavesUnscheduled(s.Rest()) && Timers.RoundTimeout !in s.world.timers
    requires forall id :: id in s.claims ==> !s.claims[id].finished
    requires SafeRest(BeingPlayed(s.world.data), secure, s.Rest(), handler)
    ensures Leads(s, events, end) && Stranded(end)
    decreases s.Rest()
  {
    var e := StageDone(s, secure, handler);
    var next := Apply(s, e);
    OneLeads(s, e);
    if BeingPlayed(next.world.data) {
      events, end := [e], next;
    } else {
      var after := if |s.Rest()[0]| == 1 then SecureAfter(secure, s.Rest()[0][0]) else secure;
      var more, last := SaveWithoutTimeout(next, after, handler);
      LeadsOn(s, [e], next, more, last);
      events, end := [e] + more, last;
    }
  }

  ghost predicate Strands(s: State, events: seq<Event>, end: State) {
    Leads(s, events, end) && Stranded(end)
  }

  lemma NeededIsMissed(s: State) returns (events: seq<Event>, end: State)
    requires Inv(s) && Strict(s) && TimeoutNeeded(s)
    ensures Strands(Cancelled(s), events, end)
  {
    if BeingPlayed(s.world.data) {
      events, end := [], Cancelled(s);
    } else {
      var forgotten, middle := PollersForget(Cancelled(s));
      assert middle.Rest() == s.Rest();
      var more, last := SaveWithoutTimeout(middle, Secure(s), OwnHandler(s.section.value));
      LeadsOn(Cancelled(s), forgotten, middle, more, last);
      events, end := forgotten + more, last;
    }
  }

  /**
    With strict reads, in every state of every run: after a cancel of the round timeout that takes effect there, a round
    can come to be played without a timeout if and only if the room is stored as playing at that moment, or the section
    at work may save it as playing without scheduling the timeout anew.
   */
  lemma LateCancelStrandsIff(states: seq<State>, events: seq<Event>, i: nat)
    requires MachineRun(states, events) && i < |states| && Strict(states[i])
    ensures TimeoutNeeded(states[i]) <==>
      exists after: seq<Event>, end: State :: Strands(Cancelled(states[i]), after, end)
  {
    RunKeepsInv(states, events, i);
    if TimeoutNeeded(states[i]) {
      var after, end := NeededIsMissed(states[i]);
      assert Strands(Cancelled(states[i]), after, end);
    } else {
      StepKeepsInv(states[i], LateCancel(Timers.RoundTimeout));
      forall after: seq<Event>, end: State | Leads(Cancelled(states[i]), after, end)
        ensures !Strands(Cancelled(states[i]), after, end)
      {
        LeadsKeepsInv(Cancelled(states[i]), after, end);
      }
    }
  }

  // ----- a run that strands its round

  predicate NoMissedRead(events: seq<Event>) {
    forall e :: e in events ==> !e.MissedRead?
  }

  predicate NoCreation(events: seq<Event>) {
    forall e :: e in events ==> !(e.Begin? && e.request.Create?)
  }

  /** A section without claims around it serves its request to the end. */
  lemma {:induction false} SectionServed(s: State) returns (events: seq<Event>, end: State)
    requires InSection(s) && s.claims == map[] && s.section.value.claim.None?
    ensures Leads(s, events, end) && NoMissedRead(events) && NoCreation(events)
    ensures end.section.None? && end.claims == map[]
    ensures end.world.data == RunStages(s.world.data, s.Rest())
    decreases |s.Rest()|
  {
    if s.Rest() == [] {
      OneLeads(s, Return(true));
      events, end := [Return(true)], Apply(s, Return(true));
    } else {
      var landed: seq<Landing> := seq(|s.Rest()[0]|, _ => Landed);
      var next := Apply(s, Write(landed, true));
      WholePart(s.world.data, s.Rest()[0], landed);
      assert next.Rest() == s.Rest()[1..];
      OneLeads(s, Write(landed, true));
      var rest, last := SectionServed(next);
      LeadsOn(s, [Write(landed, true)], next, rest, last);
      events, end := [Write(landed, true)] + rest, last;
    }
  }

  lemma RequestServed(s: State, r: Request) returns (events: seq<Event>, end: State)
    requires s.section.None? && s.claims == map[] && Admissible(s.world.data, r) && !IsTimer(r)
    ensures Leads(s, events, end) && NoMissedRead(events) && (!r.Create? ==> NoCreation(events))
    ensures end.section.None? && end.claims == map[]
    ensures end.world.data == RunStages(s.world.data, PlanOf(s.world.data, r).stages)
  {
    var begun := Apply(s, Begin(r, None));
    var stages := PlanOf(s.world.data, r).stages;
    assert begun.Rest() == stages[0..] == stages;
    OneLeads(s, Begin(r, None));
    var rest, last := SectionServed(begun);
    LeadsOn(s, [Begin(r, None)], begun, rest, last);
    events, end := [Begin(r, None)] + rest, last;
  }

  function FirstRoom(status: Status, round: Option<Round>): Room {
    Room(0, [Participant(0, 0)], 1, 2, 1, false, false, false, status, round)
  }

  function FirstRequest(): Request {
    Create(0, 2, 1, 1, false, false, false, false)
  }

  function FirstRound(ready: seq<UserId>, at: Option<int>): Round {
    Round(0, 1, ready, [], [], None, None, None, at, false, None)
  }

  /** Stages before the last one leave it to the last to save the room. */
  lemma {:induction false} LastSaves(d: Data, stages: seq<Stage>, room: Room)
    ensures RunStages(d, stages + [[SaveRoom(room)]]).room == Some(room)
    decreases stages
  {
    var all := stages + [[SaveRoom(room)]];
    if stages == [] {
      assert all[0] == [SaveRoom(room)] && all[1..] == [];
      OneWriteStage(d, SaveRoom(room));
    } else {
      assert all[0] == stages[0] && all[1..] == stages[1..] + [[SaveRoom(room)]];
      LastSaves(RunStage(d, stages[0]), stages[1..], room);
    }
  }

  /** The user 0 creates a room for one song, starts the game, and is ready. */
  lemma RoomSaved(d: Data)
    requires d.room.None?
    ensures var r := FirstRequest();
      Admissible(d, r) && RunStages(d, PlanOf(d, r).stages).room == Some(FirstRoom(Waiting, None))
  {
    LastSaves(d, [], FirstRoom(Waiting, None));
    assert [] + [[SaveRoom(FirstRoom(Waiting, None))]] == [[SaveRoom(FirstRoom(Waiting, None))]];
  }

  lemma GameStarted(d: Data, song: RoundData)
    requires d.room == Some(FirstRoom(Waiting, None))
    ensures var r := Start(0, Some([song]), [song]);
      Admissible(d, r) && RunStages(d, PlanOf(d, r).stages).room == Some(FirstRoom(Loading, Some(FirstRound([], None))))
  {
    var room := FirstRoom(Loading, Some(FirstRound([], None)));
    var stages: seq<Stage> := [StoreGame([song]), [SetAnswers(song.answers)], [SetReveal(song.Titles())]];
    assert Take([song], 1) == [song];
    assert SnapshotOf([song])[song.quizSongId] == song;
    assert PlanOf(d, Start(0, Some([song]), [song])).stages == stages + [[SaveRoom(room)]];
    LastSaves(d, stages, room);
  }

  lemma RoundBegun(d: Data)
    requires d.room == Some(FirstRoom(Loading, Some(FirstRound([], None))))
    ensures BeingPlayed(RunStages(d, PlanOf(d, MarkReady(0, 0)).stages))
  {
    var room := FirstRoom(Playing, Some(FirstRound([0], Some(PLAY_SCHEDULE_DELAY_MS))));
    var timer := ScheduleTimer(Timers.RoundTimeout, ROUND_TIME_LIMIT_MS + PLAY_SCHEDULE_DELAY_MS);
    assert [] + [0] == [0];
    assert PlanOf(d, MarkReady(0, 0)).stages == [[timer]] + [[SaveRoom(room)]];
    LastSaves(d, [[timer]], room);
  }

  lemma {:induction false} LeadsIsRun(s: State, events: seq<Event>, end: State) returns (states: seq<State>)
    requires Leads(s, events, end)
    ensures |states| == |events| + 1 && states[0] == s && states[|events|] == end
    ensures forall i :: 0 <= i < |events| ==>
      Enabled(states[i], events[i]) && states[i + 1] == Apply(states[i], events[i])
    decreases events
  {
    if events == [] {
      states := [s];
    } else {
      var rest := LeadsIsRun(Apply(s, events[0]), events[1..], end);
      states := [s] + rest;
      forall i | 0 <= i < |events|
        ensures Enabled(states[i], events[i]) && states[i + 1] == Apply(states[i], events[i])
      {
        if i > 0 {
          assert states[i] == rest[i - 1] && states[i + 1] == rest[i] && events[i] == events[1..][i - 1];
        }
      }
    }
  }

  /** Nothing is under way, and the room is stored like this. */
  predicate Idle(s: State, room: Option<Room>) {
    s.section.None? && s.claims == map[] && s.world.data.room == room
  }

  lemma RoomReached(s: State) returns (events: seq<Event>, end: State)
    requires Idle(s, None)
    ensures Leads(s, events, end) && NoMissedRead(events) && Idle(end, Some(FirstRoom(Waiting, None)))
  {
    RoomSaved(s.world.data);
    events, end := RequestServed(s, FirstRequest());
  }

  lemma GameReachedFrom(s: State) returns (events: seq<Event>, end: State)
    requires Idle(s, Some(FirstRoom(Waiting, None)))
    ensures Leads(s, events, end) && NoMissedRead(events) && NoCreation(events)
    ensures Idle(end, Some(FirstRoom(Loading, Some(FirstRound([], None)))))
  {
    var song := RoundData(0, [], "", "", "");
    GameStarted(s.world.data, song);
    events, end := RequestServed(s, Start(0, Some([song]), [song]));
  }

  lemma RoundReached(s: State) returns (events: seq<Event>, end: State)
    requires Idle(s, Some(FirstRoom(Loading, Some(FirstRound([], None)))))
    ensures Leads(s, events, end) && NoMissedRead(events) && NoCreation(events) && BeingPlayed(end.world.data)
    ensures end.section.None? && end.claims == map[]
  {
    RoundBegun(s.world.data);
    events, end := RequestServed(s, MarkReady(0, 0));
  }

  function Empty(lenient: set<Timers.TimerKind>): State {
    State(World(Data(None, None, None, None, None), map[]), None, map[], lenient)
  }

  /** From the saved room to the round that is played. */
  lemma RoundReachedFrom(s: State) returns (events: seq<Event>, end: State)
    requires Idle(s, Some(FirstRoom(Waiting, None)))
    ensures Leads(s, events, end) && NoMissedRead(events) && NoCreation(events)
    ensures BeingPlayed(end.world.data) && end.section.None? && end.claims == map[]
  {
    var e1, s1 := GameReachedFrom(s);
    var e2, s2 := RoundReached(s1);
    LeadsOn(s, e1, s1, e2, s2);
    events, end := e1 + e2, s2;
  }

  /** A game of one song is started and its round is played, with its timeout and nothing else under way. */
  lemma RoundIsPlayed() returns (events: seq<Event>, end: State)
    ensures Leads(Empty({}), events, end) && NoMissedRead(events)
    ensures BeingPlayed(end.world.data) && Timers.RoundTimeout in end.world.timers
    ensures end.section.None? && end.claims == map[] && Strict(end)
  {
    var e1, s1 := RoomReached(Empty({}));
    var e2, s2 := RoundReachedFrom(s1);
    LeadsOn(Empty({}), e1, s1, e2, s2);
    events, end := e1 + e2, s2;
    var states := LeadsIsRun(Empty({}), events, end);
    RunIsLenient(states, events, |events|);
    NoStuckRound(states, events, |events|);
  }

  /** How handlers read is fixed for a run. */
  lemma {:induction false} RunIsLenient(states: seq<State>, events: seq<Event>, i: nat)
    requires MachineRun(states, events) && i < |states|
    ensures states[i].lenient == states[0].lenient
  {
    if i > 0 {
      RunIsLenient(states, events, i - 1);
    }
  }

  /** The input that strands a round: it is played, and then a late cancel takes effect. */
  lemma RoundIsStranded() returns (states: seq<State>, events: seq<Event>)
    ensures MachineRun(states, events) && Strict(states[|events|]) && Stranded(Cancelled(states[|events|]))
  {
    var end;
    events, end := RoundIsPlayed();
    states := LeadsIsRun(Empty({}), events, end);
  }
}
