/**
  One room, its timers, and the pollers that claim them, write by write. Sections under the room's lock follow each
  other, each until its end, its failure or its crash, while any poller claims, cleans up or forgets entries, and timer
  commands of earlier sections take effect, at any moment. Excluded are a late cancel of a timeout that is needed, and
  two kinds of coincidence: a fire time or a reservation equal to the reserved time of a claim whose handler is done and
  whose clean-up is still to come.
 */
module RoomMachine {
  import opened Names
  import opened RoomModel
  import opened RoomRuns
  import Timers = RoomTimerProtocol

  /** A poller has claimed an entry; `finished` once its handler returned, so that it may clean up. */
  datatype Claim = Claim(kind: Timers.TimerKind, reservedAt: int, finished: bool)

  /** A section under the room's lock; `began` are the documents it found, `done` counts its completed stages. */
  datatype Section = Section(request: Request, claim: Option<nat>, began: Data, done: nat)

  /**
    `lenient` is fixed for a run: the timers whose handlers take a room whose record they cannot read for one that is
    gone, as a read that falls back to local memory makes them do. The other handlers fail when their read fails.
   */
  datatype State = State(
    world: World, section: Option<Section>, claims: map<nat, Claim>, lenient: set<Timers.TimerKind>)
  {
    /** The stages the current section has before it. */
    ghost function Rest(): seq<Stage>
      requires section.Some? && section.value.done <= |PlanOf(section.value.began, section.value.request).stages|
    {
      PlanOf(section.value.began, section.value.request).stages[section.value.done..]
    }
  }

  datatype Event =
    | Begin(request: Request, claim: Option<nat>)
    /** Some writes of the current stage take effect; with `answered` all of them did, and the section goes on. */
    | Write(landed: seq<Landing>, answered: bool)
    /** The section is over; with `valid` its lease still holds and the request returns. */
    | Return(valid: bool)
    | Crash
    /** A schedule that an earlier section had sent, and whose end it did not wait for, takes effect only now. */
    | LateSchedule(kind: Timers.TimerKind, fireAt: int)
    /** The same of a cancel; that of a round timeout takes effect late only while the timeout is not needed. */
    | LateCancel(kind: Timers.TimerKind)
    | ClaimEntry(id: nat, kind: Timers.TimerKind, reservedAt: int)
    | CleanUp(id: nat)
    | Forget(id: nat)
    /** A lenient handler cannot read the record, and its section ends without a write; with `valid` it returns. */
    | MissedRead(id: nat, valid: bool)

  predicate BeingPlayed(d: Data) {
    d.room.Some? && d.room.value.gameStatus.Playing?
  }

  /** The timer whose handler a request is. */
  function KindOf(r: Request): Timers.TimerKind {
    if r.RoundTimeoutFired? then Timers.RoundTimeout else if r.SpeedRevealFired? then Timers.SpeedReveal
    else Timers.SpeedNext
  }

  predicate AllLand(landed: seq<Landing>) {
    forall i :: 0 <= i < |landed| ==> landed[i].Landed?
  }

  /** No claim that is only waiting for its clean-up has this entry reserved at this time. */
  predicate Distinguished(claims: map<nat, Claim>, kind: Timers.TimerKind, at: int) {
    forall id :: id in claims ==> !(claims[id].kind == kind && claims[id].finished && claims[id].reservedAt == at)
  }

  predicate SchedulesDistinguished(claims: map<nat, Claim>, stage: Stage) {
    forall i :: 0 <= i < |stage| ==> stage[i].ScheduleTimer? ==> Distinguished(claims, stage[i].kind, stage[i].fireAt)
  }

  predicate HandlerMayBegin(s: State, r: Request, claim: Option<nat>) {
    && (IsTimer(r) <==> claim.Some?)
    && (claim.Some? ==>
          && claim.value in s.claims && s.claims[claim.value].kind == KindOf(r) && !s.claims[claim.value].finished)
  }

  ghost predicate InSection(s: State) {
    s.section.Some? && s.section.value.done <= |PlanOf(s.section.value.began, s.section.value.request).stages|
  }

  /** The stages save a playing room and have not scheduled its timeout before. */
  predicate SavesUnscheduled(rest: seq<Stage>)
    decreases rest
  {
    rest != []
    && if |rest[0]| != 1 then SavesUnscheduled(rest[1..])
       else if rest[0][0].ScheduleTimer? && rest[0][0].kind.RoundTimeout? then false
       else (rest[0][0].SaveRoom? && rest[0][0].room.gameStatus.Playing?) || SavesUnscheduled(rest[1..])
  }

  /** The room is stored as playing, or the current section may save it so and relies on the timeout as it is. */
  ghost predicate TimeoutNeeded(s: State) {
    BeingPlayed(s.world.data) || (InSection(s) && SavesUnscheduled(s.Rest()))
  }

  ghost predicate Enabled(s: State, e: Event) {
    match e
    case Begin(r, claim) => s.section.None? && Admissible(s.world.data, r) && HandlerMayBegin(s, r, claim)
    case Write(landed, answered) =>
      && InSection(s) && s.Rest() != [] && |landed| == |s.Rest()[0]| && (answered ==> AllLand(landed))
      && SchedulesDistinguished(s.claims, s.Rest()[0])
    case Return(_) => InSection(s) && s.Rest() == []
    case Crash => s.section.Some?
    case LateSchedule(kind, at) => Distinguished(s.claims, kind, at)
    case LateCancel(kind) => kind.RoundTimeout? ==> !TimeoutNeeded(s)
    case ClaimEntry(id, kind, at) => id !in s.claims && kind in s.world.timers && Distinguished(s.claims, kind, at)
    case CleanUp(id) => id in s.claims && s.claims[id].finished
    case Forget(id) => id in s.claims && (s.section.Some? ==> s.section.value.claim != Some(id))
    case MissedRead(id, _) =>
      s.section.None? && id in s.claims && !s.claims[id].finished && s.claims[id].kind in s.lenient
  }

  function PartTimers(timers: map<Timers.TimerKind, int>, stage: Stage, landed: seq<Landing>)
    : map<Timers.TimerKind, int>
    requires |landed| == |stage|
    decreases stage
  {
    if stage == [] then timers
    else PartTimers(if landed[0].Landed? then ExecTimers(timers, stage[0]) else timers, stage[1..], landed[1..])
  }

  /** A section that is over without having returned takes the claim of its handler with it; the entry stays. */
  function Dropped(s: State): map<nat, Claim>
    requires s.section.Some?
  {
    if s.section.value.claim.Some? then s.claims - {s.section.value.claim.value} else s.claims
  }

  ghost function Apply(s: State, e: Event): State
    requires Enabled(s, e)
  {
    match e
    case Begin(r, claim) => s.(section := Some(Section(r, claim, s.world.data, 0)))
    case Write(landed, answered) =>
      var stage := s.Rest()[0];
      var world := World(RunPart(s.world.data, stage, landed), PartTimers(s.world.timers, stage, landed));
      if answered then
        s.(world := world, section := Some(s.section.value.(done := s.section.value.done + 1)))
      else
        s.(world := world, section := None, claims := Dropped(s))
    case Return(valid) =>
      var c := s.section.value;
      if c.claim.Some? && c.claim.value in s.claims && valid && PlanOf(c.began, c.request).refusal.None? then
        s.(section := None, claims := s.claims[c.claim.value := s.claims[c.claim.value].(finished := true)])
      else
        s.(section := None, claims := Dropped(s))
    case Crash => s.(section := None, claims := Dropped(s))
    case LateSchedule(kind, at) => s.(world := s.world.(timers := s.world.timers[kind := at]))
    case LateCancel(kind) => s.(world := s.world.(timers := s.world.timers - {kind}))
    case ClaimEntry(id, kind, at) =>
      s.(world := s.world.(timers := s.world.timers[kind := at]), claims := s.claims[id := Claim(kind, at, false)])
    case CleanUp(id) =>
      var c := s.claims[id];
      var owned := c.kind in s.world.timers && s.world.timers[c.kind] == c.reservedAt;
      s.(world := s.world.(timers := if owned then s.world.timers - {c.kind} else s.world.timers),
         claims := s.claims - {id})
    case Forget(id) => s.(claims := s.claims - {id})
    case MissedRead(id, valid) =>
      s.(claims := if valid then s.claims[id := s.claims[id].(finished := true)] else s.claims - {id})
  }

  ghost predicate Init(s: State) {
    s == State(World(Data(None, None, None, None, None), map[]), None, map[], s.lenient)
  }

  ghost predicate MachineRun(states: seq<State>, events: seq<Event>) {
    && |states| == |events| + 1
    && Init(states[0])
    && forall i :: 0 <= i < |events| ==> Enabled(states[i], events[i]) && states[i + 1] == Apply(states[i], events[i])
  }

  /** The events, one after the other, lead from `s` to `end`. */
  ghost predicate Leads(s: State, events: seq<Event>, end: State)
    decreases events
  {
    if events == [] then end == s else Enabled(s, events[0]) && Leads(Apply(s, events[0]), events[1..], end)
  }

  lemma OneLeads(s: State, e: Event)
    requires Enabled(s, e)
    ensures Leads(s, [e], Apply(s, e))
  {
    assert [e][1..] == [];
  }

  lemma {:induction false} LeadsOn(s: State, a: seq<Event>, middle: State, b: seq<Event>, end: State)
    requires Leads(s, a, middle) && Leads(middle, b, end)
    ensures Leads(s, a + b, end)
    decreases a
  {
    if a == [] {
      assert a + b == b;
    } else {
      LeadsOn(Apply(s, a[0]), a[1..], middle, b, end);
      assert (a + b)[0] == a[0] && (a + b)[1..] == a[1..] + b;
    }
  }

  // ----- the runs of the machine are runs of the room

  /** The documents as the last finished section has left them. */
  function Settled(s: State): Data {
    if s.section.Some? then s.section.value.began else s.world.data
  }

  /** The current section has run its completed stages on the documents it found. */
  ghost predicate Tracks(s: State) {
    s.section.Some? ==>
      && InSection(s) && Admissible(s.section.value.began, s.section.value.request)
      && s.world.data
      == RunStages(s.section.value.began,
        PlanOf(s.section.value.began, s.section.value.request).stages[..s.section.value.done])
  }

  lemma {:induction false} WholePart(d: Data, stage: Stage, landed: seq<Landing>)
    requires |landed| == |stage| && AllLand(landed)
    ensures RunPart(d, stage, landed) == RunStage(d, stage)
    decreases stage
  {
    if stage != [] {
      WholePart(ExecData(d, stage[0]), stage[1..], landed[1..]);
    }
  }

  lemma {:induction false} OneMoreStage(d: Data, stages: seq<Stage>, n: nat)
    requires n < |stages|
    ensures RunStages(d, stages[..n + 1]) == RunStage(RunStages(d, stages[..n]), stages[n])
    decreases n
  {
    if n == 0 {
      assert stages[..1] == [stages[0]] && [stages[0]][1..] == [];
    } else {
      OneMoreStage(RunStage(d, stages[0]), stages[1..], n - 1);
      assert stages[..n + 1][1..] == stages[1..][..n] && stages[..n][1..] == stages[1..][..n - 1];
    }
  }

  /** What the remaining stages do after the completed ones is what the stages do. */
  lemma {:induction false} RanFromThere(d: Data, stages: seq<Stage>, n: nat, d': Data, complete: bool)
    requires n <= |stages| && Ran(RunStages(d, stages[..n]), stages[n..], d', complete)
    ensures Ran(d, stages, d', complete)
    decreases n
  {
    if n == 0 {
      assert stages[..0] == [] && stages[0..] == stages;
    } else {
      assert stages[..n][1..] == stages[1..][..n - 1] && stages[n..] == stages[1..][n - 1..];
      RanFromThere(RunStage(d, stages[0]), stages[1..], n - 1, d', complete);
    }
  }

  /** The end of a section, if the event is one: the request and whether it was complete. */
  ghost predicate Ends(s: State, e: Event) {
    s.section.Some? && (e.Return? || e.Crash? || (e.Write? && !e.answered))
  }

  ghost function StepOf(s: State, e: Event): Step
    requires Ends(s, e)
  {
    Step(s.section.value.request, e.Return?)
  }

  lemma BeginTracks(s: State, e: Event)
    requires Enabled(s, e) && e.Begin?
    ensures Tracks(Apply(s, e)) && Settled(Apply(s, e)) == Settled(s)
  {
    assert PlanOf(s.world.data, e.request).stages[..0] == [];
  }

  lemma WriteTracks(s: State, e: Event)
    requires Enabled(s, e) && Tracks(s) && e.Write? && e.answered
    ensures Tracks(Apply(s, e)) && Settled(Apply(s, e)) == Settled(s)
  {
    var c := s.section.value;
    WholePart(s.world.data, s.Rest()[0], e.landed);
    OneMoreStage(c.began, PlanOf(c.began, c.request).stages, c.done);
  }

  /** A section ends in a step of the room, complete only if it returns. */
  lemma EndIsStep(s: State, e: Event)
    requires Enabled(s, e) && Tracks(s) && Ends(s, e)
    ensures Tracks(Apply(s, e)) && StepsTo(Settled(s), StepOf(s, e), Settled(Apply(s, e)))
  {
    var c := s.section.value;
    var stages := PlanOf(c.began, c.request).stages;
    if e.Return? {
      RanFromThere(c.began, stages, c.done, s.world.data, true);
    } else if e.Write? {
      assert Ran(s.world.data, s.Rest(), RunPart(s.world.data, s.Rest()[0], e.landed), false);
      RanFromThere(c.began, stages, c.done, RunPart(s.world.data, s.Rest()[0], e.landed), false);
    } else if s.Rest() != [] {
      NothingLands(s.world.data, s.Rest()[0]);
      assert Ran(s.world.data, s.Rest(), s.world.data, false);
      RanFromThere(c.began, stages, c.done, s.world.data, false);
    } else {
      RanFromThere(c.began, stages, c.done, s.world.data, false);
    }
  }

  lemma NothingLands(d: Data, stage: Stage)
    ensures exists landed: seq<Landing> :: |landed| == |stage| && d == RunPart(d, stage, landed)
  {
    var landed := seq(|stage|, _ => Missed);
    NoneLanded(d, stage, landed);
  }

  lemma {:induction false} NoneLanded(d: Data, stage: Stage, landed: seq<Landing>)
    requires |landed| == |stage| && forall i :: 0 <= i < |landed| ==> landed[i].Missed?
    ensures RunPart(d, stage, landed) == d
    decreases stage
  {
    if stage != [] {
      NoneLanded(d, stage[1..], landed[1..]);
    }
  }
}
