/**
  The sections of one room without the assumption that they follow each other: any number of them run at once, each
  with the fencing token it was granted, and one that has lost its lock goes on as long as its writes are accepted,
  while its timer commands always are. Tokens are granted and compared as in the fenced store. Whatever happens, the
  documents, the timers and the pollers go through a run of the room machine, in which a section that is overtaken by a
  newer grant is cut short there and its later timer commands are late ones.
 */
module RoomSections {
  import opened Names
  import opened RoomModel
  import opened RoomInvariants
  import opened RoomRuns
  import M = RoomMachine
  import RoomMachineRuns
  import RoomMachineLate
  import RoomMachineReads
  import Timers = RoomTimerProtocol
  import FencedStore

  /**
    A section works by the plan for the documents it was granted: as long as it is the newest, what it reads is those
    and its own writes, and after that its writes are refused whatever it has read.
   */
  datatype Section = Section(request: Request, claim: Option<nat>, began: Data, done: nat, over: bool)
  {
    ghost function Stages(): seq<Stage> {
      PlanOf(began, request).stages
    }
  }

  /**
    `newest` is history: the section that was granted the room's lock last, if it is one that works under it. `lenient`
    is as in the machine.
   */
  datatype State = State(
    room: RoomId,
    store: FencedStore.Store,
    world: World,
    claims: map<nat, M.Claim>,
    sections: map<Token, Section>,
    newest: Option<Token>,
    lenient: set<Timers.TimerKind>)
  {
    predicate Newest(t: Token) {
      newest == Some(t)
    }

    /** The room as the machine sees it: the newest section is the one at work, if it is not over. */
    function Machine(): M.State {
      M.State(world,
              if newest.Some? && newest.value in sections && !sections[newest.value].over then
                var c := sections[newest.value];
                Some(M.Section(c.request, c.claim, c.began, c.done))
              else
                None,
              claims,
              lenient)
    }

    /** A newer grant takes away the claim of the handler it overtakes, which will not clean up any more. */
    function Overtaken(): M.State {
      if Machine().section.Some? then Machine().(section := None, claims := M.Dropped(Machine())) else Machine()
    }
  }

  datatype Event =
    /** The room is created, without a lock, under an id that nobody knows yet. */
    | Create(request: Request, landed: seq<Landing>)
    | Grant(t: Token, request: Request, claim: Option<nat>)
    /** The writes of a section's current stage; with `answered` the section goes on, otherwise it ends there. */
    | Write(t: Token, landed: seq<Landing>, answered: bool)
    | Return(t: Token, valid: bool)
    | Crash(t: Token)
    /** Another lock is granted, or this one to a section that never learns of it or finds no record. */
    | OtherGrant(t: Token, lock: LockKey)
    /**
      A poller claims, cleans up or forgets an entry, a timer command of a section that is over takes effect, or the
      section of a lenient handler misses the record.
     */
    | Poll(e: M.Event)

  /** The fenced store would accept a write of this section now. */
  predicate Accepted(s: State, t: Token) {
    FencedStore.Accepted(s.store, FencedStore.Write(t, RoomRecord(s.room), None))
  }

  predicate Ongoing(s: State, t: Token) {
    t in s.sections && !s.sections[t].over
  }

  /** The timer command of a section that was overtaken, as the machine sees it. */
  function LateCommand(e: Effect): M.Event
    requires e.ScheduleTimer? || e.CancelTimer?
  {
    if e.ScheduleTimer? then M.LateSchedule(e.kind, e.fireAt) else M.LateCancel(e.kind)
  }

  /** The only stages an overtaken section gets past are timer commands, which no token guards. */
  ghost predicate MayWrite(s: State, t: Token, landed: seq<Landing>, answered: bool) {
    && Ongoing(s, t) && s.sections[t].done < |s.sections[t].Stages()|
    && |landed| == |s.sections[t].Stages()[s.sections[t].done]|
    && var stage := s.sections[t].Stages()[s.sections[t].done];
    if Accepted(s, t) then
      (answered ==> M.AllLand(landed)) && M.SchedulesDistinguished(s.claims, stage)
    else
      && (answered ==> TimerWrite(stage))
      && (TimerWrite(stage) && landed[0].Landed? ==> M.Enabled(s.Machine(), LateCommand(stage[0])))
  }

  /** A section takes one lock, and works under it once it knows that it has it. */
  predicate MayTake(s: State, t: Token, lock: LockKey) {
    t !in s.sections && (t in s.store.grants ==> s.store.grants[t].lock == lock)
  }

  ghost predicate Enabled(s: State, e: Event) {
    match e
    case Create(r, landed) =>
      && s.sections == map[] && r.Create? && Admissible(s.world.data, r)
      && |landed| == (if PlanOf(s.world.data, r).stages == [] then 0 else |PlanOf(s.world.data, r).stages[0]|)
    case Grant(t, r, claim) =>
      && MayTake(s, t, RoomLock(s.room)) && !r.Create? && Admissible(s.world.data, r)
      && M.HandlerMayBegin(s.Overtaken(), r, claim)
    case Write(t, landed, answered) => MayWrite(s, t, landed, answered)
    case Return(t, _) => Ongoing(s, t) && s.sections[t].done == |s.sections[t].Stages()|
    case Crash(t) => Ongoing(s, t)
    case OtherGrant(t, lock) => MayTake(s, t, lock)
    case Poll(p) =>
      && (p.ClaimEntry? || p.CleanUp? || p.Forget? || p.MissedRead? || p.LateSchedule? || p.LateCancel?)
      && M.Enabled(s.Machine(), p)
  }

  /** The claim of a section that ends: it is done if the section returns in time, and dropped otherwise. */
  ghost function ClaimsAfter(s: State, t: Token, inTime: bool): map<nat, M.Claim>
    requires t in s.sections
  {
    var c := s.sections[t];
    if !s.Newest(t) || c.claim.None? then s.claims
    else if inTime && c.claim.value in s.claims && PlanOf(c.began, c.request).refusal.None? then
      s.claims[c.claim.value := s.claims[c.claim.value].(finished := true)]
    else
      s.claims - {c.claim.value}
  }

  ghost function WorldAfter(s: State, t: Token, landed: seq<Landing>): World
    requires t in s.sections && s.sections[t].done < |s.sections[t].Stages()|
    requires |landed| == |s.sections[t].Stages()[s.sections[t].done]|
  {
    var stage := s.sections[t].Stages()[s.sections[t].done];
    if Accepted(s, t) then World(RunPart(s.world.data, stage, landed), M.PartTimers(s.world.timers, stage, landed))
    else if TimerWrite(stage) && landed[0].Landed? then s.world.(timers := ExecTimers(s.world.timers, stage[0]))
    else s.world
  }

  ghost function Apply(s: State, e: Event): State
    requires Enabled(s, e)
  {
    match e
    case Create(r, landed) =>
      if PlanOf(s.world.data, r).stages == [] then s
      else s.(world := s.world.(data := RunPart(s.world.data, PlanOf(s.world.data, r).stages[0], landed)))
    case Grant(t, r, claim) =>
      s.(store := FencedStore.Apply(s.store, FencedStore.Issue(t, RoomLock(s.room))),
         claims := s.Overtaken().claims,
         sections := s.sections[t := Section(r, claim, s.world.data, 0, false)],
         newest := Some(t))
    case Write(t, landed, answered) =>
      var c := s.sections[t];
      s.(world := WorldAfter(s, t, landed),
         claims := if answered then s.claims else ClaimsAfter(s, t, false),
         sections := s.sections[t := if answered then c.(done := c.done + 1) else c.(over := true)])
    case Return(t, valid) =>
      s.(claims := ClaimsAfter(s, t, valid), sections := s.sections[t := s.sections[t].(over := true)])
    case Crash(t) =>
      s.(claims := ClaimsAfter(s, t, false), sections := s.sections[t := s.sections[t].(over := true)])
    case OtherGrant(t, lock) =>
      var s' := s.(store := FencedStore.Apply(s.store, FencedStore.Issue(t, lock)));
      if lock == RoomLock(s.room) then s'.(claims := s.Overtaken().claims, newest := None) else s'
    case Poll(p) => s.(world := M.Apply(s.Machine(), p).world, claims := M.Apply(s.Machine(), p).claims)
  }

  ghost predicate Init(s: State) {
    s == State(s.room, FencedStore.Store(map[], map[], map[]), World(Data(None, None, None, None, None), map[]), map[],
               map[], None, s.lenient)
  }

  ghost predicate EventAt(states: seq<State>, events: seq<Event>, i: nat)
    requires i < |events| && |states| == |events| + 1
  {
    Enabled(states[i], events[i]) && states[i + 1] == Apply(states[i], events[i])
  }

  ghost predicate SectionsRun(states: seq<State>, events: seq<Event>) {
    && |states| == |events| + 1
    && Init(states[0])
    && forall i :: 0 <= i < |events| ==> EventAt(states, events, i)
  }

  // ----- tokens

  /** Only the newest section has the latest token of the room's lock; everybody else's writes are refused. */
  ghost predicate Tokens(s: State) {
    && FencedStore.Inv(s.store)
    && (forall t :: t in s.sections ==> t in s.store.grants && s.store.grants[t].lock == RoomLock(s.room))
    && (forall t :: t in s.sections ==> (Accepted(s, t) <==> s.Newest(t)))
    && (s.newest.Some? ==> s.newest.value in s.sections)
  }

  /** A grant refuses the writes of everybody else under the same lock from now on, and of nobody under another one. */
  lemma GrantOvertakes(s: State, t: Token, lock: LockKey, after: State, u: Token)
    requires Tokens(s) && MayTake(s, t, lock) && u in s.sections && u != t && after.room == s.room
    requires after.store == FencedStore.Apply(s.store, FencedStore.Issue(t, lock))
    ensures u in after.store.grants && after.store.grants[u].lock == RoomLock(s.room)
    ensures Accepted(after, u) <==> lock != RoomLock(s.room) && s.Newest(u)
  {
    assert after.store.grants[u] == s.store.grants[u];
    assert after.store.Latest(RoomLock(s.room))
        == s.store.Latest(RoomLock(s.room)) + if lock == RoomLock(s.room) then 1 else 0;
    assert s.store.grants[u].fence <= s.store.Latest(RoomLock(s.room));
    assert Accepted(s, u) <==> s.Newest(u);
  }

  lemma GrantKeepsTokens(s: State, e: Event)
    requires Tokens(s) && Enabled(s, e) && e.Grant?
    ensures Tokens(Apply(s, e))
  {
    FencedStore.ApplyKeepsInv(s.store, FencedStore.Issue(e.t, RoomLock(s.room)));
    var after := Apply(s, e);
    forall u | u in s.sections
      ensures u in after.store.grants && after.store.grants[u].lock == RoomLock(s.room)
      ensures Accepted(after, u) <==> after.Newest(u)
    {
      GrantOvertakes(s, e.t, RoomLock(s.room), after, u);
    }
  }

  lemma OtherGrantKeepsTokens(s: State, e: Event)
    requires Tokens(s) && Enabled(s, e) && e.OtherGrant?
    ensures Tokens(Apply(s, e))
  {
    FencedStore.ApplyKeepsInv(s.store, FencedStore.Issue(e.t, e.lock));
    var after := Apply(s, e);
    forall u | u in s.sections
      ensures u in after.store.grants && after.store.grants[u].lock == RoomLock(s.room)
      ensures Accepted(after, u) <==> after.Newest(u)
    {
      GrantOvertakes(s, e.t, e.lock, after, u);
    }
  }

  lemma StepKeepsTokens(s: State, e: Event)
    requires Tokens(s) && Enabled(s, e)
    ensures Tokens(Apply(s, e))
  {
    if e.Grant? {
      GrantKeepsTokens(s, e);
    } else if e.OtherGrant? {
      OtherGrantKeepsTokens(s, e);
    }
  }

  lemma {:induction false} RunKeepsTokens(states: seq<State>, events: seq<Event>, i: nat)
    requires SectionsRun(states, events) && i < |states|
    ensures Tokens(states[i])
  {
    if i > 0 {
      RunKeepsTokens(states, events, i - 1);
      assert EventAt(states, events, i - 1);
      StepKeepsTokens(states[i - 1], events[i - 1]);
    }
  }

  // ----- each event is none, one or two of the machine

  lemma TwoLead(s: M.State, a: M.Event, b: M.Event, end: M.State)
    requires M.Enabled(s, a) && M.Enabled(M.Apply(s, a), b) && M.Apply(M.Apply(s, a), b) == end
    ensures M.Leads(s, [a, b], end)
  {
    M.OneLeads(s, a);
    M.OneLeads(M.Apply(s, a), b);
    M.LeadsOn(s, [a], M.Apply(s, a), [b], end);
    assert [a] + [b] == [a, b];
  }

  lemma CreateLeads(s: State, e: Event) returns (events: seq<M.Event>)
    requires Tokens(s) && Enabled(s, e) && e.Create?
    ensures M.Leads(s.Machine(), events, Apply(s, e).Machine())
  {
    var stages := PlanOf(s.world.data, e.request).stages;
    if stages == [] {
      events := [];
    } else {
      var begun := M.Apply(s.Machine(), M.Begin(e.request, None));
      assert begun.Rest() == stages[0..] == stages;
      RoomMachineRuns.SinglePart(s.world, stages[0], e.landed);
      events := [M.Begin(e.request, None), M.Write(e.landed, false)];
      TwoLead(s.Machine(), events[0], events[1], Apply(s, e).Machine());
    }
  }

  lemma GrantLeads(s: State, e: Event) returns (events: seq<M.Event>)
    requires Tokens(s) && Enabled(s, e) && e.Grant?
    ensures M.Leads(s.Machine(), events, Apply(s, e).Machine())
  {
    var begin := M.Begin(e.request, e.claim);
    if s.Machine().section.Some? {
      events := [M.Crash, begin];
      TwoLead(s.Machine(), M.Crash, begin, Apply(s, e).Machine());
    } else {
      events := [begin];
      M.OneLeads(s.Machine(), begin);
    }
  }

  lemma OtherGrantLeads(s: State, e: Event) returns (events: seq<M.Event>)
    requires Tokens(s) && Enabled(s, e) && e.OtherGrant?
    ensures M.Leads(s.Machine(), events, Apply(s, e).Machine())
  {
    if e.lock == RoomLock(s.room) && s.Machine().section.Some? {
      events := [M.Crash];
      M.OneLeads(s.Machine(), M.Crash);
    } else {
      events := [];
    }
  }

  lemma WriteLeads(s: State, e: Event) returns (events: seq<M.Event>)
    requires Tokens(s) && Enabled(s, e) && e.Write?
    ensures M.Leads(s.Machine(), events, Apply(s, e).Machine())
  {
    var c := s.sections[e.t];
    if s.Newest(e.t) {
      assert s.Machine().Rest()[0] == c.Stages()[c.done];
      events := [M.Write(e.landed, e.answered)];
      M.OneLeads(s.Machine(), M.Write(e.landed, e.answered));
    } else if TimerWrite(c.Stages()[c.done]) && e.landed[0].Landed? {
      events := [LateCommand(c.Stages()[c.done][0])];
      M.OneLeads(s.Machine(), events[0]);
    } else {
      events := [];
    }
  }

  lemma EndLeads(s: State, e: Event) returns (events: seq<M.Event>)
    requires Tokens(s) && Enabled(s, e) && (e.Return? || e.Crash?)
    ensures M.Leads(s.Machine(), events, Apply(s, e).Machine())
  {
    if s.Newest(e.t) {
      events := [if e.Return? then M.Return(e.valid) else M.Crash];
      M.OneLeads(s.Machine(), events[0]);
    } else {
      events := [];
    }
  }

  lemma EventLeads(s: State, e: Event) returns (events: seq<M.Event>)
    requires Tokens(s) && Enabled(s, e)
    ensures M.Leads(s.Machine(), events, Apply(s, e).Machine())
  {
    match e
    case Create(_, _) => events := CreateLeads(s, e);
    case Grant(_, _, _) => events := GrantLeads(s, e);
    case Write(_, _, _) => events := WriteLeads(s, e);
    case Return(_, _) => events := EndLeads(s, e);
    case Crash(_) => events := EndLeads(s, e);
    case OtherGrant(_, _) => events := OtherGrantLeads(s, e);
    case Poll(p) =>
      M.OneLeads(s.Machine(), p);
      events := [p];
  }

  lemma {:induction false} RunLeads(states: seq<State>, events: seq<Event>, n: nat) returns (es: seq<M.Event>)
    requires SectionsRun(states, events) && n < |states|
    ensures M.Leads(states[0].Machine(), es, states[n].Machine())
  {
    if n == 0 {
      es := [];
    } else {
      es := RunLeads(states, events, n - 1);
      RunKeepsTokens(states, events, n - 1);
      assert EventAt(states, events, n - 1);
      var more := EventLeads(states[n - 1], events[n - 1]);
      M.LeadsOn(states[0].Machine(), es, states[n - 1].Machine(), more, states[n].Machine());
      es := es + more;
    }
  }

  /** However sections overlap, documents, timers and pollers go through a run of the room machine. */
  lemma OverlapIsMachineRun(states: seq<State>, events: seq<Event>, n: nat) returns (ms: seq<M.State>, es: seq<M.Event>)
    requires SectionsRun(states, events) && n < |states|
    ensures M.MachineRun(ms, es) && ms[|es|] == states[n].Machine()
  {
    es := RunLeads(states, events, n);
    ms := RoomMachineLate.LeadsIsRun(states[0].Machine(), es, states[n].Machine());
  }

  // ----- what follows for overlapping sections

  /** The stored documents are these, or what the section at work has made of them so far. */
  ghost predicate ComesFrom(s: State, d: Data) {
    if s.Machine().section.Some? then
      var c := s.Machine().section.value;
      c.began == d && StepsTo(d, Step(c.request, false), s.world.data)
    else
      s.world.data == d
  }

  /**
    Whatever overlaps, the documents have gone through a run of the room, one request after the other, each complete or
    cut short, and at most one request, the newest, is under way.
   */
  lemma OverlapIsSerial(states: seq<State>, events: seq<Event>, n: nat) returns (settled: seq<Data>, steps: seq<Step>)
    requires SectionsRun(states, events) && n < |states|
    ensures RoomRuns.Run(settled, steps)
    ensures ComesFrom(states[n], settled[|steps|])
  {
    var ms, es := OverlapIsMachineRun(states, events, n);
    RoomMachineRuns.RefinesRoomRuns(ms, es, |es|);
    RoomMachineRuns.RunKeepsInv(ms, es, |es|);
    settled, steps := RoomMachineRuns.SettledStates(ms, es, |es|), RoomMachineRuns.SettledSteps(ms, es, |es|);
    if ms[|es|].section.Some? {
      M.EndIsStep(ms[|es|], M.Crash);
    }
  }

  /** However sections overlap, the room and the documents around it are good at every moment. */
  lemma OverlapIsGood(states: seq<State>, events: seq<Event>, n: nat)
    requires SectionsRun(states, events) && n < |states|
    ensures GoodData(states[n].world.data)
  {
    var ms, es := OverlapIsMachineRun(states, events, n);
    RoomMachineRuns.DocumentsAlwaysGood(ms, es, |es|);
  }

  /** No stuck round, however sections overlap, if the handler of the timeout reads strictly. */
  lemma OverlapLeavesNoStuckRound(states: seq<State>, events: seq<Event>, n: nat)
    requires SectionsRun(states, events) && n < |states| && Timers.RoundTimeout !in states[n].lenient
    ensures M.BeingPlayed(states[n].world.data) ==> Timers.RoundTimeout in states[n].world.timers
  {
    var ms, es := OverlapIsMachineRun(states, events, n);
    RoomMachineRuns.NoStuckRound(ms, es, |es|);
  }

  /** A section that has been overtaken changes no document any more. */
  lemma OvertakenChangesNothing(states: seq<State>, events: seq<Event>, n: nat)
    requires SectionsRun(states, events) && n < |events|
    requires events[n].Write? && !states[n].Newest(events[n].t)
    ensures states[n + 1].world.data == states[n].world.data
  {
    RunKeepsTokens(states, events, n);
    assert EventAt(states, events, n);
  }

  // ----- and back: what the machine does with a room, sections can do

  lemma EventAtKept(states: seq<State>, events: seq<Event>, next: State, e: Event, i: nat)
    requires i < |events| && |states| == |events| + 1 && EventAt(states, events, i)
    ensures EventAt(states + [next], events + [e], i)
  {
    var more, longer := states + [next], events + [e];
    assert more[i] == states[i] && more[i + 1] == states[i + 1] && longer[i] == events[i];
  }

  lemma RunGrows(states: seq<State>, events: seq<Event>, e: Event)
    requires SectionsRun(states, events) && Enabled(states[|events|], e)
    ensures SectionsRun(states + [Apply(states[|events|], e)], events + [e])
  {
    var next := Apply(states[|events|], e);
    forall i | 0 <= i < |events + [e]| ensures EventAt(states + [next], events + [e], i) {
      if i < |events| {
        EventAtKept(states, events, next, e, i);
      }
    }
  }

  /** An event of the machine, other than the creation of the room, is an event of a section or of a poller. */
  lemma MachineEventIsEvent(s: State, m: M.Event) returns (e: Event)
    requires Tokens(s) && M.Enabled(s.Machine(), m) && !(m.Begin? && m.request.Create?)
    ensures Enabled(s, e) && Apply(s, e).Machine() == M.Apply(s.Machine(), m)
  {
    match m
    case Begin(r, claim) =>
      var t := RoomMachineReads.FreshId(s.sections.Keys + s.store.grants.Keys);
      e := Grant(t, r, claim);
    case Write(landed, answered) =>
      assert s.Machine().Rest()[0] == s.sections[s.newest.value].Stages()[s.sections[s.newest.value].done];
      e := Write(s.newest.value, landed, answered);
    case Return(valid) => e := Return(s.newest.value, valid);
    case Crash => e := Crash(s.newest.value);
    case _ => e := Poll(m);
  }

  /** However the machine goes on without creating a room, the sections can go on. */
  lemma {:induction false} MachineRunIsOverlap(states: seq<State>, events: seq<Event>, ms: seq<M.Event>, end: M.State)
    returns (states': seq<State>, events': seq<Event>)
    requires SectionsRun(states, events) && M.Leads(states[|events|].Machine(), ms, end)
    requires RoomMachineLate.NoCreation(ms)
    ensures SectionsRun(states', events') && states'[0] == states[0] && states'[|events'|].Machine() == end
    decreases ms
  {
    if ms == [] {
      states', events' := states, events;
    } else {
      var s := states[|events|];
      RunKeepsTokens(states, events, |events|);
      assert ms[0] in ms && forall m :: m in ms[1..] ==> m in ms;
      var e := MachineEventIsEvent(s, ms[0]);
      RunGrows(states, events, e);
      states', events' := MachineRunIsOverlap(states + [Apply(s, e)], events + [e], ms[1..], end);
    }
  }

  /** The room is created, without a lock. */
  lemma RoomCreated(lenient: set<Timers.TimerKind>) returns (states: seq<State>, events: seq<Event>)
    ensures SectionsRun(states, events) && states[|events|].lenient == lenient
    ensures RoomMachineLate.Idle(states[|events|].Machine(), Some(RoomMachineLate.FirstRoom(Waiting, None)))
  {
    var s := State(0, FencedStore.Store(map[], map[], map[]), World(Data(None, None, None, None, None), map[]), map[],
                   map[], None, lenient);
    var none: seq<Event> := [];
    assert SectionsRun([s], none);
    var e := Event.Create(RoomMachineLate.FirstRequest(), [Landed]);
    OneWriteStage(s.world.data, SaveRoom(RoomMachineLate.FirstRoom(Waiting, None)));
    RunGrows([s], none, e);
    states, events := [s] + [Apply(s, e)], none + [e];
  }

  /** A run of sections, one after the other even, that strands its round. */
  lemma LenientReadStrandsOverlap(lenient: set<Timers.TimerKind>) returns (states: seq<State>, events: seq<Event>)
    requires Timers.RoundTimeout in lenient
    ensures SectionsRun(states, events) && states[0].lenient == lenient
    ensures RoomMachineLate.Stranded(states[|events|].Machine())
  {
    states, events := RoomCreated(lenient);
    RunIsLenient(states, events, |events|);
    var created := states[|events|].Machine();
    var play, played := RoomMachineLate.RoundReachedFrom(created);
    MachineInv(states, events, |events|);
    RoomMachineReads.PlayedWithTimeout(created, play, played);
    states, events := MachineRunIsOverlap(states, events, play, played);
    RunIsLenient(states, events, |events|);
    var miss, end := RoomMachineReads.LenientReadStrands(played);
    states, events := MachineRunIsOverlap(states, events, miss, end);
  }

  lemma MachineInv(states: seq<State>, events: seq<Event>, n: nat)
    requires SectionsRun(states, events) && n < |states|
    ensures RoomMachineRuns.Inv(states[n].Machine())
  {
    var ms, es := OverlapIsMachineRun(states, events, n);
    RoomMachineRuns.RunKeepsInv(ms, es, |es|);
  }

  lemma {:induction false} RunIsLenient(states: seq<State>, events: seq<Event>, i: nat)
    requires SectionsRun(states, events) && i < |states|
    ensures states[i].lenient == states[0].lenient
  {
    if i > 0 {
      RunIsLenient(states, events, i - 1);
      assert EventAt(states, events, i - 1);
    }
  }

  ghost predicate OverlapNeverStrands(lenient: set<Timers.TimerKind>) {
    forall states: seq<State>, events: seq<Event> :: SectionsRun(states, events) && states[0].lenient == lenient ==>
      !RoomMachineLate.Stranded(states[|events|].Machine())
  }

  /**
    However sections overlap, no round is stuck in any run if and only if the handler of the timeout reads strictly.
   */
  lemma OverlapNeverStrandsIff(lenient: set<Timers.TimerKind>)
    ensures OverlapNeverStrands(lenient) <==> Timers.RoundTimeout !in lenient
  {
    if Timers.RoundTimeout in lenient {
      var states, events := LenientReadStrandsOverlap(lenient);
      assert SectionsRun(states, events);
    } else {
      forall states: seq<State>, events: seq<Event> | SectionsRun(states, events) && states[0].lenient == lenient
        ensures !RoomMachineLate.Stranded(states[|events|].Machine())
      {
        RunIsLenient(states, events, |events|);
        OverlapLeavesNoStuckRound(states, events, |events|);
      }
    }
  }
}
