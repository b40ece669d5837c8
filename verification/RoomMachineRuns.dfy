/** The two theorems about the room machine: no round gets stuck, and its runs are runs of the room. */
module RoomMachineRuns {
  import opened RoomModel
  import opened RoomInvariants
  import opened RoomRequests
  import opened RoomRuns
  import opened RoomMachine
  import opened RoomMachineSafety
  import Timers = RoomTimerProtocol

  /** The timeout is scheduled, and no clean-up that is still to come would take it away. */
  ghost predicate Secure(s: State) {
    && Timers.RoundTimeout in s.world.timers
    && Distinguished(s.claims, Timers.RoundTimeout, s.world.timers[Timers.RoundTimeout])
  }

  predicate OwnHandler(c: Section) {
    c.request.RoundTimeoutFired?
  }

  predicate ClaimKept(s: State, c: Section) {
    && (c.claim.Some? <==> IsTimer(c.request))
    && (c.claim.Some? ==>
          c.claim.value in s.claims && s.claims[c.claim.value].kind == KindOf(c.request)
            && !s.claims[c.claim.value].finished)
  }

  /** The handler of the round timeout fails when it cannot read the record. */
  predicate Strict(s: State) {
    Timers.RoundTimeout !in s.lenient
  }

  /** No round is stuck, nor will be when the current section goes on. */
  ghost predicate Guarded(s: State) {
    && (BeingPlayed(s.world.data) ==> Secure(s))
    && (InSection(s) ==> SafeRest(BeingPlayed(s.world.data), Secure(s), s.Rest(), OwnHandler(s.section.value)))
  }

  ghost predicate Inv(s: State) {
    && Tracks(s) && GoodData(Settled(s)) && GoodData(s.world.data)
    && (s.section.Some? ==> ClaimKept(s, s.section.value) && KeepsGood(s.world.data, s.Rest()))
    && (Strict(s) ==> Guarded(s))
  }

  lemma BeginKeepsInv(s: State, e: Event)
    requires Inv(s) && Enabled(s, e) && e.Begin?
    ensures Inv(Apply(s, e))
  {
    BeginTracks(s, e);
    RequestKeepsGood(s.world.data, e.request);
    if Strict(s) {
      PlanIsSafe(s.world.data, e.request, Secure(s));
    }
    var stages := PlanOf(s.world.data, e.request).stages;
    assert stages[0..] == stages;
  }

  // ----- a write

  lemma {:induction false} NeutralPart(w: World, stage: Stage, landed: seq<Landing>)
    requires Neutral(stage) && |landed| == |stage|
    ensures PartTimers(w.timers, stage, landed) == w.timers && RunPart(w.data, stage, landed).room == w.data.room
    decreases stage
  {
    if stage != [] {
      var data := if landed[0].Landed? then ExecData(w.data, stage[0]) else w.data;
      NeutralPart(World(data, w.timers), stage[1..], landed[1..]);
    }
  }

  lemma SinglePart(w: World, stage: Stage, landed: seq<Landing>)
    requires |stage| == |landed| == 1
    ensures PartTimers(w.timers, stage, landed) == if landed[0].Landed? then ExecTimers(w.timers, stage[0])
      else w.timers
    ensures RunPart(w.data, stage, landed) == if landed[0].Landed? then ExecData(w.data, stage[0]) else w.data
  {
    assert stage[1..] == [];
  }

  /** What a write that lands does to the two facts the safety of a playing room rests on. */
  lemma EffectIsSafe(s: State, e: Effect, after: State)
    requires e.ScheduleTimer? ==> Distinguished(s.claims, e.kind, e.fireAt)
    requires after.world == Exec(s.world, e) && after.claims == s.claims
    ensures BeingPlayed(after.world.data) == PlayingAfter(BeingPlayed(s.world.data), e)
    ensures Secure(after) == SecureAfter(Secure(s), e)
  {
  }

  lemma FewerClaims(s: State, after: State)
    requires after.world == s.world
    requires forall id :: id in after.claims ==> id in s.claims && after.claims[id] == s.claims[id]
    ensures Secure(s) ==> Secure(after)
  {
  }

  /** The world after a write of the current stage, with the claims as they were. */
  ghost function Written(s: State, landed: seq<Landing>): State
    requires InSection(s) && s.Rest() != [] && |landed| == |s.Rest()[0]|
  {
    s.(world := World(RunPart(s.world.data, s.Rest()[0], landed), PartTimers(s.world.timers, s.Rest()[0], landed)))
  }

  /** A single write, by what the plan promises before it. */
  lemma SingleWriteIsSafe(s: State, stage: Stage, rest: seq<Stage>, landed: seq<Landing>, after: State, handler: bool)
    requires |stage| == |landed| == 1 && SchedulesDistinguished(s.claims, stage)
    requires SafeRest(BeingPlayed(s.world.data), Secure(s), [stage] + rest, handler)
    requires after == s.(world :=
      World(RunPart(s.world.data, stage, landed), PartTimers(s.world.timers, stage, landed)))
    ensures BeingPlayed(after.world.data) ==> Secure(after)
    ensures landed[0].Landed? ==> SafeRest(BeingPlayed(after.world.data), Secure(after), rest, handler)
  {
    assert ([stage] + rest)[1..] == rest;
    SinglePart(s.world, stage, landed);
    if landed[0].Landed? {
      EffectIsSafe(s, stage[0], after);
    }
  }

  lemma WriteIsSafe(s: State, landed: seq<Landing>)
    requires Inv(s) && Strict(s) && Enabled(s, Write(landed, false))
    ensures BeingPlayed(Written(s, landed).world.data) ==> Secure(Written(s, landed))
    ensures AllLand(landed) ==>
      SafeRest(BeingPlayed(Written(s, landed).world.data), Secure(Written(s, landed)), s.Rest()[1..],
        OwnHandler(s.section.value))
  {
    var stage := s.Rest()[0];
    if |stage| == 1 {
      assert s.Rest() == [stage] + s.Rest()[1..];
      SingleWriteIsSafe(s, stage, s.Rest()[1..], landed, Written(s, landed), OwnHandler(s.section.value));
    } else {
      NeutralPart(s.world, stage, landed);
    }
  }

  lemma AbortKeepsInv(s: State, landed: seq<Landing>)
    requires Inv(s) && Enabled(s, Write(landed, false))
    ensures Inv(Apply(s, Write(landed, false)))
  {
    if Strict(s) {
      WriteIsSafe(s, landed);
    }
    FewerClaims(Written(s, landed), Apply(s, Write(landed, false)));
  }

  lemma AnsweredWriteKeepsInv(s: State, landed: seq<Landing>)
    requires Inv(s) && Enabled(s, Write(landed, true))
    ensures Inv(Apply(s, Write(landed, true)))
  {
    var after := Apply(s, Write(landed, true));
    WriteTracks(s, Write(landed, true));
    if Strict(s) {
      WriteIsSafe(s, landed);
    }
    WholePart(s.world.data, s.Rest()[0], landed);
    assert after.Rest() == s.Rest()[1..];
    assert Secure(after) == Secure(Written(s, landed));
    assert KeepsGood(after.world.data, after.Rest());
  }

  // ----- the end of a section, and the pollers

  lemma ReturnKeepsInv(s: State, e: Event)
    requires Inv(s) && Enabled(s, e) && (e.Return? || e.Crash?)
    ensures Inv(Apply(s, e))
  {
    var after := Apply(s, e);
    if !(e.Return? && after.claims != Dropped(s)) {
      FewerClaims(s, after);
    }
  }

  /**
    A poller, or a late schedule, changes neither the documents nor the section, and keeps a timeout that is secure.
   */
  lemma PollerKeepsInv(s: State, e: Event)
    requires Inv(s) && Enabled(s, e) && (e.LateSchedule? || e.ClaimEntry? || e.CleanUp? || e.Forget?)
    ensures Inv(Apply(s, e))
  {
    var after := Apply(s, e);
    assert Secure(s) ==> Secure(after);
    if s.section.Some? && Strict(s) {
      MoreSecureIsSafe(BeingPlayed(s.world.data), s.Rest(), OwnHandler(s.section.value), Secure(s), Secure(after));
    }
  }

  /** A late cancel takes away no timeout that is needed. */
  lemma LateCancelKeepsInv(s: State, e: Event)
    requires Inv(s) && Enabled(s, e) && e.LateCancel?
    ensures Inv(Apply(s, e))
  {
    var after := Apply(s, e);
    if e.kind.RoundTimeout? {
      if s.section.Some? && Strict(s) {
        UnneededIsSafe(Secure(s), s.Rest(), OwnHandler(s.section.value));
      }
    } else {
      assert Secure(after) == Secure(s);
    }
  }

  /** A handler that misses the record leaves all documents and timers, and by itself no claim on a strict timeout. */
  lemma MissedReadKeepsInv(s: State, e: Event)
    requires Inv(s) && Enabled(s, e) && e.MissedRead?
    ensures Inv(Apply(s, e))
  {
    assert Strict(s) ==> (Secure(s) ==> Secure(Apply(s, e)));
  }

  lemma StepKeepsInv(s: State, e: Event)
    requires Inv(s) && Enabled(s, e)
    ensures Inv(Apply(s, e))
  {
    if e.Begin? {
      BeginKeepsInv(s, e);
    } else if e.Write? {
      if e.answered {
        AnsweredWriteKeepsInv(s, e.landed);
      } else {
        AbortKeepsInv(s, e.landed);
      }
    } else if e.Return? || e.Crash? {
      ReturnKeepsInv(s, e);
    } else if e.LateCancel? {
      LateCancelKeepsInv(s, e);
    } else if e.MissedRead? {
      MissedReadKeepsInv(s, e);
    } else {
      PollerKeepsInv(s, e);
    }
  }

  lemma {:induction false} RunKeepsInv(states: seq<State>, events: seq<Event>, i: nat)
    requires MachineRun(states, events) && i < |states|
    ensures Inv(states[i])
  {
    if i > 0 {
      RunKeepsInv(states, events, i - 1);
      StepKeepsInv(states[i - 1], events[i - 1]);
    }
  }

  /**
    No stuck round, if the handler of the timeout reads strictly: in every state of every run, also in the middle of a
    section, a room that is stored as playing has its timeout in the timer set, across failed reads and saves, crashed
    handlers, retries and reschedules.
   */
  lemma NoStuckRound(states: seq<State>, events: seq<Event>, i: nat)
    requires MachineRun(states, events) && i < |states| && Strict(states[i])
    ensures BeingPlayed(states[i].world.data) ==> Timers.RoundTimeout in states[i].world.timers
  {
    RunKeepsInv(states, events, i);
  }

  /** Between any two writes, too, the stored documents are good. */
  lemma DocumentsAlwaysGood(states: seq<State>, events: seq<Event>, i: nat)
    requires MachineRun(states, events) && i < |states|
    ensures GoodData(states[i].world.data)
  {
    RunKeepsInv(states, events, i);
  }

  // ----- refinement

  /** The documents between sections, and the steps that led from each to the next. */
  ghost function SettledStates(states: seq<State>, events: seq<Event>, n: nat): seq<Data>
    requires n < |states| && |states| == |events| + 1
  {
    if n == 0 then [Settled(states[0])]
    else SettledStates(states, events, n - 1) + if Ends(states[n - 1], events[n - 1]) then [Settled(states[n])] else []
  }

  ghost function SettledSteps(states: seq<State>, events: seq<Event>, n: nat): seq<Step>
    requires n < |states| && |states| == |events| + 1
  {
    if n == 0 then []
    else
      SettledSteps(states, events, n - 1)
      + if Ends(states[n - 1], events[n - 1]) then [StepOf(states[n - 1], events[n - 1])] else []
  }

  lemma OtherEventsSettleNothing(s: State, e: Event)
    requires Inv(s) && Enabled(s, e) && !Ends(s, e)
    ensures Settled(Apply(s, e)) == Settled(s)
  {
    if e.Write? {
      WriteTracks(s, e);
    }
  }

  lemma RunExtended(states: seq<Data>, steps: seq<Step>, step: Step, next: Data)
    requires RoomRuns.Run(states, steps) && StepsTo(states[|states| - 1], step, next)
    ensures RoomRuns.Run(states + [next], steps + [step])
  {
    forall i | 0 <= i < |steps + [step]| ensures StepAt(states + [next], steps + [step], i) {
      assert i < |steps| ==> StepAt(states, steps, i);
    }
  }

  /** Every run of the machine, seen from one section to the next, is a run of the room. */
  lemma {:induction false} RefinesRoomRuns(states: seq<State>, events: seq<Event>, n: nat)
    requires MachineRun(states, events) && n < |states|
    ensures RoomRuns.Run(SettledStates(states, events, n), SettledSteps(states, events, n))
    ensures SettledStates(states, events, n)[|SettledSteps(states, events, n)|] == Settled(states[n])
  {
    if n > 0 {
      RefinesRoomRuns(states, events, n - 1);
      RunKeepsInv(states, events, n - 1);
      var s, e := states[n - 1], events[n - 1];
      if Ends(s, e) {
        EndIsStep(s, e);
        assert SettledStates(states, events, n) == SettledStates(states, events, n - 1) + [Settled(states[n])];
        assert SettledSteps(states, events, n) == SettledSteps(states, events, n - 1) + [StepOf(s, e)];
        RunExtended(SettledStates(states, events, n - 1), SettledSteps(states, events, n - 1), StepOf(s, e),
          Settled(states[n]));
      } else {
        OtherEventsSettleNothing(s, e);
        assert SettledStates(states, events, n) == SettledStates(states, events, n - 1);
        assert SettledSteps(states, events, n) == SettledSteps(states, events, n - 1);
      }
    }
  }
}
