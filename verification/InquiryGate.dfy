/**
  Exactly when approvals may be let through: for every set of stages of the pipeline, and for every set of row states,
  in which they are, which of the promises of the review hold in all runs.
 */
module InquiryGate {
  import opened InquiryReview

  /** A run whose approvals all come while the pipeline is in one of these stages. */
  ghost predicate GatedRun(states: seq<State>, events: seq<Event>, allowed: set<Pipeline>) {
    && Run(states, events)
    && forall i :: 0 <= i < |events| && events[i].Approve? ==> states[i].pipeline in allowed
  }

  /** At most one execution is in flight. */
  ghost predicate Exclusive(s: State) {
    forall a, b :: a in s.executions && b in s.executions ==> a == b
  }

  ghost predicate AlwaysExclusive(allowed: set<Pipeline>) {
    forall states: seq<State>, events: seq<Event> :: GatedRun(states, events, allowed) ==> Exclusive(states[|events|])
  }

  ghost predicate AlwaysOneRow(allowed: set<Pipeline>) {
    forall states: seq<State>, events: seq<Event> :: GatedRun(states, events, allowed) ==>
      states[|events|].row.mine <= 1
  }

  ghost predicate AlwaysLogged(allowed: set<Pipeline>) {
    forall states: seq<State>, events: seq<Event> :: GatedRun(states, events, allowed) ==>
      LogShowsStatus(states[|events|])
  }

  predicate OnlyAfterDecision(allowed: set<Pipeline>) {
    forall p :: p in allowed ==> p.Done?
  }

  predicate NeverWhileLogging(allowed: set<Pipeline>) {
    forall p :: p in allowed ==> !p.Logging?
  }

  // ----- runs built event by event

  /** The events, one after the other and with their approvals let through, lead from `s` to `end`. */
  predicate Leads(s: State, events: seq<Event>, end: State, allowed: set<Pipeline>)
    decreases events
  {
    if events == [] then end == s
    else
      && Enabled(s, events[0]) && (events[0].Approve? ==> s.pipeline in allowed)
      && Leads(Apply(s, events[0]), events[1..], end, allowed)
  }

  lemma {:induction false} LeadsOn(s: State, a: seq<Event>, middle: State, b: seq<Event>, end: State,
    allowed: set<Pipeline>)
    requires Leads(s, a, middle, allowed) && Leads(middle, b, end, allowed)
    ensures Leads(s, a + b, end, allowed)
    decreases a
  {
    if a == [] {
      assert a + b == b;
    } else {
      LeadsOn(Apply(s, a[0]), a[1..], middle, b, end, allowed);
      assert (a + b)[0] == a[0] && (a + b)[1..] == a[1..] + b;
    }
  }

  lemma TwoEvents(s: State, e0: Event, e1: Event, allowed: set<Pipeline>)
    requires Enabled(s, e0) && (e0.Approve? ==> s.pipeline in allowed)
    requires Enabled(Apply(s, e0), e1) && (e1.Approve? ==> Apply(s, e0).pipeline in allowed)
    ensures Leads(s, [e0, e1], Apply(Apply(s, e0), e1), allowed)
  {
    var events := [e0, e1];
    assert events[1..] == [e1] && events[1..][1..] == [];
    assert Leads(Apply(s, e0), events[1..], Apply(Apply(s, e0), e1), allowed);
  }

  /** Whoever follows the events from an initial state makes a run. */
  lemma LeadsIsRun(s: State, events: seq<Event>, end: State, allowed: set<Pipeline>) returns (states: seq<State>)
    requires Init(s) && Leads(s, events, end, allowed)
    ensures GatedRun(states, events, allowed) && states[0] == s && states[|events|] == end
  {
    states := Trace(s, events, end, allowed);
  }

  /** A chain of states that need not begin in an initial one. */
  ghost predicate Chain(states: seq<State>, events: seq<Event>, allowed: set<Pipeline>) {
    && |states| == |events| + 1
    && (forall i :: 0 <= i < |events| ==> Enabled(states[i], events[i]) && states[i + 1] == Apply(states[i], events[i]))
    && (forall i :: 0 <= i < |events| && events[i].Approve? ==> states[i].pipeline in allowed)
  }

  lemma {:induction false} Trace(s: State, events: seq<Event>, end: State, allowed: set<Pipeline>)
    returns (states: seq<State>)
    requires Leads(s, events, end, allowed)
    ensures Chain(states, events, allowed) && states[0] == s && states[|events|] == end
    decreases events
  {
    if events == [] {
      states := [s];
    } else {
      var rest := Trace(Apply(s, events[0]), events[1..], end, allowed);
      states := [s] + rest;
      forall i | 0 <= i < |events|
        ensures Enabled(states[i], events[i]) && states[i + 1] == Apply(states[i], events[i])
        ensures events[i].Approve? ==> states[i].pipeline in allowed
      {
        if i > 0 {
          assert states[i] == rest[i - 1] && states[i + 1] == rest[i] && events[i] == events[1..][i - 1];
        }
      }
    }
  }

  // ----- what an early approval can lead to

  predicate Both(s: State, a: nat, b: nat, phase: Phase) {
    a != b && s.executions == map[a := phase, b := phase]
  }

  /** Both executions take their next step. */
  lemma BothStep(s: State, a: nat, b: nat, phase: Phase, allowed: set<Pipeline>) returns (end: State)
    requires Both(s, a, b, phase) && (phase.Claimed? || phase.Checking? || phase.Inserting?)
    requires !phase.Inserting? ==> s.row.mine + s.row.others == 0
    ensures Leads(s, [Step(a, Ok), Step(b, Ok)], end, allowed)
    ensures end.row.others == s.row.others && end.row.mine == s.row.mine + if phase.Inserting? then 2 else 0
    ensures Both(end, a, b, if phase.Claimed? then Checking else if phase.Checking? then Inserting else Recording)
  {
    end := Apply(Apply(s, Step(a, Ok)), Step(b, Ok));
    TwoEvents(s, Step(a, Ok), Step(b, Ok), allowed);
  }

  /** Two executions that have claimed the row both check before either inserts. */
  lemma ClaimedTwice(s: State, a: nat, b: nat, allowed: set<Pipeline>) returns (events: seq<Event>, end: State)
    requires Both(s, a, b, Claimed) && s.row.mine + s.row.others == 0
    ensures Leads(s, events, end, allowed) && Both(end, a, b, Recording) && end.row.mine == 2
    ensures forall e :: e in events ==> e.Step?
  {
    var round := [Step(a, Ok), Step(b, Ok)];
    var s1 := BothStep(s, a, b, Claimed, allowed);
    var s2 := BothStep(s1, a, b, Checking, allowed);
    end := BothStep(s2, a, b, Inserting, allowed);
    LeadsOn(s, round, s1, round, s2, allowed);
    LeadsOn(s, round + round, s2, round, end, allowed);
    events := round + round + round;
  }

  /**
    The pipeline decides although an execution is under way. After HIGH there are two. After MEDIUM or LOW the row no
    longer shows the one that goes on, and an approval that comes after the decision starts the second.
   */
  lemma DecidedOver(s: State, a: nat, b: nat, allowed: set<Pipeline>) returns (events: seq<Event>, end: State)
    requires s.pipeline.Deciding? && s.executions == map[a := Claimed] && a != b && Done in allowed
    ensures Leads(s, events, end, allowed) && Both(end, a, b, Claimed)
    ensures end.row.mine == s.row.mine && end.row.others == s.row.others
  {
    if s.pipeline.c.High? {
      events, end := [Decide(b, Ok)], Apply(s, Decide(b, Ok));
      assert events[1..] == [];
    } else {
      events, end := [Decide(b, Ok), Approve(b, Ok)], Apply(Apply(s, Decide(b, Ok)), Approve(b, Ok));
      TwoEvents(s, Decide(b, Ok), Approve(b, Ok), allowed);
    }
  }

  /** An approval is let through in the stage the pipeline is in, and the pipeline goes on to its decision. */
  lemma ApprovedEarly(s: State, a: nat, allowed: set<Pipeline>) returns (events: seq<Event>, end: State)
    requires !s.pipeline.Done? && s.pipeline in allowed && s.executions == map[] && s.row.status.Proposed?
    ensures Leads(s, events, end, allowed) && end.pipeline == Deciding(s.pipeline.c)
      && end.executions == map[a := Claimed]
    ensures end.row.mine == s.row.mine && end.row.others == s.row.others
  {
    if s.pipeline.Deciding? {
      events, end := [Approve(a, Ok)], Apply(s, Approve(a, Ok));
      assert events[1..] == [];
    } else {
      events, end := [Approve(a, Ok), LogProposal(Ok)], Apply(Apply(s, Approve(a, Ok)), LogProposal(Ok));
      TwoEvents(s, Approve(a, Ok), LogProposal(Ok), allowed);
    }
  }

  /**
    From every state in which nothing is decided or executed and no equal answer exists, an approval that is let
    through can lead to two executions in flight and to two rows for the one action, whatever the pipeline decides.
   */
  lemma EarlyApprovalDoublesAnswer(s: State, allowed: set<Pipeline>) returns (events: seq<Event>, end: State)
    requires !s.pipeline.Done? && s.pipeline in allowed && Done in allowed
    requires s.executions == map[] && s.row.status.Proposed? && s.row.mine + s.row.others == 0
    ensures Leads(s, events, end, allowed) && end.row.mine == 2 && !Exclusive(end)
  {
    var e1, s1 := ApprovedEarly(s, 0, allowed);
    var e2, s2 := DecidedOver(s1, 0, 1, allowed);
    var e3, s3 := ClaimedTwice(s2, 0, 1, allowed);
    LeadsOn(s, e1, s1, e2, s2, allowed);
    LeadsOn(s, e1 + e2, s2, e3, s3, allowed);
    events, end := e1 + e2 + e3, s3;
    assert 0 in end.executions && 1 in end.executions;
  }

  /** Every stage before the decision is reached, with nothing executed and no equal answer stored. */
  lemma StageReached(p: Pipeline, allowed: set<Pipeline>) returns (start: State, events: seq<Event>, s: State)
    requires !p.Done?
    ensures Init(start) && Leads(start, events, s, allowed) && s.pipeline == p
    ensures s.executions == map[] && s.row.status.Proposed? && s.row.mine + s.row.others == 0
  {
    start := State(Row(Proposed, [], 0, 0), Logging(p.c), map[]);
    if p.Logging? {
      events, s := [], start;
    } else {
      events, s := [LogProposal(Ok)], Apply(start, LogProposal(Ok));
      assert events[1..] == [];
    }
  }

  /** For each stage before the decision, a run from the beginning with one approval let through in that stage. */
  lemma EarlyStageBreaksReview(p: Pipeline, allowed: set<Pipeline>) returns (states: seq<State>, events: seq<Event>)
    requires !p.Done? && p in allowed && Done in allowed
    ensures GatedRun(states, events, allowed) && states[|events|].row.mine == 2 && !Exclusive(states[|events|])
  {
    var start, e1, s := StageReached(p, allowed);
    var e2, end := EarlyApprovalDoublesAnswer(s, allowed);
    LeadsOn(start, e1, s, e2, end, allowed);
    events := e1 + e2;
    states := LeadsIsRun(start, events, end, allowed);
  }

  // ----- the exact conditions

  lemma GatedIsAfterPipeline(states: seq<State>, events: seq<Event>, allowed: set<Pipeline>)
    requires GatedRun(states, events, allowed) && OnlyAfterDecision(allowed)
    ensures Exclusive(states[|events|]) && states[|events|].row.mine <= 1
  {
    assert forall k :: 0 <= k < |events| ==> AfterPipeline(states[k], events[k]);
    ReviewIsSafe(states, events, |events|);
  }

  /**
    When approvals are let through at least after the decision: at most one execution is ever in flight if and only if
    they are let through only then, and the same is the exact condition for at most one row being inserted.
   */
  lemma ReviewIsSafeIff(allowed: set<Pipeline>)
    requires Done in allowed
    ensures AlwaysExclusive(allowed) <==> OnlyAfterDecision(allowed)
    ensures AlwaysOneRow(allowed) <==> OnlyAfterDecision(allowed)
  {
    if OnlyAfterDecision(allowed) {
      forall states: seq<State>, events: seq<Event> | GatedRun(states, events, allowed)
        ensures Exclusive(states[|events|]) && states[|events|].row.mine <= 1
      {
        GatedIsAfterPipeline(states, events, allowed);
      }
    } else {
      var p :| p in allowed && !p.Done?;
      var states, events := EarlyStageBreaksReview(p, allowed);
      assert GatedRun(states, events, allowed);
    }
  }

  lemma {:induction false} GatedRunIsLogged(states: seq<State>, events: seq<Event>, allowed: set<Pipeline>, i: nat)
    requires GatedRun(states, events, allowed) && NeverWhileLogging(allowed) && i < |states|
    ensures LogShowsStatus(states[i])
    ensures states[i].pipeline.Logging? ==> states[i].row.status.Proposed? && states[i].executions == map[]
  {
    if i > 0 {
      GatedRunIsLogged(states, events, allowed, i - 1);
      StepKeepsLog(states[i - 1], events[i - 1]);
    }
  }

  /** Approve, then let the pipeline log its proposal: the log ends with PROPOSED, and the row is APPROVED. */
  lemma EarlyStageBreaksLog(p: Pipeline, allowed: set<Pipeline>) returns (states: seq<State>, events: seq<Event>)
    requires p.Logging? && p in allowed
    ensures GatedRun(states, events, allowed) && !LogShowsStatus(states[|events|])
    ensures forall i :: 0 <= i < |events| && events[i].Approve? ==> states[i].row.status.Proposed?
  {
    var start := State(Row(Proposed, [], 0, 0), p, map[]);
    events := [Approve(0, Ok), LogProposal(Ok)];
    TwoEvents(start, Approve(0, Ok), LogProposal(Ok), allowed);
    states := LeadsIsRun(start, events, Apply(Apply(start, Approve(0, Ok)), LogProposal(Ok)), allowed);
  }

  /**
    The last log event equals the status in all runs if and only if no approval is let through before the proposal is
    logged.
   */
  lemma LogEndsWithStatusIff(allowed: set<Pipeline>)
    ensures AlwaysLogged(allowed) <==> NeverWhileLogging(allowed)
  {
    if NeverWhileLogging(allowed) {
      forall states: seq<State>, events: seq<Event> | GatedRun(states, events, allowed)
        ensures LogShowsStatus(states[|events|])
      {
        GatedRunIsLogged(states, events, allowed, |events|);
      }
    } else {
      var p :| p in allowed && p.Logging?;
      var states, events := EarlyStageBreaksLog(p, allowed);
      assert GatedRun(states, events, allowed);
    }
  }

  /**
    A row that the pipeline moves on while an execution goes on: PENDING_REVIEW or REJECTED hides what is being
    executed.
   */
  lemma DecisionHidesExecution(s: State, allowed: set<Pipeline>) returns (events: seq<Event>, end: State)
    requires s.pipeline.Deciding? && !s.pipeline.c.High? && s.pipeline in allowed
    requires s.executions == map[] && s.row.status.Proposed?
    ensures Leads(s, events, end, allowed) && 0 in end.executions
    ensures end.row.status == if s.pipeline.c.Medium? then PendingReview else Rejected
  {
    events, end := [Approve(0, Ok), Decide(1, Ok)], Apply(Apply(s, Approve(0, Ok)), Decide(1, Ok));
    TwoEvents(s, Approve(0, Ok), Decide(1, Ok), allowed);
  }

  // ----- a guard on the row

  /** A run whose approvals all find the row in one of these states, as a guard of their UPDATE would have it. */
  ghost predicate GuardedRun(states: seq<State>, events: seq<Event>, allowed: set<Status>) {
    && Run(states, events)
    && forall i :: 0 <= i < |events| && events[i].Approve? ==> states[i].row.status in allowed
  }

  ghost predicate GuardKeepsExclusive(allowed: set<Status>) {
    forall states: seq<State>, events: seq<Event> :: GuardedRun(states, events, allowed) ==> Exclusive(states[|events|])
  }

  ghost predicate GuardKeepsOneRow(allowed: set<Status>) {
    forall states: seq<State>, events: seq<Event> :: GuardedRun(states, events, allowed) ==>
      states[|events|].row.mine <= 1
  }

  ghost predicate GuardKeepsLog(allowed: set<Status>) {
    forall states: seq<State>, events: seq<Event> :: GuardedRun(states, events, allowed) ==>
      LogShowsStatus(states[|events|])
  }

  /** One approval, of a row that is still PROPOSED, and the pipeline approves as well. */
  lemma ProposedApproved(allowed: set<Status>) returns (states: seq<State>, events: seq<Event>)
    requires Proposed in allowed
    ensures GuardedRun(states, events, allowed) && states[|events|].row.mine == 2 && !Exclusive(states[|events|])
  {
    var stages := {Deciding(High)};
    var start := State(Row(Proposed, [], 0, 0), Logging(High), map[]);
    var e1, e2 := [LogProposal(Ok), Approve(0, Ok)], [Decide(1, Ok)];
    var s1 := Apply(Apply(start, e1[0]), e1[1]);
    var s2 := Apply(s1, e2[0]);
    TwoEvents(start, e1[0], e1[1], stages);
    assert e2[1..] == [];
    var e3, end := ClaimedTwice(s2, 0, 1, stages);
    LeadsOn(start, e1, s1, e2, s2, stages);
    LeadsOn(start, e1 + e2, s2, e3, end, stages);
    events := e1 + e2 + e3;
    states := LeadsIsRun(start, events, end, stages);
    assert 0 in end.executions && 1 in end.executions;
    forall i | 3 <= i < |events| ensures events[i].Step? {
      assert events[i] == e3[i - 3];
    }
    assert states[1] == Apply(states[0], events[0]);
  }

  /**
    Each promise of the review holds under a guard on the row's status if and only if the guard refuses PROPOSED rows.
   */
  lemma GuardIsSafeIff(allowed: set<Status>)
    ensures GuardKeepsExclusive(allowed) <==> Proposed !in allowed
    ensures GuardKeepsOneRow(allowed) <==> Proposed !in allowed
    ensures GuardKeepsLog(allowed) <==> Proposed !in allowed
  {
    if Proposed in allowed {
      var states, events := ProposedApproved(allowed);
      assert GuardedRun(states, events, allowed);
      var early, two := EarlyStageBreaksLog(Logging(High), {Logging(High)});
      assert GuardedRun(early, two, allowed);
    } else {
      forall states: seq<State>, events: seq<Event> | GuardedRun(states, events, allowed)
        ensures Exclusive(states[|events|]) && states[|events|].row.mine <= 1 && LogShowsStatus(states[|events|])
      {
        RefusingProposedSuffices(states, events, |events|);
      }
    }
  }
}
