/**
  The review of one ADD_ANSWER action: the pipeline that proposes it, and any number of administrators who approve or
  reject it at once. Every database step is atomic; it succeeds, fails, or commits with its reply lost.
 */
module InquiryReview {
  import opened Names

  datatype Status = Proposed | PendingReview | Approved | Rejected | Executing | Completed | Failed

  datatype Fate = Ok | ReplyLost | Fails

  /** The row, its audit log, the answers this action has inserted, and the equal answers that came from elsewhere. */
  datatype Row = Row(status: Status, log: seq<Status>, mine: nat, others: nat)

  /** Row and log change in one transaction. */
  function Moved(row: Row, to: Status, fate: Fate): Row {
    if fate.Fails? then row else row.(status := to, log := row.log + [to])
  }

  /** The state in which a second approval is refused. */
  predicate Settling(status: Status) {
    status.Approved? || status.Executing? || status.Completed?
  }

  /** Where an execution is: the next thing it does. */
  datatype Phase = Claimed | Checking | Inserting | Recording | Finishing | Failing

  /** One step of an execution: the row after it, and where the execution is then, if it goes on. */
  function StepRow(row: Row, phase: Phase, fate: Fate): (Row, Option<Phase>) {
    match phase
    case Claimed => (Moved(row, Executing, fate), if fate.Ok? then Some(Checking) else None)
    case Checking =>
      (row, if !fate.Ok? then Some(Failing) else if row.mine + row.others > 0 then Some(Recording) else Some(Inserting))
    case Inserting =>
      (if fate.Fails? then row else row.(mine := row.mine + 1), if fate.Ok? then Some(Recording) else Some(Failing))
    case Recording => (Moved(row, Completed, fate), if fate.Ok? then Some(Finishing) else Some(Failing))
    case Finishing => (row, if fate.Ok? then None else Some(Failing))
    case Failing => (Moved(row, Failed, fate), None)
  }

  datatype Confidence = High | Medium | Low

  /** The pipeline has saved the row, then logs the proposal, then decides on it by its confidence. */
  datatype Pipeline = Logging(c: Confidence) | Deciding(c: Confidence) | Done

  datatype State = State(row: Row, pipeline: Pipeline, executions: map<nat, Phase>)

  datatype Event =
    | LogProposal(fate: Fate)
    | Decide(id: nat, fate: Fate)
    | Approve(id: nat, fate: Fate)
    | Reject(fate: Fate)
    | Step(id: nat, fate: Fate)
    | Crash(id: nat)
    | OthersChange(others: nat)

  predicate Enabled(s: State, e: Event) {
    match e
    case LogProposal(_) => s.pipeline.Logging?
    case Decide(id, _) => s.pipeline.Deciding? && id !in s.executions
    case Approve(id, _) => id !in s.executions
    case Reject(_) => true
    case Step(id, _) => id in s.executions
    case Crash(id) => id in s.executions
    case OthersChange(_) => true
  }

  function Verdict(c: Confidence): Status {
    match c
    case High => Approved
    case Medium => PendingReview
    case Low => Rejected
  }

  function Apply(s: State, e: Event): State
    requires Enabled(s, e)
  {
    match e
    case LogProposal(fate) =>
      State(if fate.Fails? then s.row else s.row.(log := s.row.log + [Proposed]),
            if fate.Ok? then Deciding(s.pipeline.c) else Done, s.executions)
    case Decide(id, fate) =>
      State(Moved(s.row, Verdict(s.pipeline.c), fate), Done,
            if s.pipeline.c.High? && fate.Ok? then s.executions[id := Claimed] else s.executions)
    case Approve(id, fate) =>
      if Settling(s.row.status) then s
      else
        s.(row := Moved(s.row, Approved, fate),
           executions := if fate.Ok? then s.executions[id := Claimed] else s.executions)
    case Reject(fate) => if s.row.status.PendingReview? then s.(row := Moved(s.row, Rejected, fate)) else s
    case Step(id, fate) =>
      var (row, next) := StepRow(s.row, s.executions[id], fate);
      s.(row := row, executions := if next.Some? then s.executions[id := next.value] else s.executions - {id})
    case Crash(id) => s.(executions := s.executions - {id})
    case OthersChange(n) => s.(row := s.row.(others := n))
  }

  ghost predicate Init(s: State) {
    s.row == Row(Proposed, [], 0, s.row.others) && s.pipeline.Logging? && s.executions == map[]
  }

  /** No administrator approves before the pipeline has decided. */
  predicate AfterPipeline(s: State, e: Event) {
    e.Approve? ==> s.pipeline.Done?
  }

  ghost predicate Run(states: seq<State>, events: seq<Event>) {
    && |states| == |events| + 1
    && Init(states[0])
    && forall i :: 0 <= i < |events| ==> Enabled(states[i], events[i]) && states[i + 1] == Apply(states[i], events[i])
  }

  /** At most one execution is in flight, and only while the row shows it. */
  ghost predicate OneExecution(s: State) {
    && (forall a, b :: a in s.executions && b in s.executions ==> a == b)
    && (forall a :: a in s.executions ==> Settling(s.row.status))
    && (!s.pipeline.Done? ==> s.executions == map[] && s.row.status.Proposed?)
  }

  /** Only an execution that has found no equal answer is about to insert one, and so at most one is ever inserted. */
  ghost predicate OneAnswer(s: State) {
    && s.row.mine <= 1
    && forall a :: a in s.executions && s.executions[a].Inserting? ==> s.row.mine == 0
  }

  /** The log ends with the status; it is empty only while nothing but the proposal has happened. */
  predicate LogShowsStatus(s: State) {
    if s.row.log == [] then s.row.status.Proposed? else s.row.log[|s.row.log| - 1] == s.row.status
  }

  lemma StepKeepsOneExecution(s: State, e: Event)
    requires OneExecution(s) && Enabled(s, e) && AfterPipeline(s, e)
    ensures OneExecution(Apply(s, e))
  {
  }

  lemma StepKeepsOneAnswer(s: State, e: Event)
    requires OneExecution(s) && OneAnswer(s) && Enabled(s, e)
    ensures OneAnswer(Apply(s, e))
  {
  }

  lemma StepKeepsLog(s: State, e: Event)
    requires LogShowsStatus(s) && Enabled(s, e) && (s.pipeline.Logging? ==> s.row.status.Proposed?)
    ensures LogShowsStatus(Apply(s, e))
  {
  }

  /**
    Over every run in which nobody approves before the pipeline has decided, under any interleaving of approvals,
    rejections, failures, lost replies and crashes: at most one execution is in flight, at most one answer row is ever
    inserted for the action however often it fails and is approved again, and the log ends with the status.
   */
  lemma {:induction false} ReviewIsSafe(states: seq<State>, events: seq<Event>, i: nat)
    requires Run(states, events) && i < |states|
    requires forall k :: 0 <= k < i ==> AfterPipeline(states[k], events[k])
    ensures OneExecution(states[i]) && OneAnswer(states[i]) && LogShowsStatus(states[i])
  {
    if i > 0 {
      ReviewIsSafe(states, events, i - 1);
      StepKeepsOneExecution(states[i - 1], events[i - 1]);
      StepKeepsOneAnswer(states[i - 1], events[i - 1]);
      StepKeepsLog(states[i - 1], events[i - 1]);
    }
  }

  /** As long as the row waits for its review, and until the pipeline has decided, nothing has been executed. */
  predicate Untouched(s: State) {
    !s.pipeline.Done? || s.row.status.PendingReview? ==> s.executions == map[] && s.row.mine == 0
  }

  lemma StepKeepsUntouched(s: State, e: Event)
    requires OneExecution(s) && Untouched(s) && Enabled(s, e) && AfterPipeline(s, e)
    ensures Untouched(Apply(s, e))
  {
  }

  lemma {:induction false} RunKeepsUntouched(states: seq<State>, events: seq<Event>, i: nat)
    requires Run(states, events) && i < |states|
    requires forall k :: 0 <= k < i ==> AfterPipeline(states[k], events[k])
    ensures Untouched(states[i])
  {
    if i > 0 {
      RunKeepsUntouched(states, events, i - 1);
      ReviewIsSafe(states, events, i - 1);
      StepKeepsUntouched(states[i - 1], events[i - 1]);
    }
  }

  /**
    Over every such run, a rejection that takes effect rejects an action of which nothing has been executed: no
    execution is in flight, none ever was, and no answer was inserted for it. Any other rejection changes nothing.
   */
  lemma RejectionFindsNothingExecuted(states: seq<State>, events: seq<Event>, i: nat)
    requires Run(states, events) && i < |events| && events[i].Reject?
    requires forall k :: 0 <= k < i ==> AfterPipeline(states[k], events[k])
    ensures states[i + 1] != states[i] ==> states[i].executions == map[] && states[i].row.mine == 0
    ensures Settling(states[i].row.status) ==> states[i + 1] == states[i]
  {
    RunKeepsUntouched(states, events, i);
  }

  lemma RefusedUntilDecided(states: seq<State>, events: seq<Event>, i: nat)
    requires Run(states, events) && i <= |events|
    requires forall k :: 0 <= k < i && events[k].Approve? ==> !states[k].row.status.Proposed?
    ensures forall k :: 0 <= k < i ==> AfterPipeline(states[k], events[k])
  {
    if i > 0 {
      RefusedUntilDecided(states, events, i - 1);
      ReviewIsSafe(states, events, i - 1);
    }
  }

  /** A guard that can be checked on the row alone: to refuse approvals of a row that is still PROPOSED suffices. */
  lemma RefusingProposedSuffices(states: seq<State>, events: seq<Event>, i: nat)
    requires Run(states, events) && i < |states|
    requires forall k :: 0 <= k < i && events[k].Approve? ==> !states[k].row.status.Proposed?
    ensures OneExecution(states[i]) && OneAnswer(states[i]) && LogShowsStatus(states[i])
  {
    RefusedUntilDecided(states, events, i);
    ReviewIsSafe(states, events, i);
  }

  // ----- one execution that nobody disturbs

  function StepsLeft(phase: Phase): nat {
    match phase
    case Claimed => 6
    case Checking => 5
    case Inserting => 4
    case Recording => 3
    case Finishing => 2
    case Failing => 1
  }

  /** The row after an execution that runs from this phase to its end; `fate(n)` is what becomes of its n-th step. */
  function Executed(row: Row, phase: Phase, fate: nat -> Fate, n: nat): Row
    decreases StepsLeft(phase)
  {
    var (after, next) := StepRow(row, phase, fate(n));
    if next.Some? then Executed(after, next.value, fate, n + 1) else after
  }

  /**
    It ends completed with an equal answer stored, or with its failure recorded, or stuck where a transition failed.
   */
  lemma {:induction false} ExecutedRow(row: Row, phase: Phase, fate: nat -> Fate, n: nat)
    requires phase.Recording? || phase.Finishing? ==> row.mine + row.others > 0
    requires phase.Inserting? ==> row.mine + row.others == 0
    requires phase.Finishing? ==> row.status.Completed?
    ensures var after := Executed(row, phase, fate, n);
      && row.mine <= after.mine <= row.mine + 1 && after.others == row.others
      && (after.mine > row.mine ==> row.mine + row.others == 0)
      && (after.status.Completed? && !row.status.Completed? ==> after.mine + after.others > 0)
      && row.log <= after.log
    decreases StepsLeft(phase)
  {
    var (after, next) := StepRow(row, phase, fate(n));
    if next.Some? {
      ExecutedRow(after, next.value, fate, n + 1);
    }
  }

  /** The check is answered, and an equal answer was found or the insert is answered; `fate(n)` is that of the check. */
  predicate Adds(row: Row, fate: nat -> Fate, n: nat) {
    fate(n).Ok? && (row.mine + row.others > 0 || fate(n + 1).Ok?)
  }

  /** The step after the check and the insert, if there is one. */
  function AfterAdding(row: Row, fate: nat -> Fate, n: nat): nat {
    if fate(n).Ok? && row.mine + row.others == 0 then n + 2 else n + 1
  }

  /** Every step of the execution is answered. */
  predicate Succeeds(row: Row, fate: nat -> Fate, n: nat) {
    var m := AfterAdding(row, fate, n + 1);
    fate(n).Ok? && Adds(row, fate, n + 1) && fate(m).Ok? && fate(m + 1).Ok?
  }

  /** The transition with which an execution that does not succeed ends, if it has begun. */
  function LastTransition(row: Row, fate: nat -> Fate, n: nat): nat {
    var m := AfterAdding(row, fate, n + 1);
    if !Adds(row, fate, n + 1) then m else if !fate(m).Ok? then m + 1 else m + 2
  }

  /**
    How an execution ends that nobody disturbs, in terms of what becomes of its steps. If all are answered, it is
    completed. If one is not, be it the check, the insert, the recording or the end, and the transition after that
    commits, it is failed. A failure whose own transition is lost leaves the row as it was then. An execution whose
    first transition is not answered does nothing more.
   */
  lemma {:induction false} ExecutionEnds(row: Row, fate: nat -> Fate, n: nat)
    ensures var end, last := Executed(row, Claimed, fate, n), LastTransition(row, fate, n);
      && (Succeeds(row, fate, n) ==> end.status.Completed? && end.log == row.log + [Executing, Completed])
      && (fate(n).Ok? && !Succeeds(row, fate, n) && !fate(last).Fails? ==>
            end.status.Failed? && row.log + [Executing] <= end.log && end.log[|end.log| - 1].Failed?)
      && (fate(n).Ok? && !Succeeds(row, fate, n) && fate(last).Fails? ==>
            (end.status.Executing? && end.log == row.log + [Executing])
            || (end.status.Completed? && end.log == row.log + [Executing, Completed]))
      && (fate(n).ReplyLost? ==> end == row.(status := Executing, log := row.log + [Executing]))
      && (fate(n).Fails? ==> end == row)
  {
    if fate(n).Ok? {
      CheckedEnds(row.(status := Executing, log := row.log + [Executing]), fate, n + 1);
      assert row.log + [Executing] + [Completed] == row.log + [Executing, Completed];
    }
  }

  lemma {:induction false} CheckedEnds(row: Row, fate: nat -> Fate, n: nat)
    ensures var end, m := Executed(row, Checking, fate, n), AfterAdding(row, fate, n);
      if !Adds(row, fate, n) then
        if fate(m).Fails? then end.status == row.status && end.log == row.log
        else end.status.Failed? && end.log == row.log + [Failed]
      else
        RecordedEnds(row, fate, m, end)
  {
    var m := AfterAdding(row, fate, n);
    if fate(n).Ok? && row.mine + row.others > 0 {
      RecordingEnds(row, fate, m);
    } else if fate(n).Ok? {
      var added := if fate(n + 1).Fails? then row else row.(mine := row.mine + 1);
      assert Executed(row, Checking, fate, n) == Executed(row, Inserting, fate, n + 1);
      RecordingEnds(added, fate, m);
    }
  }

  /** How an execution ends that has added its answer and whose recording is step `n`. */
  predicate RecordedEnds(row: Row, fate: nat -> Fate, n: nat, end: Row) {
    var recorded := if fate(n).Fails? then row.log else row.log + [Completed];
    if fate(n).Ok? && fate(n + 1).Ok? then end.status.Completed? && end.log == recorded
    else
      var last := if fate(n).Ok? then n + 2 else n + 1;
      if fate(last).Fails? then end.log == recorded && end.status == if fate(n).Fails? then row.status else Completed
      else end.status.Failed? && end.log == recorded + [Failed]
  }

  lemma {:induction false} RecordingEnds(row: Row, fate: nat -> Fate, n: nat)
    ensures RecordedEnds(row, fate, n, Executed(row, Recording, fate, n))
  {
    var recorded := Moved(row, Completed, fate(n));
    if fate(n).Ok? {
      assert Executed(row, Recording, fate, n) == Executed(recorded, Finishing, fate, n + 1);
    } else {
      assert Executed(row, Recording, fate, n) == Executed(recorded, Failing, fate, n + 1);
    }
  }

  // ----- who moves the row where

  /** The event is a step of this phase. */
  predicate StepsFrom(s: State, e: Event, phase: Phase) {
    e.Step? && e.id in s.executions && s.executions[e.id] == phase
  }

  /**
    Every status has its own cause, in all states, reachable or not: the row is approved only by an approval that is not
    refused or by the decision on an action of HIGH confidence; it waits for its review only by the decision on one of
    MEDIUM confidence; it is rejected only by a rejection of a waiting row or by the decision on one of LOW confidence;
    and executing, completed and failed are only ever written by the step of an execution that is there to write it.
   */
  lemma StatusHasCause(s: State, e: Event)
    requires Enabled(s, e) && Apply(s, e).row.status != s.row.status
    ensures match Apply(s, e).row.status
      case Proposed => false
      case PendingReview => e.Decide? && s.pipeline.c.Medium?
      case Approved =>
        || (e.Decide? && s.pipeline.c.High?)
        || (e.Approve? && !s.row.status.Executing? && !s.row.status.Completed?)
      case Rejected => (e.Decide? && s.pipeline.c.Low?) || (e.Reject? && s.row.status.PendingReview?)
      case Executing => StepsFrom(s, e, Claimed)
      case Completed => StepsFrom(s, e, Recording)
      case Failed => StepsFrom(s, e, Failing)
  {
  }

  /** A decision that commits puts the row where its confidence says, and only HIGH confidence executes. */
  lemma DecisionFollowsConfidence(s: State, id: nat, fate: Fate)
    requires Enabled(s, Decide(id, fate))
    ensures var c, s' := s.pipeline.c, Apply(s, Decide(id, fate));
      && (c.High? && !fate.Fails? ==> s'.row.status.Approved?)
      && (c.Medium? && !fate.Fails? ==> s'.row.status.PendingReview?)
      && (c.Low? && !fate.Fails? ==> s'.row.status.Rejected?)
      && (fate.Fails? ==> s'.row == s.row)
      && (id in s'.executions <==> c.High? && fate.Ok?)
  {
  }

  /**
    What an administrator finds: an approval is refused exactly on a row that is approved, executing or completed, so
    that a failed or rejected one can be approved again, and a rejection exactly on one that does not wait for review.
    What is not refused moves the row unless its transaction fails, and only an answered approval executes.
   */
  lemma AdministratorActs(s: State, e: Event)
    requires Enabled(s, e) && (e.Approve? || e.Reject?)
    ensures var status, s' := s.row.status, Apply(s, e);
      && (e.Approve? && (status.Approved? || status.Executing? || status.Completed?) ==> s' == s)
      && (e.Approve? && !status.Approved? && !status.Executing? && !status.Completed? ==>
            && s'.row == (if e.fate.Fails? then s.row else s.row.(status := Approved, log := s.row.log + [Approved]))
            && s'.executions == (if e.fate.Ok? then s.executions[e.id := Claimed] else s.executions))
      && (e.Reject? && !status.PendingReview? ==> s' == s)
      && (e.Reject? && status.PendingReview? && !e.fate.Fails? ==>
            s' == s.(row := s.row.(status := Rejected, log := s.row.log + [Rejected])))
  {
  }

  predicate RejectsWaiting(s: State, e: Event) {
    e.Reject? && s.row.status.PendingReview?
  }

  predicate DecidesOnLow(s: State, e: Event) {
    e.Decide? && s.pipeline == Deciding(Low)
  }

  /** Over every run, a row that is rejected was rejected by an administrator while it waited, or for LOW confidence. */
  lemma {:induction false} RejectionHasCause(states: seq<State>, events: seq<Event>, i: nat)
    requires Run(states, events) && i < |states| && states[i].row.status.Rejected?
    ensures exists k :: 0 <= k < i && (RejectsWaiting(states[k], events[k]) || DecidesOnLow(states[k], events[k]))
  {
    var k := LastMove(states, events, i);
    StatusHasCause(states[k], events[k]);
  }

  /** Over every run, a failed row was failed by an execution, and a completed one was completed by one. */
  lemma {:induction false} OutcomeHasCause(states: seq<State>, events: seq<Event>, i: nat)
    requires Run(states, events) && i < |states|
    ensures states[i].row.status.Failed? ==> exists k :: 0 <= k < i && StepsFrom(states[k], events[k], Failing)
    ensures states[i].row.status.Completed? ==> exists k :: 0 <= k < i && StepsFrom(states[k], events[k], Recording)
  {
    if states[i].row.status.Failed? || states[i].row.status.Completed? {
      var k := LastMove(states, events, i);
      StatusHasCause(states[k], events[k]);
    }
  }

  /** The event that gave the row the status it has. */
  lemma {:induction false} LastMove(states: seq<State>, events: seq<Event>, i: nat) returns (k: nat)
    requires Run(states, events) && i < |states| && !states[i].row.status.Proposed?
    ensures k < i && states[k].row.status != states[i].row.status && states[k + 1].row.status == states[i].row.status
  {
    if states[i - 1].row.status == states[i].row.status {
      k := LastMove(states, events, i - 1);
    } else {
      k := i - 1;
    }
  }

  /** The service on one row, as the source writes it, with `fate(n)` for the n-th database step. */
  class InquiryReview {
    var status: Status
    var log: seq<Status>
    var mine: nat
    var others: nat

    ghost function State(): Row
      reads this
    {
      Row(status, log, mine, others)
    }

    constructor (others: nat)
      ensures State() == Row(Proposed, [], 0, others)
    {
      status, log, mine := Proposed, [], 0;
      this.others := others;
    }

    /**
      `transitionAction`: an UPDATE with its guard, and the log entry, in one transaction. `answered` is false when the
      caller gets an exception, and `affected` says whether the guard let the update through.
     */
    method TransitionAction(to: Status, guardIn: set<Status>, guardNotIn: set<Status>, fate: Fate)
      returns (answered: bool, affected: bool)
      modifies this
      ensures affected <==> (guardIn == {} || old(status) in guardIn) && old(status) !in guardNotIn
      ensures State() == if affected then Moved(old(State()), to, fate) else old(State())
      ensures answered <==> !affected || fate.Ok?
    {
      affected := (guardIn == {} || status in guardIn) && status !in guardNotIn;
      if !affected {
        return true, false;
      }
      if !fate.Fails? {
        status := to;
        log := log + [to];
      }
      answered := fate.Ok?;
    }

    /** Check for an equal answer, and insert one if there is none. */
    method AddAnswer(fate: nat -> Fate, n: nat) returns (ok: bool, used: nat)
      modifies this
      ensures used == if fate(n).Ok? && old(mine) + old(others) == 0 then 2 else 1
      ensures ok <==> fate(n).Ok? && (used == 2 ==> fate(n + 1).Ok?)
      ensures State() == old(State()).(mine := old(mine) + if used == 2 && !fate(n + 1).Fails? then 1 else 0)
    {
      if !fate(n).Ok? {
        return false, 1;
      }
      if mine + others > 0 {
        return true, 1;
      }
      if !fate(n + 1).Fails? {
        mine := mine + 1;
      }
      return fate(n + 1).Ok?, 2;
    }

    /** `executeAndFinish`, with its two catch blocks; true when it returns without an exception. */
    method ExecuteAndFinish(fate: nat -> Fate, n: nat) returns (ok: bool)
      modifies this
      ensures State() == Executed(old(State()), Claimed, fate, n)
      ensures ok <==> Succeeds(old(State()), fate, n)
      ensures ok ==> status.Completed? && mine + others > 0
      ensures fate(n).Ok? && !ok && !fate(LastTransition(old(State()), fate, n)).Fails? ==>
        status.Failed? && log != [] && log[|log| - 1].Failed?
    {
      var answered, affected := TransitionAction(Executing, {}, {}, fate(n));
      if !answered {
        return false;
      }
      ghost var executing := State();
      var added, used := AddAnswer(fate, n + 1);
      var next := n + 1 + used;
      if !added {
        ghost var before := State();
        assert Executed(executing, Checking, fate, n + 1) == Executed(before, Failing, fate, next);
        answered, affected := TransitionAction(Failed, {}, {}, fate(next));
        return false;
      }
      ghost var before := State();
      assert Executed(executing, Checking, fate, n + 1) == Executed(before, Recording, fate, next);
      answered, affected := TransitionAction(Completed, {}, {}, fate(next));
      next := next + 1;
      if answered {
        if fate(next).Ok? {
          return true;
        }
        next := next + 1;
      }
      answered, affected := TransitionAction(Failed, {}, {}, fate(next));
      return false;
    }

    /** `approve`: claim the row against every other approval, and execute only if the claim took effect. */
    method Approve(fate: nat -> Fate) returns (ok: bool)
      modifies this
      ensures Settling(old(status)) ==> !ok && State() == old(State())
      ensures !Settling(old(status)) && !fate(0).Ok? ==> !ok && State() == Moved(old(State()), Approved, fate(0))
      ensures !Settling(old(status)) && fate(0).Ok? ==>
        State() == Executed(Moved(old(State()), Approved, Ok), Claimed, fate, 1)
      ensures ok <==> !Settling(old(status)) && fate(0).Ok? && Succeeds(old(State()), fate, 1)
      ensures ok ==> status.Completed? && mine + others > 0
    {
      var answered, claimed := TransitionAction(Approved, {}, {Approved, Executing, Completed}, fate(0));
      if !answered || !claimed {
        return false;
      }
      ok := ExecuteAndFinish(fate, 1);
    }

    method Reject(fate: Fate) returns (ok: bool)
      modifies this
      ensures State() == if old(status).PendingReview? then Moved(old(State()), Rejected, fate) else old(State())
      ensures ok <==> old(status).PendingReview? && fate.Ok?
    {
      var answered, claimed := TransitionAction(Rejected, {PendingReview}, {}, fate);
      ok := answered && claimed;
    }
  }
}
