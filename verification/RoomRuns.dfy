/**
  Whole runs of one room. Requests and timers take the room's lock one after the other, and each runs to its end or
  is cut short by a failure after any of its writes, or after any part of the writes it had issued together.
 */
module RoomRuns {
  import opened Names
  import opened RoomModel
  import opened RoomInvariants
  import opened RoomRequests

  /**
    The stages lead from `d` to `d'`: `complete`, or until a failure, which may leave a stage with only some of its
    writes and may also come after the last of them.
   */
  ghost predicate Ran(d: Data, stages: seq<Stage>, d': Data, complete: bool)
    decreases stages
  {
    if stages == [] then
      d' == d
    else
      || (!complete && exists landed: seq<Landing> :: |landed| == |stages[0]| && d' == RunPart(d, stages[0], landed))
      || Ran(RunStage(d, stages[0]), stages[1..], d', complete)
  }

  datatype Step = Step(request: Request, complete: bool)

  ghost predicate StepsTo(d: Data, step: Step, d': Data) {
    Admissible(d, step.request) && Ran(d, PlanOf(d, step.request).stages, d', step.complete)
  }

  ghost predicate StepAt(states: seq<Data>, steps: seq<Step>, i: nat)
    requires i < |steps| && |states| == |steps| + 1
  {
    StepsTo(states[i], steps[i], states[i + 1])
  }

  ghost predicate Run(states: seq<Data>, steps: seq<Step>) {
    && |states| == |steps| + 1
    && states[0] == Data(None, None, None, None, None)
    && forall i :: 0 <= i < |steps| ==> StepAt(states, steps, i)
  }

  lemma {:induction false} RanKeepsGood(d: Data, stages: seq<Stage>, d': Data, complete: bool)
    requires KeepsGood(d, stages) && Ran(d, stages, d', complete)
    ensures GoodData(d')
    ensures complete ==> d' == RunStages(d, stages)
    decreases stages
  {
    if stages != [] && Ran(RunStage(d, stages[0]), stages[1..], d', complete) {
      RanKeepsGood(RunStage(d, stages[0]), stages[1..], d', complete);
    }
  }

  lemma StepKeepsGood(d: Data, step: Step, d': Data)
    requires GoodData(d) && StepsTo(d, step, d')
    ensures GoodData(d')
  {
    RequestKeepsGood(d, step.request);
    RanKeepsGood(d, PlanOf(d, step.request).stages, d', step.complete);
  }

  /** In every state of every run, the room and the documents around it are good, whatever failed so far. */
  lemma {:induction false} RunIsGood(states: seq<Data>, steps: seq<Step>, i: nat)
    requires Run(states, steps) && i < |states|
    ensures GoodData(states[i])
  {
    if i > 0 {
      RunIsGood(states, steps, i - 1);
      assert StepAt(states, steps, i - 1);
      StepKeepsGood(states[i - 1], steps[i - 1], states[i]);
    }
  }

  // ----- the commit point

  /** Writes to other keys, then one save of the room, then nothing but timer commands. */
  predicate CommitShape(stages: seq<Stage>)
    decreases stages
  {
    || stages == []
    || (SavesNoRoom(stages[0]) && CommitShape(stages[1..]))
    || (|stages[0]| == 1 && stages[0][0].SaveRoom? && TimersOnly(stages[1..]))
  }

  /** The room that the stages save. */
  function SavedRoom(stages: seq<Stage>): Option<Room>
    decreases stages
  {
    if stages == [] then None
    else if |stages[0]| == 1 && stages[0][0].SaveRoom? then Some(stages[0][0].room)
    else SavedRoom(stages[1..])
  }

  lemma {:induction false} TimersRan(d: Data, timers: seq<Stage>, d': Data, complete: bool)
    requires TimersOnly(timers)
    ensures RunStages(d, timers) == d
    ensures Ran(d, timers, d', complete) ==> d' == d
    decreases timers
  {
    if timers != [] {
      assert timers[0] == [timers[0][0]];
      OneWriteStage(d, timers[0][0]);
      TimersRan(d, timers[1..], d', complete);
    }
  }

  /**
    The room record is the commit point: a request that is cut short has left it as it was, or has had its whole
    effect.
   */
  lemma {:induction false} CommitPoint(d: Data, stages: seq<Stage>, d': Data, complete: bool)
    requires CommitShape(stages) && Ran(d, stages, d', complete)
    ensures d'.room == d.room || d' == RunStages(d, stages)
    ensures complete ==> d' == RunStages(d, stages)
    ensures RunStages(d, stages).room == if SavedRoom(stages).Some? then SavedRoom(stages) else d.room
    decreases stages
  {
    if stages == [] {
    } else if SavesNoRoom(stages[0]) && CommitShape(stages[1..]) {
      NotYetCommitted(d, stages, d', complete);
    } else {
      var saved := ExecData(d, stages[0][0]);
      assert stages[0] == [stages[0][0]];
      OneWriteStage(d, stages[0][0]);
      TimersRan(saved, stages[1..], d', complete);
    }
  }

  lemma {:induction false} NotYetCommitted(d: Data, stages: seq<Stage>, d': Data, complete: bool)
    requires stages != [] && SavesNoRoom(stages[0]) && CommitShape(stages[1..]) && Ran(d, stages, d', complete)
    ensures d'.room == d.room || d' == RunStages(d, stages)
    ensures complete ==> d' == RunStages(d, stages)
    ensures RunStages(d, stages).room == if SavedRoom(stages).Some? then SavedRoom(stages) else d.room
    decreases stages, 0
  {
    var d1 := RunStage(d, stages[0]);
    StageKeepsRoom(d, stages[0]);
    RunsToSomewhere(d1, stages[1..]);
    if Ran(d1, stages[1..], d', complete) {
      CommitPoint(d1, stages[1..], d', complete);
    } else {
      var landed: seq<Landing> :| |landed| == |stages[0]| && d' == RunPart(d, stages[0], landed);
      PartKeepsRoom(d, stages[0], landed);
      CommitPoint(d1, stages[1..], RunStages(d1, stages[1..]), true);
    }
  }

  lemma {:induction false} RunsToSomewhere(d: Data, stages: seq<Stage>)
    ensures Ran(d, stages, RunStages(d, stages), true)
    decreases stages
  {
    if stages != [] {
      RunsToSomewhere(RunStage(d, stages[0]), stages[1..]);
    }
  }
}
