/** Over whole runs: a round begins once everybody who takes part has reported to be ready. */
module RoomReadiness {
  import opened RoomModel
  import opened RoomInvariants
  import opened RoomRuns
  import opened RoomCommits
  import opened RoomWorldRetry
  import opened RoomOutcomes
  import opened RoomMembership
  import opened RoomGameOutcomes
  import opened RoomChat
  import opened RoomRefusals

  predicate IsLoading(d: Data) {
    d.room.Some? && d.room.value.gameStatus.Loading? && d.room.value.currentRound.Some?
  }

  function Ready(d: Data): seq<UserId>
    requires IsLoading(d)
  {
    d.room.value.currentRound.value.readyUserIds
  }

  /** What a user's part in the ready list can come to in one step. */
  ghost predicate ReadyStep(d: Data, r: Request, d': Data)
    requires IsLoading(d)
  {
    d'.room.Some? ==>
      if IsLoading(d') then
        && (forall u :: u in Ready(d) && !(r.Leave? && r.userId == u) ==> u in Ready(d'))
        && (r.MarkReady? ==> r.userId in Ready(d'))
      else d'.room.value.gameStatus.Playing?
  }

  lemma OthersStay(was: seq<UserId>, u: UserId, after: seq<UserId>)
    requires Dropped(was, u, after)
    ensures forall x :: x in was && x != u ==> x in after
  {
    forall x | x in was && x != u ensures x in after {
      assert x in multiset(was);
      assert x in multiset(after);
    }
  }

  lemma LeaveReady(w: World, r: Request, w': World)
    requires IsLoading(w.data) && r.Leave? && CompletesWorld(w, r, w')
    ensures ReadyStep(w.data, r, w'.data)
  {
    var room := w.data.room.value;
    LeaveOutcome(w, room, r.userId, r.now, r.lost, w');
    if |room.participants| != 1 {
      var i: nat, left: Room :| LeftAs(room, r.userId, i, left) && AfterLeaving(w, left, r.now, r.lost, w');
      OthersStay(room.currentRound.value.readyUserIds, r.userId, left.currentRound.value.readyUserIds);
    }
  }

  lemma CompleteReady(w: World, r: Request, w': World)
    requires IsLoading(w.data) && Admissible(w.data, r) && CompletesWorld(w, r, w')
    ensures ReadyStep(w.data, r, w'.data)
  {
    var room := w.data.room.value;
    match r
    case Join(u, account, matches) => JoinOutcome(w, room, u, account, matches, w');
    case Leave(_, _, _) => LeaveReady(w, r, w');
    case Update(_, _, _, _, _, _, _, _) => UpdateOutcome(w, room, r, w');
    case Start(_, _, _) => StartOutcome(w, room, r, w');
    case Restart(_, _, _) => RestartOutcome(w, room, r, w');
    case MarkReady(u, now) => MarkReadyOutcome(w, room, u, now, w');
    case Next(_, _) => NextOutcome(w, room, r, w');
    case Submit(u, message, now, lost) => SubmitOutcome(w, room, u, message, now, lost, w');
    case RequestSkip(u, now, lost) => RequestSkipOutcome(w, room, u, now, lost, w');
    case ForceSkip(u, now) => ForceSkipOutcome(w, room, u, now, w');
    case SpeedNextFired => SpeedNextOutcome(w, room, w');
    case RoundTimeoutFired(_, _) => TimeUpOutcome(w, room, r, w');
    case SpeedRevealFired(_, _) => TimeUpOutcome(w, room, r, w');
    case Create(_, _, _, _, _, _, _, _) =>
  }

  /** A step of the room, complete or not, keeps who is ready and still there, and a complete report adds to them. */
  lemma StepKeepsReady(d: Data, step: Step, d': Data)
    requires GoodData(d) && IsLoading(d) && StepsTo(d, step, d')
    ensures (d'.room == d.room && !(step.complete && step.request.MarkReady?)) || ReadyStep(d, step.request, d')
  {
    var r := step.request;
    RequestCommits(d, step, d');
    if d'.room.Some? && (d'.room != d.room || step.complete) && !DeletesRoom(d, r) {
      var w := World(d, map[]);
      RunWorldIsCarried(w, PlanOf(d, r).stages);
      if PlanOf(d, r).refusal.Some? {
        RefusedChangesNoRoom(w, r, RunWorld(w, PlanOf(d, r).stages));
      } else {
        CompleteReady(w, r, RunWorld(w, PlanOf(d, r).stages));
      }
    }
  }

  /** Between `i` and `j` a report of this user completed, and the user has not left since. */
  ghost predicate Reported(steps: seq<Step>, u: UserId, i: nat, j: nat)
    requires i <= j <= |steps|
  {
    exists k :: i <= k < j && ReportsAt(steps, u, k) && forall m :: k < m < j ==> !LeavesAt(steps, u, m)
  }

  predicate ReportsAt(steps: seq<Step>, u: UserId, k: nat)
    requires k < |steps|
  {
    steps[k].complete && steps[k].request.MarkReady? && steps[k].request.userId == u
  }

  predicate LeavesAt(steps: seq<Step>, u: UserId, k: nat)
    requires k < |steps|
  {
    steps[k].request.Leave? && steps[k].request.userId == u
  }

  ghost predicate LoadsFrom(states: seq<Data>, i: nat, j: nat) {
    i <= j < |states| && forall k :: i <= k <= j ==> IsLoading(states[k])
  }

  lemma {:induction false} StaysReady(states: seq<Data>, steps: seq<Step>, u: UserId, i: nat, j: nat)
    requires Run(states, steps) && LoadsFrom(states, i, j) && Reported(steps, u, i, j)
    ensures u in Ready(states[j])
    decreases j
  {
    var k :| i <= k < j && ReportsAt(steps, u, k) && forall m :: k < m < j ==> !LeavesAt(steps, u, m);
    RunIsGood(states, steps, j - 1);
    assert StepAt(states, steps, j - 1);
    StepKeepsReady(states[j - 1], steps[j - 1], states[j]);
    if k < j - 1 {
      assert !LeavesAt(steps, u, j - 1);
      StaysReady(states, steps, u, i, j - 1);
    }
  }

  lemma LoadsOrPlays(states: seq<Data>, steps: seq<Step>, k: nat)
    requires Run(states, steps) && k < |steps| && IsLoading(states[k]) && states[k + 1].room.Some?
    ensures IsLoading(states[k + 1]) || states[k + 1].room.value.gameStatus.Playing?
  {
    RunIsGood(states, steps, k);
    assert StepAt(states, steps, k);
    StepKeepsReady(states[k], steps[k], states[k + 1]);
  }

  /** In a good loading room somebody is not ready. */
  lemma SomebodyIsMissing(d: Data) returns (u: UserId)
    requires GoodData(d) && IsLoading(d)
    ensures u !in Ready(d) && exists p :: p in d.room.value.participants && p.userId == u
  {
    var ps := d.room.value.participants;
    var n :| 0 <= n < |ps| && ps[n].userId !in Ready(d);
    assert ps[n] in ps;
    u := ps[n].userId;
  }

  /**
    When every participant's report has completed while the round is loading, and none of them has left after it, the
    round is being played: in any order, with repetitions and failures, and with any other requests in between, joins
    and departures included.
   */
  lemma ReadyRoundBegins(states: seq<Data>, steps: seq<Step>, i: nat, j: nat)
    requires Run(states, steps) && i < j < |states| && LoadsFrom(states, i, j - 1) && states[j].room.Some?
    requires forall p :: p in states[j].room.value.participants ==> Reported(steps, p.userId, i, j)
    ensures states[j].room.value.gameStatus.Playing?
  {
    LoadsOrPlays(states, steps, j - 1);
    if IsLoading(states[j]) {
      RunIsGood(states, steps, j);
      var u := SomebodyIsMissing(states[j]);
      StaysReady(states, steps, u, i, j);
    }
  }
}
