/**
  The shared timer queue: a sorted set of members with fire times, polled by any number of instances that read due
  entries, claim them by compare-and-set, run a handler, and clean up only what is still reserved for them.
 */
module RoomTimerProtocol {

  datatype TimerKind = RoundTimeout | SpeedReveal | SpeedNext | DisconnectGrace

  datatype Member = Member(kind: TimerKind, key: nat)

  /** A claimed entry is pushed this far into the future: twice the budget for taking a room lock. */
  const RESERVATION_MS: int := 24_000

  type Timers = map<Member, int>

  /** ZADD: a second schedule of the same member replaces the first. */
  function Scheduled(timers: Timers, m: Member, fireAt: int): Timers {
    timers[m := fireAt]
  }

  /** ZREM, and whether there was an entry. */
  function Cancelled(timers: Timers, m: Member): (Timers, bool) {
    (timers - {m}, m in timers)
  }

  /** Push the entry forward, but only if its score is still the one that was read. */
  function Claimed(timers: Timers, m: Member, score: int, reservedAt: int): (Timers, bool) {
    if m in timers && timers[m] == score then (timers[m := reservedAt], true) else (timers, false)
  }

  /** Remove the entry, but only if it is still reserved by this claim. */
  function Cleaned(timers: Timers, m: Member, reservedAt: int): (Timers, bool) {
    if m in timers && timers[m] == reservedAt then (timers - {m}, true) else (timers, false)
  }

  /** An entry a poller has read as due at its clock reading `now`, and wants to claim. */
  datatype Candidate = Candidate(id: nat, member: Member, score: int, now: int)

  /** A handler run: still going, or finished without an exception and about to clean up. */
  datatype HandlerRun = HandlerRun(member: Member, reservedAt: int, succeeded: bool)

  datatype State = State(timers: Timers, candidates: set<Candidate>, runs: map<nat, HandlerRun>)

  datatype Event =
    | Schedule(m: Member, fireAt: int)
    | Cancel(m: Member)
    | ReadDue(c: Candidate)
    | Claim(c: Candidate)
    | Abandon(c: Candidate)
    | Succeed(run: nat)
    | CleanUp(run: nat)
    | Fail(run: nat)

  predicate Enabled(s: State, e: Event) {
    match e
    case Schedule(_, _) => true
    case Cancel(_) => true
    case ReadDue(c) => c.id !in s.runs && c.member in s.timers && s.timers[c.member] == c.score <= c.now
    case Claim(c) => c in s.candidates && c.id !in s.runs
    case Abandon(c) => c in s.candidates
    case Succeed(r) => r in s.runs && !s.runs[r].succeeded
    case CleanUp(r) => r in s.runs && s.runs[r].succeeded
    case Fail(r) => r in s.runs
  }

  predicate ClaimSucceeds(s: State, e: Event) {
    e.Claim? && e.c.member in s.timers && s.timers[e.c.member] == e.c.score
  }

  /** A failed or crashed handler just stops; its entry stays where the claim pushed it, to be polled again. */
  function Apply(s: State, e: Event): State
    requires Enabled(s, e)
  {
    match e
    case Schedule(m, at) => s.(timers := Scheduled(s.timers, m, at))
    case Cancel(m) => s.(timers := Cancelled(s.timers, m).0)
    case ReadDue(c) => s.(candidates := s.candidates + {c})
    case Claim(c) =>
      var (timers, won) := Claimed(s.timers, c.member, c.score, c.now + RESERVATION_MS);
      State(timers, s.candidates - {c},
            if won then s.runs[c.id := HandlerRun(c.member, c.now + RESERVATION_MS, false)] else s.runs)
    case Abandon(c) => s.(candidates := s.candidates - {c})
    case Succeed(r) => s.(runs := s.runs[r := s.runs[r].(succeeded := true)])
    case CleanUp(r) => State(Cleaned(s.timers, s.runs[r].member, s.runs[r].reservedAt).0, s.candidates, s.runs - {r})
    case Fail(r) => s.(runs := s.runs - {r})
  }

  ghost predicate Run(states: seq<State>, events: seq<Event>) {
    && |states| == |events| + 1
    && states[0] == State(map[], {}, map[])
    && forall i :: 0 <= i < |events| ==> Enabled(states[i], events[i]) && states[i + 1] == Apply(states[i], events[i])
  }

  /** Whoever wants to claim an entry read a score that was due. */
  ghost predicate CandidatesDue(s: State) {
    forall c :: c in s.candidates ==> c.score <= c.now
  }

  lemma {:induction false} RunKeepsCandidatesDue(states: seq<State>, events: seq<Event>, i: nat)
    requires Run(states, events) && i < |states|
    ensures CandidatesDue(states[i])
  {
    if i > 0 {
      RunKeepsCandidatesDue(states, events, i - 1);
    }
  }

  /** The event removes `m`: a cancel, or the clean-up of a successful run that still owns the reservation. */
  predicate Removes(s: State, e: Event, m: Member) {
    || e == Cancel(m)
    || (e.CleanUp? && e.run in s.runs && s.runs[e.run].member == m && s.runs[e.run].succeeded
        && m in s.timers && s.timers[m] == s.runs[e.run].reservedAt)
  }

  /** An entry leaves the set exactly when it is cancelled, or cleaned up after a successful run that still owns it. */
  lemma EntryLeavesIffRemoved(s: State, e: Event, m: Member)
    requires Enabled(s, e) && m in s.timers
    ensures m !in Apply(s, e).timers <==> Removes(s, e, m)
  {
  }

  /** Timers are never lost: an entry that was there and no longer is has been cancelled or cleaned up in between. */
  lemma {:induction false} NoTimerIsLost(states: seq<State>, events: seq<Event>, i: nat, j: nat, m: Member)
    requires Run(states, events) && i <= j < |states|
    requires m in states[i].timers && m !in states[j].timers
    ensures exists k :: i <= k < j && Removes(states[k], events[k], m)
    decreases j - i
  {
    EntryLeavesIffRemoved(states[i], events[i], m);
    if m in states[i + 1].timers {
      NoTimerIsLost(states, events, i + 1, j, m);
    }
  }

  /** Without a schedule in between, the score of an entry only grows while the entry is there. */
  lemma {:induction false} ScoresOnlyGrow(states: seq<State>, events: seq<Event>, i: nat, j: nat, m: Member)
    requires Run(states, events) && i <= j < |states| && m in states[j].timers
    requires forall k :: i <= k < j ==> !(events[k].Schedule? && events[k].m == m)
    ensures m in states[i].timers && states[i].timers[m] <= states[j].timers[m]
    decreases j
  {
    if i < j {
      RunKeepsCandidatesDue(states, events, j - 1);
      ScoresOnlyGrow(states, events, i, j - 1, m);
    }
  }

  /** Of all the pollers that read one entry with one score, at most one claims it, unless it is scheduled anew. */
  lemma NoDoubleClaim(states: seq<State>, events: seq<Event>, i: nat, j: nat)
    requires Run(states, events) && i < j < |events|
    requires ClaimSucceeds(states[i], events[i]) && ClaimSucceeds(states[j], events[j])
    requires events[i].c.member == events[j].c.member && events[i].c.score == events[j].c.score
    ensures exists k :: i < k < j && events[k].Schedule? && events[k].m == events[i].c.member
  {
    var m := events[i].c.member;
    if forall k :: i < k < j ==> !(events[k].Schedule? && events[k].m == m) {
      RunKeepsCandidatesDue(states, events, i);
      ScoresOnlyGrow(states, events, i + 1, j, m);
      assert states[i + 1].timers[m] > events[i].c.score;
    }
  }

  /** The member of an event that touches the timer set. */
  predicate Touches(s: State, e: Event, m: Member) {
    match e
    case Schedule(x, _) => x == m
    case Cancel(x) => x == m
    case Claim(c) => c.member == m
    case CleanUp(r) => r in s.runs && s.runs[r].member == m
    case _ => false
  }

  /**
    A reschedule while the handler runs survives that handler's clean-up exactly when its fire time differs from the
    time the claim had reserved.
   */
  lemma {:induction false} RescheduleSurvivesIff(states: seq<State>, events: seq<Event>, i: nat, j: nat, m: Member)
    requires Run(states, events) && i < j < |events|
    requires events[i].Schedule? && events[i].m == m
    requires events[j].CleanUp? && states[j].runs[events[j].run].member == m
    requires forall k :: i < k < j ==> !Touches(states[k], events[k], m)
    ensures m in states[j + 1].timers <==> events[i].fireAt != states[j].runs[events[j].run].reservedAt
    ensures m in states[j + 1].timers ==> states[j + 1].timers[m] == events[i].fireAt
  {
    Untouched(states, events, i + 1, j, m);
  }

  lemma {:induction false} Untouched(states: seq<State>, events: seq<Event>, i: nat, j: nat, m: Member)
    requires Run(states, events) && i <= j < |states| && m in states[i].timers
    requires forall k :: i <= k < j ==> !Touches(states[k], events[k], m)
    ensures m in states[j].timers && states[j].timers[m] == states[i].timers[m]
    decreases j
  {
    if i < j {
      Untouched(states, events, i, j - 1, m);
    }
  }

  /**
    What a claim has won comes back: until it is touched again, and so also when its handler fails or its instance dies,
    the entry is due 24 seconds after the claim.
   */
  lemma ClaimedEntryComesBack(states: seq<State>, events: seq<Event>, i: nat, j: nat, c: Candidate)
    requires Run(states, events) && i < j < |states|
    requires events[i] == Claim(c) && c.member in states[i].timers && states[i].timers[c.member] == c.score
    requires forall k :: i < k < j ==> !Touches(states[k], events[k], c.member)
    ensures c.member in states[j].timers && states[j].timers[c.member] == c.now + 24_000
  {
    Untouched(states, events, i + 1, j, c.member);
  }

  /** A claim by a poller whose reading is still right succeeds, and the handler runs under its own reservation. */
  lemma ClaimOfFreshReadingWins(s: State, c: Candidate)
    requires Enabled(s, Claim(c)) && c.member in s.timers && s.timers[c.member] == c.score
    ensures c.id in Apply(s, Claim(c)).runs
    ensures Apply(s, Claim(c)).runs[c.id] == HandlerRun(c.member, Apply(s, Claim(c)).timers[c.member], false)
  {
  }
}
