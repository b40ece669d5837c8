/**
  The heartbeat over whole runs of the lock protocol: when a tick of the monitor sends an extension, what Redis answers
  to a holder, and that a lease outlives every outage the intervals of the code are made for.
 */
module LockHeartbeat {
  import opened Names
  import opened Redis
  import opened LeaseValue
  import opened LockProtocol
  import opened LockSafety

  /** The event is a tick that sends an extension. */
  ghost predicate Sends(s: State, e: Event) {
    && e.MonitorTick? && Enabled(s, e)
    && s.sections[e.t].renewal.Idle? && Apply(s, e).sections[e.t].renewal.Sent?
  }

  /** The event is a tick that loses the lease. */
  ghost predicate Loses(s: State, e: Event) {
    && e.MonitorTick? && Enabled(s, e)
    && s.sections[e.t].lease.lost.NotLost? && !Apply(s, e).sections[e.t].lease.lost.NotLost?
  }

  /**
    A tick sends exactly when the lease is held and valid, no extension is under way, and the last renewal is at least
    4000 ms old; it loses the lease exactly when that is over. It dates the extension with its own clock.
   */
  lemma TickDecides(s: State, e: Event)
    requires e.MonitorTick? && Enabled(s, e)
    ensures var c, clock := s.sections[e.t], s.Clock(e.t);
      && (Sends(s, e) <==>
            && c.lease.lost.NotLost? && clock < c.lease.validUntil && c.renewal.Idle?
            && clock - c.lease.lastRenewalAt >= 4_000)
      && (Loses(s, e) <==> c.lease.lost.NotLost? && clock >= c.lease.validUntil)
      && (Sends(s, e) ==> Apply(s, e) == s.With(e.t, c.(renewal := Sent(clock))))
      && (Loses(s, e) ==> Apply(s, e) == s.With(e.t, c.(lease := c.lease.(lost := LeaseExpired))))
      && (!Sends(s, e) && !Loses(s, e) ==> Apply(s, e) == s)
  {
    var c := s.sections[e.t];
    assert s.sections == s.sections[e.t := c];
  }

  /** Redis answers true exactly to the holder, and gives its lock another 8000 ms. */
  lemma ExtensionIsAnswered(s: State, t: Token)
    requires Enabled(s, ExecExtend(t))
    ensures var c, s' := s.sections[t], Apply(s, ExecExtend(t));
      && s'.sections[t].renewal.Replied?
      && (s'.sections[t].renewal.reply <==> c.key in s.db.locks && s.db.locks[c.key].token == t)
      && (s'.sections[t].renewal.reply ==> s'.db.locks == s.db.locks[c.key := LockEntry(t, s.now + 8_000)])
      && (!s'.sections[t].renewal.reply ==> s'.db == s.db)
  {
  }

  /**
    What a section makes of the answer: a renewal counts from its sending, and a denial loses the lease at once, while
    an extension that fails leaves the lease to its end.
   */
  lemma AnswerDecides(s: State, e: Event)
    requires Enabled(s, e) && (e.SettleExtend? || e.FailExtend?) && s.sections[e.t].lease.lost.NotLost?
    ensures var c, after := s.sections[e.t], Apply(s, e).sections[e.t];
      && after.renewal.Idle? && Apply(s, e) == s.With(e.t, after)
      && (e.FailExtend? ==> after.lease == c.lease)
      && (e.SettleExtend? && !c.renewal.reply ==> after.lease == c.lease.(lost := LockNotHeld))
      && (e.SettleExtend? && c.renewal.reply && c.renewal.at > c.lease.lastRenewalAt ==>
            after.lease == c.lease.(lastRenewalAt := c.renewal.at, validUntil := c.renewal.at + 8_000))
      && (e.SettleExtend? && c.renewal.reply && c.renewal.at <= c.lease.lastRenewalAt ==> after.lease == c.lease)
  {
  }

  /** Section `t` runs in all the states from `i` to `j`. */
  ghost predicate RunsOn(states: seq<State>, t: Token, i: nat, j: nat) {
    && i <= j < |states|
    && forall k :: i <= k <= j ==> t in states[k].sections && states[k].sections[t].phase.Running?
  }

  /** The clock of `t` at its last tick since the state `i`, or at `i` when there was none. */
  ghost function LastTick(states: seq<State>, events: seq<Event>, t: Token, i: nat, k: nat): int
    requires RunsOn(states, t, i, k) && k <= |events|
    decreases k
  {
    if k == i then states[i].Clock(t)
    else if events[k - 1] == MonitorTick(t) then states[k - 1].Clock(t)
    else LastTick(states, events, t, i, k - 1)
  }

  /** The heartbeat fell due (4000 ms after the last renewal) less than 3000 ms ago. */
  ghost predicate JustDue(s: State, t: Token)
    requires t in s.sections
  {
    s.Clock(t) - s.sections[t].lease.lastRenewalAt < 4_000 + 3_000
  }

  /**
    What is asked of Redis and of the network at one event: an extension fails, or is still unanswered at a tick, only
    in the first 3000 ms after the heartbeat fell due, and none is executed after the lease it is to extend.
   */
  ghost predicate AnswersInTime(s: State, e: Event, t: Token)
    requires t in s.sections
  {
    && (e == FailExtend(t) ==> JustDue(s, t))
    && (e == MonitorTick(t) && !s.sections[t].renewal.Idle? ==> JustDue(s, t))
    && (e == ExecExtend(t) ==> s.Clock(t) < s.sections[t].lease.validUntil)
  }

  /** The `n`-th event is no tick more than 1000 ms after the last one, and Redis answers in time. */
  ghost predicate InTime(states: seq<State>, events: seq<Event>, t: Token, i: nat, n: nat)
    requires RunsOn(states, t, i, n) && n < |events|
  {
    && (events[n] == MonitorTick(t) ==> states[n].Clock(t) <= LastTick(states, events, t, i, n) + 1_000)
    && AnswersInTime(states[n], events[n], t)
  }

  /** What the heartbeat keeps: the lease, and an extension under way once the outage must be over. */
  ghost predicate Alive(s: State, t: Token, lastTick: int)
    requires t in s.sections
  {
    var c := s.sections[t];
    && c.lease.lost.NotLost?
    && c.lease.validUntil == c.lease.lastRenewalAt + 8_000
    && lastTick <= s.Clock(t) && lastTick < c.lease.validUntil
    && (c.renewal.Idle? ==> lastTick - c.lease.lastRenewalAt < 7_000)
    && (!c.renewal.Idle? ==> c.lease.lastRenewalAt + 4_000 <= c.renewal.at <= lastTick)
    && (c.renewal.Replied? ==> c.renewal.reply)
  }

  lemma TickStaysAlive(s: State, t: Token, lastTick: int)
    requires Enabled(s, MonitorTick(t)) && Alive(s, t, lastTick) && AnswersInTime(s, MonitorTick(t), t)
    requires s.Clock(t) <= lastTick + 1_000
    ensures s.Clock(t) < s.sections[t].lease.validUntil
    ensures Alive(Apply(s, MonitorTick(t)), t, s.Clock(t))
  {
    TickDecides(s, MonitorTick(t));
  }

  /** An extension that is executed while the lease lasts is answered true, because Redis still holds the lock. */
  lemma ExtensionStaysAlive(s: State, t: Token, lastTick: int)
    requires Inv(s) && Enabled(s, ExecExtend(t)) && Alive(s, t, lastTick) && AnswersInTime(s, ExecExtend(t), t)
    requires s.sections[t].phase.Running?
    ensures Alive(Apply(s, ExecExtend(t)), t, lastTick)
  {
    assert SectionInv(s, t);
    ExtensionIsAnswered(s, t);
  }

  lemma OtherStaysAlive(s: State, e: Event, t: Token, lastTick: int)
    requires Enabled(s, e) && t in s.sections && s.sections[t].phase.Running? && Alive(s, t, lastTick)
    requires e != MonitorTick(t) && e != ExecExtend(t) && AnswersInTime(s, e, t)
    requires t in Apply(s, e).sections && Apply(s, e).sections[t].phase.Running?
    requires s.sections[t].acquire.Idle?
    ensures Alive(Apply(s, e), t, lastTick)
  {
  }

  lemma StepStaysAlive(s: State, e: Event, t: Token, lastTick: int)
    requires Inv(s) && Enabled(s, e) && t in s.sections && s.sections[t].phase.Running? && Alive(s, t, lastTick)
    requires t in Apply(s, e).sections && Apply(s, e).sections[t].phase.Running? && AnswersInTime(s, e, t)
    requires e == MonitorTick(t) ==> s.Clock(t) <= lastTick + 1_000
    ensures Alive(Apply(s, e), t, if e == MonitorTick(t) then s.Clock(t) else lastTick)
  {
    assert SectionInv(s, t);
    if e == MonitorTick(t) {
      TickStaysAlive(s, t, lastTick);
    } else if e == ExecExtend(t) {
      ExtensionStaysAlive(s, t, lastTick);
    } else {
      OtherStaysAlive(s, e, t, lastTick);
    }
  }

  lemma OneMoreAlive(states: seq<State>, events: seq<Event>, t: Token, i: nat, k: nat)
    requires i < k <= |events| && RunsOn(states, t, i, k - 1) && RunsOn(states, t, i, k)
    requires Inv(states[k - 1]) && Enabled(states[k - 1], events[k - 1])
    requires states[k] == Apply(states[k - 1], events[k - 1]) && InTime(states, events, t, i, k - 1)
    requires Alive(states[k - 1], t, LastTick(states, events, t, i, k - 1))
    ensures Alive(states[k], t, LastTick(states, events, t, i, k))
  {
    StepStaysAlive(states[k - 1], events[k - 1], t, LastTick(states, events, t, i, k - 1));
  }

  lemma {:induction false} StaysAlive(states: seq<State>, events: seq<Event>, t: Token, i: nat, k: nat)
    requires Run(states, events) && RunsOn(states, t, i, k)
    requires forall n :: i <= n < k ==> InTime(states, events, t, i, n)
    requires Alive(states[i], t, states[i].Clock(t))
    ensures Alive(states[k], t, LastTick(states, events, t, i, k))
    decreases k
  {
    if i < k {
      StaysAlive(states, events, t, i, k - 1);
      RunKeepsInv(states, events, k - 1);
      OneMoreAlive(states, events, t, i, k);
    }
  }

  /** The lease of a section that has not lost it lasts 8000 ms from its last renewal. */
  lemma {:induction false} LeaseLasts(states: seq<State>, events: seq<Event>, i: nat, t: Token)
    requires Run(states, events) && i < |states| && t in states[i].sections && states[i].sections[t].HasLease()
    ensures states[i].sections[t].lease.validUntil == states[i].sections[t].lease.lastRenewalAt + 8_000
  {
    if i > 0 {
      var s, e := states[i - 1], events[i - 1];
      if t in s.sections && s.sections[t].HasLease() {
        LeaseLasts(states, events, i - 1, t);
      }
    }
  }

  /**
    The heartbeat keeps the lease: with ticks at most 1000 ms apart, and extensions that go unanswered for at most
    3000 ms in a row after the heartbeat fell due, every tick finds the lease valid and the lock in Redis, however long
    the section runs.
   */
  lemma HeartbeatKeepsLease(states: seq<State>, events: seq<Event>, t: Token, i: nat, k: nat, j: nat)
    requires Run(states, events) && RunsOn(states, t, i, j) && i <= k < j
    requires states[i].sections[t].lease.lost.NotLost? && states[i].sections[t].renewal.Idle? && JustDue(states[i], t)
    requires forall n :: i <= n < j ==> InTime(states, events, t, i, n)
    ensures states[k].sections[t].lease.lost.NotLost?
    ensures events[k] == MonitorTick(t) ==>
      && states[k].Clock(t) < states[k].sections[t].lease.validUntil
      && states[k].db.HeldBy(states[k].sections[t].key, t)
  {
    LeaseLasts(states, events, i, t);
    StaysAlive(states, events, t, i, k);
    if events[k] == MonitorTick(t) {
      assert InTime(states, events, t, i, k);
      TickStaysAlive(states[k], t, LastTick(states, events, t, i, k));
      ValidLeaseIsConservative(states, events, k, t);
    }
  }

  // ----- not more often than due

  /** No renewal since the sending at `sentAt` is older than it, and none is lost without the lease. */
  ghost predicate RenewedSince(c: Section, sentAt: int) {
    !c.lease.lost.NotLost? || c.lease.lastRenewalAt >= sentAt || (!c.renewal.Idle? && c.renewal.at >= sentAt)
  }

  lemma StepKeepsRenewed(s: State, e: Event, t: Token, sentAt: int)
    requires Enabled(s, e) && t in s.sections && s.sections[t].phase.Running? && e != FailExtend(t)
    requires Inv(s) && RenewedSince(s.sections[t], sentAt) && sentAt <= s.Clock(t)
    ensures t in Apply(s, e).sections && RenewedSince(Apply(s, e).sections[t], sentAt)
  {
    assert SectionInv(s, t);
    if e == MonitorTick(t) {
      TickDecides(s, e);
    }
  }

  lemma ClockNeverFalls(s: State, e: Event, t: Token)
    requires Enabled(s, e) && t in s.sections
    ensures t in Apply(s, e).sections && Apply(s, e).Clock(t) >= s.Clock(t)
  {
  }

  lemma {:induction false} StaysRenewed(states: seq<State>, events: seq<Event>, t: Token, i: nat, k: nat)
    requires Run(states, events) && RunsOn(states, t, i, k) && i < k && Sends(states[i], events[i])
    requires events[i] == MonitorTick(t) && forall n :: i <= n < k ==> events[n] != FailExtend(t)
    ensures RenewedSince(states[k].sections[t], states[i].Clock(t))
    ensures states[i].Clock(t) <= states[k].Clock(t)
    decreases k
  {
    if i + 1 < k {
      StaysRenewed(states, events, t, i, k - 1);
      RunKeepsInv(states, events, k - 1);
      ClockNeverFalls(states[k - 1], events[k - 1], t);
      StepKeepsRenewed(states[k - 1], events[k - 1], t, states[i].Clock(t));
    }
  }

  /** With no extension failing in between, two sendings of a section are at least 4000 ms apart. */
  lemma SendsAreSpaced(states: seq<State>, events: seq<Event>, t: Token, i: nat, j: nat)
    requires Run(states, events) && i < j < |events| && RunsOn(states, t, i, j)
    requires events[i] == MonitorTick(t) && Sends(states[i], events[i])
    requires events[j] == MonitorTick(t) && Sends(states[j], events[j])
    requires forall n :: i <= n < j ==> events[n] != FailExtend(t)
    ensures states[j].Clock(t) - states[i].Clock(t) >= 4_000
  {
    StaysRenewed(states, events, t, i, j);
    TickDecides(states[j], events[j]);
  }
}
