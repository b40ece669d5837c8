/** The lease object and the acquire loop of the room lock service. */
module RoomLockService {
  import opened Names
  import opened Redis
  import opened LeaseValue

  const LOCK_ACQUIRE_TIMEOUT_MS: int := 12_000
  const LOCK_REDIS_UNAVAILABLE_BUDGET_MS: int := 1_000
  const LOCK_RETRY_BASE_MS: int := 30

  /** The lease of one critical section; `Value` is what the lock protocol knows of it. */
  class LockLease {
    const lockKey: LockKey
    const token: Token
    const fence: nat
    var lastSuccessfulRenewalAt: int
    var leaseValidUntil: int
    var lostReason: LostReason

    ghost function Value(): Lease
      reads this
    {
      Lease(fence, lastSuccessfulRenewalAt, leaseValidUntil, lostReason)
    }

    constructor (lockKey: LockKey, token: Token, fence: nat, acquiredAt: int)
      ensures Value() == NewLease(fence, acquiredAt)
      ensures this.lockKey == lockKey && this.token == token
    {
      this.lockKey, this.token, this.fence := lockKey, token, fence;
      lastSuccessfulRenewalAt := acquiredAt;
      leaseValidUntil := acquiredAt + LOCK_TTL_MS;
      lostReason := NotLost;
    }

    method IsValid(now: int) returns (valid: bool)
      ensures valid == Value().IsValid(now)
      ensures valid <==> lostReason.NotLost? && now < leaseValidUntil
    {
      return lostReason == NotLost && now < leaseValidUntil;
    }

    method NeedsRenewal(now: int) returns (due: bool)
      ensures due == Value().NeedsRenewal(now)
      ensures due <==> now - lastSuccessfulRenewalAt >= 4_000
    {
      return now - lastSuccessfulRenewalAt >= LOCK_HEARTBEAT_MS;
    }

    method MarkRenewed(sentAt: int)
      modifies this
      ensures Value() == old(Value()).MarkRenewed(sentAt)
      ensures old(lostReason).NotLost? && sentAt > old(lastSuccessfulRenewalAt) ==>
        lostReason.NotLost? && lastSuccessfulRenewalAt == sentAt && leaseValidUntil == sentAt + 8_000
      ensures !old(lostReason).NotLost? || sentAt <= old(lastSuccessfulRenewalAt) ==> Value() == old(Value())
    {
      if lostReason != NotLost || sentAt <= lastSuccessfulRenewalAt {
        return;
      }
      lastSuccessfulRenewalAt := sentAt;
      leaseValidUntil := sentAt + LOCK_TTL_MS;
    }

    /** True only for the call that loses the lease; a lease once lost keeps its first reason. */
    method MarkLost(reason: LostReason) returns (first: bool)
      modifies this
      ensures Value() == old(Value()).MarkLost(reason)
      ensures first == old(lostReason).NotLost?
      ensures lostReason == if first then reason else old(lostReason)
      ensures lastSuccessfulRenewalAt == old(lastSuccessfulRenewalAt) && leaseValidUntil == old(leaseValidUntil)
    {
      if lostReason != NotLost {
        return false;
      }
      lostReason := reason;
      return true;
    }

    /** One tick of the monitor: it may lose the lease, and answers whether to send an extension. */
    method MonitorTick(now: int, renewalInFlight: bool) returns (send: bool)
      modifies this
      ensures send <==> && old(lostReason).NotLost? && now < old(leaseValidUntil)
                        && !renewalInFlight && now - old(lastSuccessfulRenewalAt) >= 4_000
      ensures lostReason ==
        if old(lostReason).NotLost? && now >= old(leaseValidUntil) then LeaseExpired else old(lostReason)
      ensures lastSuccessfulRenewalAt == old(lastSuccessfulRenewalAt) && leaseValidUntil == old(leaseValidUntil)
      ensures send == Monitor(old(Value()), now, renewalInFlight).Renew?
      ensures Value() == if Monitor(old(Value()), now, renewalInFlight).Lose? then old(Value()).MarkLost(LeaseExpired)
        else old(Value())
    {
      if lostReason != NotLost {
        return false;
      }
      var valid := IsValid(now);
      if !valid {
        var _ := MarkLost(LeaseExpired);
        return false;
      }
      var due := NeedsRenewal(now);
      return !renewalInFlight && due;
    }
  }

  /** What the acquire loop meets in one iteration: Redis not connected, an error, or a reply (0 means "held"). */
  datatype Probe = NotReady | CommandError | Reply(fence: nat)

  /**
    One iteration: the clock when the loop looks at its deadline, the clock right before the command would be sent,
    what the iteration meets, and the clock when the command settles.
   */
  datatype Attempt = Attempt(checkedAt: int, startedAt: int, probe: Probe, settledAt: int)
  {
    predicate Unreachable() {
      !probe.Reply?
    }

    /** The clock reading that counts against the budget for an unreachable Redis. */
    function Stamp(): int {
      if probe.NotReady? then startedAt else settledAt
    }
  }

  datatype AcquireResult = Acquired(fence: nat, acquiredAt: int) | LockBusy | RedisUnavailable | LockAcquireTimeout

  /** The attempts `m` to `n` found Redis unreachable, `m` being the first of them in a row. */
  ghost predicate OutageSince(attempts: nat -> Attempt, m: nat, n: nat) {
    && m <= n
    && (forall k :: m <= k <= n ==> attempts(k).Unreachable())
    && (m > 0 ==> attempts(m - 1).probe.Reply?)
  }

  /** The outage that attempt `n` is part of has used up its budget. */
  ghost predicate OutageExhausted(attempts: nat -> Attempt, n: nat) {
    exists m :: OutageSince(attempts, m, n)
      && attempts(n).Stamp() - attempts(m).Stamp() >= LOCK_REDIS_UNAVAILABLE_BUDGET_MS
  }

  ghost predicate Wins(attempts: nat -> Attempt, n: nat) {
    attempts(n).probe.Reply? && attempts(n).probe.fence > 0
  }

  /** Attempt `n` still lies within the budget for a contended lock. */
  ghost predicate InTime(attempts: nat -> Attempt, start: int, n: nat) {
    attempts(n).checkedAt < start + LOCK_ACQUIRE_TIMEOUT_MS
  }

  /** The loop goes on past the attempt `n`. */
  ghost predicate Retries(attempts: nat -> Attempt, start: int, n: nat) {
    InTime(attempts, start, n) && !Wins(attempts, n) && !OutageExhausted(attempts, n)
  }

  /**
    The acquire loop, against any behaviour of Redis and of the clock that respects the delay between retries.
    A success is dated back to the moment before its own attempt was sent, and each failure code is returned
    exactly in its own case. "Busy" also covers attempts that found no connection, as long as no command failed.
   */
  method AcquireLock(attempts: nat -> Attempt, start: int) returns (r: AcquireResult, ghost n: nat)
    requires forall k: nat :: attempts(k).checkedAt + LOCK_RETRY_BASE_MS <= attempts(k + 1).checkedAt
    ensures forall k :: 0 <= k < n ==> Retries(attempts, start, k)
    ensures r.Acquired? <==> InTime(attempts, start, n) && Wins(attempts, n)
    ensures r.Acquired? ==> r.fence == attempts(n).probe.fence && r.acquiredAt == attempts(n).startedAt
    ensures r.Acquired? ==> r.fence > 0
    ensures r.Acquired? ==>
      exists k: nat :: Wins(attempts, k) && r == Acquired(attempts(k).probe.fence, attempts(k).startedAt)
    ensures r.RedisUnavailable? <==> InTime(attempts, start, n) && OutageExhausted(attempts, n)
    ensures r.LockBusy? || r.LockAcquireTimeout? <==> !InTime(attempts, start, n)
    ensures r.LockBusy? ==> forall k :: 0 <= k < n ==> !attempts(k).probe.CommandError?
    ensures r.LockAcquireTimeout? ==> exists k :: 0 <= k < n && attempts(k).probe.CommandError?
  {
    var contentionDeadline := start + LOCK_ACQUIRE_TIMEOUT_MS;
    var unavailableSince: Option<int> := None;
    var commandErrors := 0;
    var i := 0;
    n := 0;
    ghost var first := 0;
    while attempts(i).checkedAt < contentionDeadline
      invariant n == i
      invariant forall k :: 0 <= k < i ==> Retries(attempts, start, k)
      invariant commandErrors >= 0
      invariant commandErrors == 0 <==> forall k :: 0 <= k < i ==> !attempts(k).probe.CommandError?
      invariant unavailableSince.None? <==> i == 0 || attempts(i - 1).probe.Reply?
      invariant unavailableSince.Some? ==>
        OutageSince(attempts, first, i - 1) && unavailableSince.value == attempts(first).Stamp()
      decreases contentionDeadline - attempts(i).checkedAt
    {
      var attempt := attempts(i);
      if attempt.probe.Reply? {
        unavailableSince := None;
        if attempt.probe.fence > 0 {
          assert Wins(attempts, i);
          return Acquired(attempt.probe.fence, attempt.startedAt), n;
        }
      } else {
        if attempt.probe.CommandError? {
          commandErrors := commandErrors + 1;
        }
        if unavailableSince.None? {
          unavailableSince := Some(attempt.Stamp());
          first := i;
        }
        OutageHasOneStart(attempts, first, i);
        if attempt.Stamp() - unavailableSince.value >= LOCK_REDIS_UNAVAILABLE_BUDGET_MS {
          return RedisUnavailable, n;
        }
      }
      i := i + 1;
      n := i;
    }
    r := if commandErrors == 0 then LockBusy else LockAcquireTimeout;
  }

  lemma OutageHasOneStart(attempts: nat -> Attempt, m: nat, n: nat)
    requires OutageSince(attempts, m, n)
    ensures forall k: nat :: OutageSince(attempts, k, n) ==> k == m
  {
    forall k: nat | OutageSince(attempts, k, n) ensures k == m {
      assert k > 0 ==> attempts(k - 1).probe.Reply?;
      assert m > 0 ==> attempts(m - 1).probe.Reply?;
    }
  }
}
