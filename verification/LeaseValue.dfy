/** The lease a critical section holds on its lock, as a value. */
module LeaseValue {
  import opened Redis

  /** A heartbeat is due this long after the last successful renewal. */
  const LOCK_HEARTBEAT_MS: int := LOCK_TTL_MS / 2

  datatype LostReason = NotLost | LeaseExpired | LockNotHeld

  datatype Lease = Lease(fence: nat, lastRenewalAt: int, validUntil: int, lost: LostReason)
  {
    predicate IsValid(now: int) {
      lost.NotLost? && now < validUntil
    }

    predicate NeedsRenewal(now: int) {
      now - lastRenewalAt >= LOCK_HEARTBEAT_MS
    }

    /** A renewal sent at `sentAt` succeeded: count from the sending, which is never after the execution. */
    function MarkRenewed(sentAt: int): Lease {
      if !lost.NotLost? || sentAt <= lastRenewalAt then
        this
      else
        this.(lastRenewalAt := sentAt, validUntil := sentAt + LOCK_TTL_MS)
    }

    function MarkLost(reason: LostReason): Lease {
      if lost.NotLost? then this.(lost := reason) else this
    }
  }

  function NewLease(fence: nat, acquiredAt: int): Lease {
    Lease(fence, acquiredAt, acquiredAt + LOCK_TTL_MS, NotLost)
  }

  /** What one tick of the lease monitor decides. */
  datatype MonitorAction = Nothing | Lose | Renew

  function Monitor(lease: Lease, now: int, renewalInFlight: bool): MonitorAction {
    if !lease.lost.NotLost? then Nothing
    else if !lease.IsValid(now) then Lose
    else if renewalInFlight || !lease.NeedsRenewal(now) then Nothing
    else Renew
  }
}
