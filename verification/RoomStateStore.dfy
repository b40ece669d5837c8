/** The single path by which shared room state is written: lease check, scope check, fenced command. */
module RoomStateStore {
  import opened Names
  import opened Redis
  import opened LeaseValue
  import opened RoomLockService

  datatype Outcome = Done | LeaseLost | ScopeMismatch | StaleFence

  /** What a write or delete must come to, given the ambient lease (if any) and the clock. */
  ghost function Verdict(lease: Option<Lease>, held: LockKey, expected: LockKey, db: Db, now: int): Outcome {
    match lease
    case None => Done
    case Some(l) =>
      if !l.IsValid(now) then LeaseLost
      else if held != expected then ScopeMismatch
      else if db.Latest(held) > l.fence then StaleFence
      else Done
  }

  ghost function View(lease: LockLease?): Option<Lease>
    reads lease
  {
    if lease == null then None else Some(lease.Value())
  }

  class RoomFencedStateStore {
    const redis: Server

    constructor (redis: Server)
      ensures this.redis == redis
    {
      this.redis := redis;
    }

    /** The last line of defence before a write. Outside any lock there is nothing to check. */
    method AssertLeaseHeld(lease: LockLease?, now: int) returns (held: bool)
      modifies lease
      ensures held <==> lease == null || (old(lease.lostReason).NotLost? && now < old(lease.leaseValidUntil))
      ensures lease != null ==>
        lease.Value() == if held then old(lease.Value()) else old(lease.Value()).MarkLost(LeaseExpired)
    {
      if lease == null {
        return true;
      }
      held := lease.IsValid(now);
      if !held {
        var _ := lease.MarkLost(LeaseExpired);
      }
    }

    /**
      Nothing changes unless the operation is done, and a lease found invalid is lost for good. The four outcomes
      follow from the lease, its lock, and the newest token of that lock.
     */
    method WriteSharedState(key: StateKey, value: Value, expectedLock: LockKey, lease: LockLease?, now: int)
      returns (r: Outcome)
      modifies redis, lease
      ensures r == Verdict(old(View(lease)), if lease == null then expectedLock else lease.lockKey,
                           expectedLock, old(redis.Contents()), now)
      ensures r.LeaseLost? <==> lease != null && !(old(lease.lostReason).NotLost? && now < old(lease.leaseValidUntil))
      ensures r.ScopeMismatch? <==> !r.LeaseLost? && lease != null && lease.lockKey != expectedLock
      ensures r.StaleFence? <==>
        && !r.LeaseLost? && !r.ScopeMismatch? && lease != null
        && expectedLock in old(redis.fences) && old(redis.fences)[expectedLock] > lease.fence
      ensures redis.Contents() ==
        old(redis.Contents()).(values := if r.Done? then old(redis.values)[key := value] else old(redis.values))
      ensures lease != null ==>
        lease.Value() == if r.LeaseLost? then old(lease.Value()).MarkLost(LeaseExpired) else old(lease.Value())
    {
      var held := AssertLeaseHeld(lease, now);
      if !held {
        return LeaseLost;
      }
      if lease == null {
        redis.Set(key, value);
        return Done;
      }
      if lease.lockKey != expectedLock {
        return ScopeMismatch;
      }
      var accepted := redis.EvalFencedSet(lease.lockKey, lease.fence, key, value);
      return if accepted then Done else StaleFence;
    }

    method DeleteSharedState(key: StateKey, expectedLock: LockKey, lease: LockLease?, now: int) returns (r: Outcome)
      modifies redis, lease
      ensures r == Verdict(old(View(lease)), if lease == null then expectedLock else lease.lockKey,
                           expectedLock, old(redis.Contents()), now)
      ensures r.LeaseLost? <==> lease != null && !(old(lease.lostReason).NotLost? && now < old(lease.leaseValidUntil))
      ensures r.ScopeMismatch? <==> !r.LeaseLost? && lease != null && lease.lockKey != expectedLock
      ensures r.StaleFence? <==>
        && !r.LeaseLost? && !r.ScopeMismatch? && lease != null
        && expectedLock in old(redis.fences) && old(redis.fences)[expectedLock] > lease.fence
      ensures redis.Contents() ==
        old(redis.Contents()).(values := if r.Done? then old(redis.values) - {key} else old(redis.values))
      ensures lease != null ==>
        lease.Value() == if r.LeaseLost? then old(lease.Value()).MarkLost(LeaseExpired) else old(lease.Value())
    {
      var held := AssertLeaseHeld(lease, now);
      if !held {
        return LeaseLost;
      }
      if lease == null {
        redis.Del(key);
        return Done;
      }
      if lease.lockKey != expectedLock {
        return ScopeMismatch;
      }
      var accepted := redis.EvalFencedDel(lease.lockKey, lease.fence, key);
      return if accepted then Done else StaleFence;
    }
  }
}
