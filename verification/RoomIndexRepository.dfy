/**
  The room index as the services change it: read, change, write back under the index lock, and the clean-up of dead
  rooms.
 */
module RoomIndexRepository {
  import opened Names
  import opened Redis
  import opened LeaseValue
  import opened RoomLockService
  import opened RoomStateStore
  import opened RoomIndexProtocol

  /** The list a store holds; a missing key is the empty list. */
  function IndexOf(values: map<StateKey, Value>): seq<RoomId> {
    if RoomIndex in values && values[RoomIndex].Ids? then values[RoomIndex].ids else []
  }

  /** All keys but the index are as before. */
  ghost predicate OnlyIndexChanges(before: Db, after: Db) {
    && after.locks == before.locks && after.fences == before.fences
    && after.values - {RoomIndex} == before.values - {RoomIndex}
  }

  /** The outcome of a section on the index: nothing to do, or what the fenced write comes to. */
  ghost function IndexVerdict(task: Task, lease: Option<Lease>, held: LockKey, db: Db, now: int): Outcome
    requires (task.Adding? || task.Removing?) && task.copy.Some?
  {
    if AlreadyDone(task) then Done else Verdict(lease, held, IndexLock, db, now)
  }

  class RoomIndexRepository {
    const redis: Server
    const stateStore: RoomFencedStateStore

    predicate Valid() {
      stateStore.redis == redis
    }

    constructor (redis: Server)
      ensures Valid() && this.redis == redis
    {
      this.redis := redis;
      stateStore := new RoomFencedStateStore(redis);
    }

    method GetRoomIndexStrict() returns (ids: seq<RoomId>)
      ensures ids == IndexOf(redis.values)
    {
      var stored := redis.Get(RoomIndex);
      return if stored.Some? && stored.value.Ids? then stored.value.ids else [];
    }

    /** The section of `addToIndex` under the lease it was given; `now` is the worker's clock at the write. */
    method AddToIndex(roomId: RoomId, lease: LockLease, now: int) returns (r: Outcome)
      requires Valid()
      modifies redis, lease
      ensures var task := Adding(roomId, Some(IndexOf(old(redis.values))), false);
        && r == IndexVerdict(task, Some(old(lease.Value())), lease.lockKey, old(redis.Contents()), now)
        && IndexOf(redis.values) == if r.Done? && !AlreadyDone(task) then Updated(task) else IndexOf(old(redis.values))
      ensures OnlyIndexChanges(old(redis.Contents()), redis.Contents())
      ensures var ids := IndexOf(old(redis.values));
        IndexOf(redis.values) == if r.Done? && roomId !in ids then ids + [roomId] else ids
    {
      var index := GetRoomIndexStrict();
      if roomId in index {
        return Done;
      }
      index := index + [roomId];
      r := stateStore.WriteSharedState(RoomIndex, Ids(index), IndexLock, lease, now);
    }

    method RemoveFromIndex(roomId: RoomId, lease: LockLease, now: int) returns (r: Outcome)
      requires Valid()
      modifies redis, lease
      ensures var task := Removing(roomId, Some(IndexOf(old(redis.values))), false);
        && r == IndexVerdict(task, Some(old(lease.Value())), lease.lockKey, old(redis.Contents()), now)
        && IndexOf(redis.values) == if r.Done? && !AlreadyDone(task) then Updated(task) else IndexOf(old(redis.values))
      ensures OnlyIndexChanges(old(redis.Contents()), redis.Contents())
      ensures var ids := IndexOf(old(redis.values));
        IndexOf(redis.values) == if r.Done? && roomId in ids then Without(ids, roomId) else ids
    {
      var index := GetRoomIndexStrict();
      if roomId !in index {
        return Done;
      }
      r := stateStore.WriteSharedState(RoomIndex, Ids(Without(index, roomId)), IndexLock, lease, now);
    }
  }

  class RoomIndexReconciler {
    const index: RoomIndexRepository

    constructor (index: RoomIndexRepository)
      ensures this.index == index
    {
      this.index := index;
    }

    /**
      The section under the room's lock: only a room whose record is not there leaves the index. The record is read
      without asking whether the room's lease still holds.
     */
    method ReconcileOne(roomId: RoomId, indexLease: LockLease, now: int) returns (r: Outcome)
      requires index.Valid()
      modifies index.redis, indexLease
      ensures RoomRecord(roomId) in old(index.redis.values) ==>
        r.Done? && index.redis.Contents() == old(index.redis.Contents())
      ensures OnlyIndexChanges(old(index.redis.Contents()), index.redis.Contents())
      ensures var ids := IndexOf(old(index.redis.values));
        IndexOf(index.redis.values) == ids || IndexOf(index.redis.values) == Without(ids, roomId)
      ensures r.Done? && RoomRecord(roomId) !in old(index.redis.values) ==> roomId !in IndexOf(index.redis.values)
    {
      var stored := index.redis.Get(RoomRecord(roomId));
      if stored.Some? {
        return Done;
      }
      r := index.RemoveFromIndex(roomId, indexLease, now);
    }

    /**
      All ids that a listing found without a record, one section each; `leases[i]` and `clock(i)` belong to the i-th.
      No room that has a record leaves the index, nothing else is touched, and nothing is added.
     */
    method PruneStaleEntries(roomIds: seq<RoomId>, leases: seq<LockLease>, clock: nat -> int)
      returns (failed: seq<RoomId>)
      requires index.Valid() && |leases| == |roomIds|
      modifies index.redis, leases
      ensures OnlyIndexChanges(old(index.redis.Contents()), index.redis.Contents())
      ensures forall r :: r in IndexOf(index.redis.values) ==> r in IndexOf(old(index.redis.values))
      ensures forall r :: r in IndexOf(old(index.redis.values)) && r !in IndexOf(index.redis.values) ==>
        r in roomIds && RoomRecord(r) !in old(index.redis.values)
      ensures forall i ::
        0 <= i < |roomIds| && RoomRecord(roomIds[i]) !in old(index.redis.values) && roomIds[i] !in failed ==>
        roomIds[i] !in IndexOf(index.redis.values)
    {
      failed := [];
      for i := 0 to |roomIds|
        invariant OnlyIndexChanges(old(index.redis.Contents()), index.redis.Contents())
        invariant forall r :: r in IndexOf(index.redis.values) ==> r in IndexOf(old(index.redis.values))
        invariant forall r :: r in IndexOf(old(index.redis.values)) && r !in IndexOf(index.redis.values) ==>
          r in roomIds && RoomRecord(r) !in old(index.redis.values)
        invariant forall k ::
          0 <= k < i && RoomRecord(roomIds[k]) !in old(index.redis.values) && roomIds[k] !in failed ==>
          roomIds[k] !in IndexOf(index.redis.values)
      {
        RecordsKept(old(index.redis.Contents()), index.redis.Contents(), roomIds[i]);
        var r := ReconcileOne(roomIds[i], leases[i], clock(i));
        if !r.Done? {
          failed := failed + [roomIds[i]];
        }
      }
    }
  }

  lemma RecordsKept(before: Db, after: Db, r: RoomId)
    requires OnlyIndexChanges(before, after)
    ensures RoomRecord(r) in after.values <==> RoomRecord(r) in before.values
  {
    assert RoomRecord(r) in after.values - {RoomIndex} <==> RoomRecord(r) in after.values;
    assert RoomRecord(r) in before.values - {RoomIndex} <==> RoomRecord(r) in before.values;
  }
}
