/** The Redis server as the room services see it: locks, fencing counters, values, and the Lua scripts on them. */
module Redis {
  import opened Names

  /** Time to live of a lock, in milliseconds. */
  const LOCK_TTL_MS: int := 8_000

  datatype LockEntry = LockEntry(token: Token, expiresAt: int)

  /**
    Redis drops a key at some moment that is not before its `expiresAt`. Expiry is therefore a separate
    event, and the scripts below only ask whether the key is there.
   */
  datatype Db = Db(
    locks: map<LockKey, LockEntry>,
    fences: map<LockKey, nat>,
    values: map<StateKey, Value>)
  {
    /** The last fencing token issued for a lock, 0 when none was. */
    function Latest(key: LockKey): nat {
      if key in fences then fences[key] else 0
    }

    predicate HeldBy(key: LockKey, token: Token) {
      key in locks && locks[key].token == token
    }
  }

  /** SET NX, and only on success INCR of the fencing counter. The reply 0 means "held". */
  function Acquire(db: Db, key: LockKey, token: Token, now: int): (Db, nat) {
    if key in db.locks then
      (db, 0)
    else
      var fence := db.Latest(key) + 1;
      (db.(locks := db.locks[key := LockEntry(token, now + LOCK_TTL_MS)], fences := db.fences[key := fence]), fence)
  }

  function Extend(db: Db, key: LockKey, token: Token, now: int): (Db, bool) {
    if db.HeldBy(key, token) then
      (db.(locks := db.locks[key := LockEntry(token, now + LOCK_TTL_MS)]), true)
    else
      (db, false)
  }

  function Release(db: Db, key: LockKey, token: Token): (Db, bool) {
    if db.HeldBy(key, token) then (db.(locks := db.locks - {key}), true) else (db, false)
  }

  /** Stores a value, or removes the key when there is none to store. */
  function Put(values: map<StateKey, Value>, key: StateKey, value: Option<Value>): map<StateKey, Value> {
    match value
    case Some(v) => values[key := v]
    case None => values - {key}
  }

  /** The fenced set (`Some`) and the fenced delete (`None`): refused once a newer token was issued. */
  function FencedPut(db: Db, guard: LockKey, fence: nat, key: StateKey, value: Option<Value>): (Db, bool) {
    if db.Latest(guard) > fence then (db, false) else (db.(values := Put(db.values, key, value)), true)
  }

  /** The server itself; every method is one command or one script, executed atomically. */
  class Server {
    var locks: map<LockKey, LockEntry>
    var fences: map<LockKey, nat>
    var values: map<StateKey, Value>

    ghost function Contents(): Db
      reads this
    {
      Db(locks, fences, values)
    }

    constructor ()
      ensures Contents() == Db(map[], map[], map[])
    {
      locks, fences, values := map[], map[], map[];
    }

    method EvalAcquire(key: LockKey, token: Token, now: int) returns (reply: nat)
      modifies this
      ensures (Contents(), reply) == Acquire(old(Contents()), key, token, now)
      ensures reply > 0 <==> key !in old(locks)
      ensures reply > 0 ==>
        && locks == old(locks)[key := LockEntry(token, now + 8_000)]
        && fences == old(fences)[key := reply] && reply == (if key in old(fences) then old(fences)[key] else 0) + 1
      ensures reply == 0 ==> locks == old(locks) && fences == old(fences)
      ensures values == old(values)
    {
      if key in locks {
        return 0;
      }
      locks := locks[key := LockEntry(token, now + LOCK_TTL_MS)];
      var fence := if key in fences then fences[key] else 0;
      fence := fence + 1;
      fences := fences[key := fence];
      return fence;
    }

    method EvalExtend(key: LockKey, token: Token, now: int) returns (reply: bool)
      modifies this
      ensures (Contents(), reply) == Extend(old(Contents()), key, token, now)
      ensures reply <==> key in old(locks) && old(locks)[key].token == token
      ensures locks == if reply then old(locks)[key := LockEntry(token, now + 8_000)] else old(locks)
      ensures fences == old(fences) && values == old(values)
    {
      reply := key in locks && locks[key].token == token;
      if reply {
        locks := locks[key := locks[key].(expiresAt := now + LOCK_TTL_MS)];
      }
    }

    method EvalRelease(key: LockKey, token: Token) returns (reply: bool)
      modifies this
      ensures (Contents(), reply) == Release(old(Contents()), key, token)
      ensures reply <==> key in old(locks) && old(locks)[key].token == token
      ensures locks == if reply then old(locks) - {key} else old(locks)
      ensures fences == old(fences) && values == old(values)
    {
      reply := key in locks && locks[key].token == token;
      if reply {
        locks := locks - {key};
      }
    }

    method EvalFencedSet(guard: LockKey, fence: nat, key: StateKey, value: Value) returns (accepted: bool)
      modifies this
      ensures (Contents(), accepted) == FencedPut(old(Contents()), guard, fence, key, Some(value))
      ensures accepted <==> guard !in old(fences) || old(fences)[guard] <= fence
      ensures values == if accepted then old(values)[key := value] else old(values)
      ensures locks == old(locks) && fences == old(fences)
    {
      if guard in fences && fences[guard] > fence {
        return false;
      }
      values := values[key := value];
      return true;
    }

    method EvalFencedDel(guard: LockKey, fence: nat, key: StateKey) returns (accepted: bool)
      modifies this
      ensures (Contents(), accepted) == FencedPut(old(Contents()), guard, fence, key, None)
      ensures accepted <==> guard !in old(fences) || old(fences)[guard] <= fence
      ensures values == if accepted then old(values) - {key} else old(values)
      ensures locks == old(locks) && fences == old(fences)
    {
      if guard in fences && fences[guard] > fence {
        return false;
      }
      values := values - {key};
      return true;
    }

    method Set(key: StateKey, value: Value)
      modifies this
      ensures Contents() == old(Contents()).(values := old(values)[key := value])
    {
      values := values[key := value];
    }

    method Del(key: StateKey)
      modifies this
      ensures Contents() == old(Contents()).(values := old(values) - {key})
    {
      values := values - {key};
    }

    method Get(key: StateKey) returns (value: Option<Value>)
      ensures value == if key in values then Some(values[key]) else None
    {
      if key in values {
        return Some(values[key]);
      }
      return None;
    }
  }
}
