/** The keys, tokens and values that the room services of apps/game share through Redis. */
module Names {

  datatype Option<+T> = None | Some(value: T)

  /** A room identifier (`randomUUID`); only its identity matters. */
  type RoomId = nat

  /** The token a critical section writes into the lock it takes (`randomUUID`, fresh for every section). */
  type Token = nat

  /** The two families of distributed locks: one per room, and one for the room index. */
  datatype LockKey = RoomLock(roomId: RoomId) | IndexLock

  /** The Redis keys that hold shared state. */
  datatype StateKey =
    | RoomRecord(roomId: RoomId)
    | SongOrder(roomId: RoomId)
    | RoundsSnapshot(roomId: RoomId)
    | CurrentAnswers(roomId: RoomId)
    | CurrentReveal(roomId: RoomId)
    | RoomIndex

  /** What such a key holds: an opaque document, or the list of room ids of the index. */
  datatype Value = Document(body: nat) | Ids(ids: seq<RoomId>)

  /** The lock that protects a key: the one every caller names when it writes that key. */
  function LockOf(key: StateKey): LockKey {
    if key.RoomIndex? then IndexLock else RoomLock(key.roomId)
  }

  /** `filter(x => x !== dropped)`: the other elements, in their order. */
  function Without<T(==, !new)>(xs: seq<T>, dropped: T): (rest: seq<T>)
    ensures forall x :: x in rest <==> x in xs && x != dropped
    ensures |rest| <= |xs|
  {
    if xs == [] then []
    else if xs[0] == dropped then Without(xs[1..], dropped)
    else [xs[0]] + Without(xs[1..], dropped)
  }
}
