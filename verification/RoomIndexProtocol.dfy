/**
  Who may add a room to the public index and who may remove it: room creation, sections that save or delete a
  room's record, and the background reconciler, all on top of the fenced store. Any number of them interleave, and
  a section may go on after it has lost its lock; only fencing restrains it.
 */
module RoomIndexProtocol {
  import opened Names
  import opened FencedStore

  /** What a room section knows of the record of its room. */
  datatype Seen = Unread | Present | Absent | Deleted

  datatype Task =
    /** A section under a room's lock that serves a request: it may save the record, or delete it. */
    | Serving(room: RoomId, seen: Seen)
    /** The reconciler under a room's lock. */
    | Reconciling(room: RoomId, seen: Seen)
    /** A section under the index lock: read the list, change it, write it back. */
    | Adding(room: RoomId, copy: Option<seq<RoomId>>, finished: bool)
    | Removing(room: RoomId, copy: Option<seq<RoomId>>, finished: bool)

  /** How far `createRoom` has come. */
  datatype Creation = Opening | Written | Saved | Created | RollingBack | Failed

  /** `listed` is history: every id the index ever held. */
  datatype State = State(store: Store, tasks: map<Token, Task>, rooms: map<RoomId, Creation>, listed: set<RoomId>)
  {
    function Index(): seq<RoomId> {
      if RoomIndex in store.values && store.values[RoomIndex].Ids? then store.values[RoomIndex].ids else []
    }

    predicate Exists(r: RoomId) {
      RoomRecord(r) in store.values
    }
  }

  datatype IndexEvent =
    | OpenRoom(r: RoomId)
    | ExecCreate(r: RoomId, body: nat)
    | SettleCreate(r: RoomId)
    | FailCreate(r: RoomId)
    | BeginAdd(r: RoomId, t: Token)
    | ReturnCreated(r: RoomId, t: Token)
    | FailAdd(r: RoomId)
    | ExecRollback(r: RoomId)
    | BeginServe(r: RoomId, t: Token)
    | BeginReconcile(r: RoomId, t: Token)
    | ReadRecord(t: Token)
    | SaveRecord(t: Token, body: nat)
    | DeleteRecord(t: Token)
    | BeginRemove(parent: Token, t: Token)
    | ReadIndex(t: Token)
    | WriteIndex(t: Token)
    | ExpireRecord(r: RoomId)

  /** The list a section under the index lock writes back, given the one it read. */
  function Updated(task: Task): (ids: seq<RoomId>)
    requires (task.Adding? || task.Removing?) && task.copy.Some?
  {
    if task.Adding? then task.copy.value + [task.room] else Without(task.copy.value, task.room)
  }

  /** The section finds the list already as it wants it. */
  predicate AlreadyDone(task: Task)
    requires (task.Adding? || task.Removing?) && task.copy.Some?
  {
    task.Adding? <==> task.room in task.copy.value
  }

  predicate Stage(s: State, r: RoomId, c: Creation) {
    r in s.rooms && s.rooms[r] == c
  }

  predicate MayRemove(task: Task) {
    task == Serving(task.room, Deleted) || task == Reconciling(task.room, Absent)
  }

  /** A section is granted its lock, perhaps once more because a reply got lost, before it does anything. */
  predicate MayBegin(s: State, t: Token, task: Task) {
    t !in s.store.grants || (t in s.tasks && s.tasks[t] == task)
  }

  predicate IndexEnabled(s: State, e: IndexEvent) {
    match e
    case OpenRoom(r) => r !in s.rooms
    case ExecCreate(r, _) => Stage(s, r, Opening)
    case SettleCreate(r) => Stage(s, r, Written)
    case FailCreate(r) => Stage(s, r, Opening) || Stage(s, r, Written)
    case BeginAdd(r, t) => Stage(s, r, Saved) && MayBegin(s, t, Adding(r, None, false))
    case ReturnCreated(r, t) =>
      Stage(s, r, Saved) && t in s.tasks && s.tasks[t].Adding? && s.tasks[t].room == r && s.tasks[t].finished
    case FailAdd(r) => Stage(s, r, Saved)
    case ExecRollback(r) => Stage(s, r, RollingBack)
    case BeginServe(r, t) => MayBegin(s, t, Serving(r, Unread))
    case BeginReconcile(r, t) => r in s.listed && MayBegin(s, t, Reconciling(r, Unread))
    case ReadRecord(t) => t in s.tasks && (s.tasks[t].Serving? || s.tasks[t].Reconciling?) && s.tasks[t].seen.Unread?
    case SaveRecord(t, _) => t in s.tasks && s.tasks[t].Serving? && s.tasks[t].seen.Present?
    case DeleteRecord(t) => t in s.tasks && s.tasks[t].Serving? && s.tasks[t].seen.Present?
    case BeginRemove(p, t) =>
      p in s.tasks && MayRemove(s.tasks[p]) && MayBegin(s, t, Removing(s.tasks[p].room, None, false))
    case ReadIndex(t) => t in s.tasks && (s.tasks[t].Adding? || s.tasks[t].Removing?) && s.tasks[t].copy.None?
    case WriteIndex(t) =>
      t in s.tasks && (s.tasks[t].Adding? || s.tasks[t].Removing?) && s.tasks[t].copy.Some? && !s.tasks[t].finished
    case ExpireRecord(_) => true
  }

  /** What the event does to the fenced store. */
  function StoreEvent(s: State, e: IndexEvent): Event
    requires IndexEnabled(s, e)
  {
    match e
    case ExecCreate(r, body) => Unlocked(RoomRecord(r), Some(Document(body)))
    case ExecRollback(r) => Unlocked(RoomRecord(r), None)
    case BeginAdd(_, t) => Issue(t, IndexLock)
    case BeginRemove(_, t) => Issue(t, IndexLock)
    case BeginServe(r, t) => Issue(t, RoomLock(r))
    case BeginReconcile(r, t) => Issue(t, RoomLock(r))
    case ReadRecord(t) => Read(t, RoomRecord(s.tasks[t].room))
    case SaveRecord(t, body) => Write(t, RoomRecord(s.tasks[t].room), Some(Document(body)))
    case DeleteRecord(t) => Write(t, RoomRecord(s.tasks[t].room), None)
    case ReadIndex(t) => Read(t, RoomIndex)
    case WriteIndex(t) =>
      if AlreadyDone(s.tasks[t]) then Other else Write(t, RoomIndex, Some(Ids(Updated(s.tasks[t]))))
    case ExpireRecord(r) => Expire(RoomRecord(r))
    case _ => Other
  }

  function TasksAfter(s: State, e: IndexEvent): map<Token, Task>
    requires IndexEnabled(s, e)
  {
    match e
    case BeginAdd(r, t) => s.tasks[t := Adding(r, None, false)]
    case BeginServe(r, t) => s.tasks[t := Serving(r, Unread)]
    case BeginReconcile(r, t) => s.tasks[t := Reconciling(r, Unread)]
    case BeginRemove(p, t) => s.tasks[t := Removing(s.tasks[p].room, None, false)]
    case ReadRecord(t) => s.tasks[t := s.tasks[t].(seen := if s.Exists(s.tasks[t].room) then Present else Absent)]
    case DeleteRecord(t) =>
      if Accepted(s.store, StoreEvent(s, e)) then s.tasks[t := s.tasks[t].(seen := Deleted)] else s.tasks
    case ReadIndex(t) => s.tasks[t := s.tasks[t].(copy := Some(s.Index()))]
    case WriteIndex(t) =>
      if AlreadyDone(s.tasks[t]) || Accepted(s.store, StoreEvent(s, e)) then
        s.tasks[t := s.tasks[t].(finished := true)]
      else
        s.tasks
    case _ => s.tasks
  }

  function RoomsAfter(s: State, e: IndexEvent): map<RoomId, Creation>
    requires IndexEnabled(s, e)
  {
    match e
    case OpenRoom(r) => s.rooms[r := Opening]
    case ExecCreate(r, _) => s.rooms[r := Written]
    case SettleCreate(r) => s.rooms[r := Saved]
    case FailCreate(r) => s.rooms[r := Failed]
    case ReturnCreated(r, _) => s.rooms[r := Created]
    case FailAdd(r) => s.rooms[r := RollingBack]
    case ExecRollback(r) => s.rooms[r := Failed]
    case _ => s.rooms
  }

  predicate WellTasked(s: State) {
    forall t :: t in s.tasks ==>
      && t in s.store.grants
      && s.store.grants[t].lock
      == if s.tasks[t].Adding? || s.tasks[t].Removing? then IndexLock else RoomLock(s.tasks[t].room)
  }

  lemma StoreStepEnabled(s: State, e: IndexEvent)
    requires WellTasked(s) && IndexEnabled(s, e)
    ensures Enabled(s.store, StoreEvent(s, e))
  {
  }

  function IndexApply(s: State, e: IndexEvent): State
    requires WellTasked(s) && IndexEnabled(s, e)
  {
    StoreStepEnabled(s, e);
    var s' := State(Apply(s.store, StoreEvent(s, e)), TasksAfter(s, e), RoomsAfter(s, e), s.listed);
    s'.(listed := s.listed + set r | r in s'.Index())
  }
}
