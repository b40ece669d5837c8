/**
  The distributed room lock as a transition system: any number of critical sections on any number of workers,
  one Redis server, commands that take effect somewhere between their sending and their settling or never,
  replies that get lost, workers that stop anywhere, and time that advances freely.
 */
module LockProtocol {
  import opened Names
  import opened Redis
  import opened LeaseValue

  /** A command on its way: not sent, sent at a local time, or executed with its reply still travelling. */
  datatype Call<+R> = Idle | Sent(at: int) | Replied(at: int, reply: R)

  /** Where `withRedisLock` is. `ok` says whether the section is going to return normally. */
  datatype Phase = Acquiring | GaveUp | Running | Releasing(ok: bool) | Ended(ok: bool)

  /** A write in flight: it was sent after `assertLeaseHeld` and the scope check had passed. */
  datatype Write = Write(id: nat, key: StateKey, value: Option<Value>)

  /**
    One call of `withRedisLock`. `skew` is its worker's clock minus the server's (clocks run at one rate).
    `granted` is history: the last fencing token that the server issued to this token, 0 when none.
   */
  datatype Section = Section(
    key: LockKey,
    skew: int,
    phase: Phase,
    acquire: Call<nat>,
    lease: Lease,
    renewal: Call<bool>,
    writes: set<Write>,
    granted: nat)
  {
    predicate HasLease() {
      phase.Running? || phase.Releasing? || phase.Ended?
    }
  }

  datatype State = State(now: int, db: Db, sections: map<Token, Section>)
  {
    function Clock(t: Token): int
      requires t in sections
    {
      now + sections[t].skew
    }

    function With(t: Token, s: Section): State {
      this.(sections := sections[t := s])
    }
  }

  datatype Event =
    | Begin(t: Token, key: LockKey, skew: int)
    | SendAcquire(t: Token)
    | ExecAcquire(t: Token)
    | SettleAcquire(t: Token)
    | FailAcquire(t: Token)
    | GiveUp(t: Token)
    | MonitorTick(t: Token)
    | ExecExtend(t: Token)
    | SettleExtend(t: Token)
    | FailExtend(t: Token)
    | ExecRead(t: Token, read: StateKey)
    | SendWrite(t: Token, write: Write)
    | ExecWrite(t: Token, write: Write)
    | DropWrite(t: Token, write: Write)
    | Throw(t: Token)
    | FinalCheck(t: Token)
    | ExecRelease(t: Token)
    | DropRelease(t: Token)
    | UnlockedWrite(plain: StateKey, value: Option<Value>)
    | ExpireLock(lock: LockKey)
    | ExpireValue(expired: StateKey)
    | Advance(ms: nat)

  /** Events of the environment rather than of a section that has begun. */
  predicate Ambient(e: Event) {
    e.Begin? || e.UnlockedWrite? || e.ExpireLock? || e.ExpireValue? || e.Advance?
  }

  /** Events at the server: it executes a command that a section has sent. */
  predicate Served(e: Event) {
    e.ExecAcquire? || e.ExecExtend? || e.ExecRead? || e.ExecWrite? || e.ExecRelease?
  }

  predicate Enabled(s: State, e: Event) {
    if Ambient(e) then
      && (e.Begin? ==> e.t !in s.sections)
      && (e.ExpireLock? ==> e.lock in s.db.locks && s.db.locks[e.lock].expiresAt <= s.now)
    else
      e.t in s.sections && SectionEnabled(s.sections[e.t], s.Clock(e.t), e)
  }

  /** When a section may take a step; `clock` is its worker's clock. */
  predicate SectionEnabled(c: Section, clock: int, e: Event) {
    match e
    case SendAcquire(_) => c.phase.Acquiring? && c.acquire.Idle?
    case ExecAcquire(_) => c.acquire.Sent?
    case SettleAcquire(_) => c.acquire.Replied?
    case FailAcquire(_) => !c.acquire.Idle?
    case GiveUp(_) => c.phase.Acquiring? && c.acquire.Idle?
    case MonitorTick(_) => c.phase.Running?
    case ExecExtend(_) => c.renewal.Sent?
    case SettleExtend(_) => c.renewal.Replied?
    case FailExtend(_) => !c.renewal.Idle?
    case ExecRead(_, _) => c.phase.Running?
    case SendWrite(_, w) => c.phase.Running? && c.lease.IsValid(clock) && LockOf(w.key) == c.key
    case ExecWrite(_, w) => w in c.writes
    case DropWrite(_, w) => w in c.writes
    case Throw(_) => c.phase.Running?
    case FinalCheck(_) => c.phase.Running?
    case ExecRelease(_) => c.phase.Releasing?
    case DropRelease(_) => c.phase.Releasing?
    case _ => false
  }

  function Apply(s: State, e: Event): State
    requires Enabled(s, e)
  {
    if Ambient(e) then
      ApplyAmbient(s, e)
    else if Served(e) then
      var (db, c) := Serve(s.db, s.now, e.t, s.sections[e.t], e);
      s.(db := db).With(e.t, c)
    else
      s.With(e.t, Proceed(s.sections[e.t], s.Clock(e.t), e))
  }

  function ApplyAmbient(s: State, e: Event): State
    requires Ambient(e)
  {
    match e
    case Begin(t, key, skew) => s.With(t, Section(key, skew, Acquiring, Idle, NewLease(0, 0), Idle, {}, 0))
    case UnlockedWrite(k, v) => s.(db := s.db.(values := Put(s.db.values, k, v)))
    case ExpireLock(k) => s.(db := s.db.(locks := s.db.locks - {k}))
    case ExpireValue(k) => s.(db := s.db.(values := s.db.values - {k}))
    case Advance(d) => s.(now := s.now + d)
  }

  /** The server executes a command of section `t`, whose reply then travels. */
  function Serve(db: Db, now: int, t: Token, c: Section, e: Event): (Db, Section)
    requires Served(e) && SectionEnabled(c, now + c.skew, e)
  {
    match e
    case ExecAcquire(_) =>
      var (db', reply) := Acquire(db, c.key, t, now);
      (db', c.(acquire := Replied(c.acquire.at, reply), granted := if reply > 0 then reply else c.granted))
    case ExecExtend(_) =>
      var (db', reply) := Extend(db, c.key, t, now);
      (db', c.(renewal := Replied(c.renewal.at, reply)))
    case ExecRead(_, k) => (db, c)
    case ExecWrite(_, w) => (FencedPut(db, c.key, c.lease.fence, w.key, w.value).0, c.(writes := c.writes - {w}))
    case ExecRelease(_) => (Release(db, c.key, t).0, c.(phase := Ended(c.phase.ok)))
  }

  /** A section goes on by itself; `clock` is its worker's clock. */
  function Proceed(c: Section, clock: int, e: Event): Section
    requires SectionEnabled(c, clock, e) && !Served(e)
  {
    match e
    case SendAcquire(_) => c.(acquire := Sent(clock))
    case SettleAcquire(_) =>
      if c.acquire.reply > 0 then
        c.(acquire := Idle, phase := Running, lease := NewLease(c.acquire.reply, c.acquire.at))
      else
        c.(acquire := Idle)
    case FailAcquire(_) => c.(acquire := Idle)
    case GiveUp(_) => c.(phase := GaveUp)
    case MonitorTick(_) =>
      (match Monitor(c.lease, clock, !c.renewal.Idle?)
       case Nothing => c
       case Lose => c.(lease := c.lease.MarkLost(LeaseExpired))
       case Renew => c.(renewal := Sent(clock)))
    case SettleExtend(_) =>
      c.(renewal := Idle,
         lease := if c.renewal.reply then c.lease.MarkRenewed(c.renewal.at) else c.lease.MarkLost(LockNotHeld))
    case FailExtend(_) => c.(renewal := Idle)
    case SendWrite(_, w) => c.(writes := c.writes + {w})
    case DropWrite(_, w) => c.(writes := c.writes - {w})
    case Throw(_) => c.(phase := Releasing(false))
    case FinalCheck(_) =>
      if c.lease.IsValid(clock) then
        c.(phase := Releasing(true))
      else
        c.(phase := Releasing(false), lease := c.lease.MarkLost(LeaseExpired))
    case DropRelease(_) => c.(phase := Ended(c.phase.ok))
  }

  ghost predicate Init(s: State) {
    s.db == Db(map[], map[], map[]) && s.sections == map[]
  }

  /** A run: a first state, and one more state for each event. */
  ghost predicate Run(states: seq<State>, events: seq<Event>) {
    && |states| == |events| + 1
    && Init(states[0])
    && forall i :: 0 <= i < |events| ==> Enabled(states[i], events[i]) && states[i + 1] == Apply(states[i], events[i])
  }
}
