/** The timer service of one instance: schedule, cancel, poll, and the clean-up of claimed entries. */
module RoomTimerService {
  import opened RoomTimerProtocol

  const POLL_BATCH_SIZE: nat := 50
  const MAX_DRAIN_ITERATIONS: nat := 10

  predicate Distinct(ms: seq<Member>) {
    forall i, j :: 0 <= i < j < |ms| ==> ms[i] != ms[j]
  }

  /** The entry is there with this score. */
  predicate Unchanged(timers: Timers, m: Member, score: int) {
    m in timers && timers[m] == score
  }

  /** The entries of `timers` due at `now`. */
  function Due(timers: Timers, now: int): set<Member> {
    set m | m in timers && timers[m] <= now
  }

  lemma DistinctJoined(a: seq<Member>, b: seq<Member>)
    requires Distinct(a) && Distinct(b) && forall m :: m in b ==> m !in a
    ensures Distinct(a + b)
  {
    forall i, j | 0 <= i < j < |a + b| ensures (a + b)[i] != (a + b)[j] {
      assert j >= |a| ==> (a + b)[j] in b;
    }
  }

  class TimerQueue {
    var timers: Timers

    constructor ()
      ensures timers == map[]
    {
      timers := map[];
    }

    method ScheduleRedis(m: Member, now: int, delayMs: int)
      modifies this
      ensures timers == Scheduled(old(timers), m, now + delayMs)
      ensures timers == old(timers)[m := now + delayMs]
    {
      timers := timers[m := now + delayMs];
    }

    method CancelRedis(m: Member) returns (removed: bool)
      modifies this
      ensures (timers, removed) == Cancelled(old(timers), m)
      ensures timers == old(timers) - {m} && (removed <==> m in old(timers))
    {
      removed := m in timers;
      timers := timers - {m};
    }

    method TryClaim(m: Member, score: int, reservedAt: int) returns (claimed: bool)
      modifies this
      ensures (timers, claimed) == Claimed(old(timers), m, score, reservedAt)
      ensures claimed <==> m in old(timers) && old(timers)[m] == score
      ensures timers == if claimed then old(timers)[m := reservedAt] else old(timers)
    {
      if m in timers && timers[m] == score {
        timers := timers[m := reservedAt];
        return true;
      }
      return false;
    }

    method DeleteIfReserved(m: Member, reservedAt: int)
      modifies this
      ensures timers == Cleaned(old(timers), m, reservedAt).0
      ensures timers ==
        if m in old(timers) && old(timers)[m] == reservedAt then old(timers) - {m} else old(timers)
    {
      if m in timers && timers[m] == reservedAt {
        timers := timers - {m};
      }
    }

    method Earliest(among: set<Member>) returns (m: Member)
      requires among != {} && among <= timers.Keys
      ensures m in among && forall x :: x in among ==> timers[m] <= timers[x]
    {
      m :| m in among;
      var rest := among - {m};
      while rest != {}
        invariant m in among && rest <= among
        invariant forall x :: x in among - rest ==> timers[m] <= timers[x]
      {
        var x :| x in rest;
        if timers[x] < timers[m] {
          m := x;
        }
        rest := rest - {x};
      }
    }

    /** ZRANGEBYSCORE -inf now WITHSCORES LIMIT 0 n: the earliest due entries, at most `n` of them. */
    method RangeByScore(now: int, n: nat) returns (raw: seq<Member>, scores: seq<int>)
      ensures |scores| == |raw| && forall j :: 0 <= j < |raw| ==> Unchanged(timers, raw[j], scores[j])
      ensures Distinct(raw) && |raw| <= n
      ensures forall m :: m in raw ==> m in Due(timers, now)
      ensures forall m, x :: m in raw && x in Due(timers, now) && x !in raw ==> timers[m] <= timers[x]
      ensures |raw| < n ==> forall m :: m in Due(timers, now) ==> m in raw
    {
      raw, scores := [], [];
      var left := Due(timers, now);
      while left != {} && |raw| < n
        invariant Distinct(raw) && |raw| <= n
        invariant |scores| == |raw| && forall j :: 0 <= j < |raw| ==> Unchanged(timers, raw[j], scores[j])
        invariant left <= Due(timers, now)
        invariant forall m :: m in Due(timers, now) <==> m in left || m in raw
        invariant forall m :: m in raw ==> m !in left
        invariant forall m, x :: m in raw && x in left ==> timers[m] <= timers[x]
        decreases left
      {
        var m := Earliest(left);
        raw, scores := raw + [m], scores + [timers[m]];
        left := left - {m};
      }
    }

    /**
      Claim the entries that were read, one after the other, by the scores that were read: exactly those are won whose
      score is still the same, they are pushed to their reservation, and nothing else changes.
     */
    method ClaimAll(raw: seq<Member>, scores: seq<int>, now: int) returns (fired: seq<Member>)
      requires Distinct(raw) && |scores| == |raw|
      modifies this
      ensures timers.Keys == old(timers.Keys)
      ensures forall m :: m in timers ==> timers[m] == if m in fired then now + RESERVATION_MS else old(timers)[m]
      ensures Distinct(fired) && forall m :: m in fired ==> m in raw
      ensures forall j :: 0 <= j < |raw| ==> (raw[j] in fired <==> Unchanged(old(timers), raw[j], scores[j]))
      ensures (forall j :: 0 <= j < |raw| ==> Unchanged(old(timers), raw[j], scores[j])) ==> fired == raw
    {
      ghost var before := timers;
      fired := [];
      for j := 0 to |raw|
        invariant timers.Keys == before.Keys
        invariant forall m :: m in timers ==> timers[m] == if m in fired then now + RESERVATION_MS else before[m]
        invariant Distinct(fired) && forall m :: m in fired ==> m in raw[..j]
        invariant forall k :: 0 <= k < j ==> (raw[k] in fired <==> Unchanged(before, raw[k], scores[k]))
        invariant (forall k :: 0 <= k < j ==> Unchanged(before, raw[k], scores[k])) ==> fired == raw[..j]
      {
        assert raw[j] !in raw[..j];
        var claimed := TryClaim(raw[j], scores[j], now + RESERVATION_MS);
        if claimed {
          fired := fired + [raw[j]];
        }
      }
    }

    /**
      One poll of an instance that nobody disturbs and that is over before its own reservations are due again;
      `clock(i)` is its clock in iteration `i`. No entry is fired twice, each was due and is now reserved, the others
      are untouched, and unless the poll fired its maximal number nothing that was due at its start is left.
     */
    method Poll(clock: nat -> int) returns (fired: seq<Member>)
      requires forall i :: 0 <= i < MAX_DRAIN_ITERATIONS ==> clock(0) <= clock(i) < clock(0) + RESERVATION_MS
      modifies this
      ensures Distinct(fired)
      ensures timers.Keys == old(timers.Keys)
      ensures forall m :: m in fired ==> m in timers && old(timers)[m] + RESERVATION_MS <= timers[m]
      ensures forall m :: m in timers && m !in fired ==> timers[m] == old(timers)[m]
      ensures |fired| < MAX_DRAIN_ITERATIONS * POLL_BATCH_SIZE ==>
        forall m :: m in Due(old(timers), clock(0)) ==> m in fired
    {
      fired := [];
      for i := 0 to MAX_DRAIN_ITERATIONS
        invariant |fired| == i * POLL_BATCH_SIZE && Distinct(fired)
        invariant timers.Keys == old(timers.Keys)
        invariant forall m :: m in fired ==>
          m in timers && old(timers)[m] + RESERVATION_MS <= timers[m] && clock(0) + RESERVATION_MS <= timers[m]
        invariant forall m :: m in timers && m !in fired ==> timers[m] == old(timers)[m]
      {
        var now := clock(i);
        var raw, scores := RangeByScore(now, POLL_BATCH_SIZE);
        assert forall m :: m in raw ==> m in timers && m !in fired;
        if |raw| == 0 {
          return;
        }
        DistinctJoined(fired, raw);
        var won := ClaimAll(raw, scores, now);
        fired := fired + won;
        if |raw| < POLL_BATCH_SIZE {
          return;
        }
      }
    }
  }
}
