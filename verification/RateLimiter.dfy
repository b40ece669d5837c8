/** The sliding-window rate limiter with a block, as the throttler script of apps/api keeps it in Redis for one key. */
module RateLimiter {

  /** The settings of one throttler, in milliseconds and requests. */
  datatype Limits = Limits(ttl: nat, limit: nat, blockDuration: nat)

  /** The times of the recorded hits, and the time at which the block ends; 0 when there is no block key. */
  datatype Window = Window(hits: seq<int>, blockExpiresAt: int)

  datatype Reply = Reply(totalHits: nat, isBlocked: bool, timeToExpire: int, timeToBlockExpire: int)

  /** `math.ceil(ms / 1000)`. */
  function CeilSeconds(ms: int): (s: int)
    ensures ms <= 1000 * s < ms + 1000
  {
    -((-ms) / 1000)
  }

  /** ZREMRANGEBYSCORE 0 `upTo`. */
  function Recent(hits: seq<int>, upTo: int): (kept: seq<int>)
    ensures forall h :: h in kept <==> h in hits && !(0 <= h <= upTo)
  {
    if hits == [] then []
    else if 0 <= hits[0] <= upTo then Recent(hits[1..], upTo)
    else [hits[0]] + Recent(hits[1..], upTo)
  }

  /**
    The hits after a request that no block keeps out: a block that is over takes the recorded hits with it, and a time
    to live of 0 takes all hits at once.
   */
  function Counted(w: Window, now: int, limits: Limits): seq<int> {
    if limits.ttl == 0 then [] else Recent(if w.blockExpiresAt > 0 then [] else w.hits, now - limits.ttl) + [now]
  }

  function Blocks(w: Window, now: int, limits: Limits): bool {
    w.blockExpiresAt > now || |Counted(w, now, limits)| > limits.limit
  }

  function After(w: Window, now: int, limits: Limits): Window {
    if w.blockExpiresAt > now then w
    else
      Window(Counted(w, now, limits),
             if |Counted(w, now, limits)| > limits.limit then now + limits.blockDuration else 0)
  }

  /** The script, command by command, on the two keys. */
  class Limiter {
    var hits: seq<int>
    var blockExpiresAt: int

    ghost function State(): Window
      reads this
    {
      Window(hits, blockExpiresAt)
    }

    constructor ()
      ensures State() == Window([], 0)
    {
      hits, blockExpiresAt := [], 0;
    }

    method Increment(now: int, limits: Limits) returns (r: Reply)
      requires blockExpiresAt >= 0
      modifies this
      ensures State() == After(old(State()), now, limits)
      ensures r.isBlocked == Blocks(old(State()), now, limits)
      ensures r.totalHits == |State().hits|
      ensures r.timeToExpire == CeilSeconds(limits.ttl)
      ensures r.timeToBlockExpire == if !r.isBlocked then 0 else CeilSeconds(State().blockExpiresAt - now)
    {
      if blockExpiresAt > now {
        return Reply(|hits|, true, CeilSeconds(limits.ttl), CeilSeconds(blockExpiresAt - now));
      }
      if blockExpiresAt > 0 {
        hits, blockExpiresAt := [], 0;
      }
      hits := Recent(hits, now - limits.ttl);
      hits := hits + [now];
      if limits.ttl == 0 {
        hits := [];
      }
      var totalHits := |hits|;
      var isBlocked, timeToBlockExpire := false, 0;
      if totalHits > limits.limit {
        blockExpiresAt := now + limits.blockDuration;
        isBlocked, timeToBlockExpire := true, CeilSeconds(limits.blockDuration);
      }
      r := Reply(totalHits, isBlocked, CeilSeconds(limits.ttl), timeToBlockExpire);
    }
  }

  // ----- the rate bound

  /** Times at which requests arrive: positive, and never going back. */
  predicate Arrivals(times: seq<int>) {
    forall i, j :: 0 <= i <= j < |times| ==> 1 <= times[i] <= times[j]
  }

  function WindowAfter(times: seq<int>, limits: Limits): Window {
    if times == [] then Window([], 0)
    else After(WindowAfter(times[..|times| - 1], limits), times[|times| - 1], limits)
  }

  /** The times of the requests that were let through. */
  function Passed(times: seq<int>, limits: Limits): seq<int> {
    if times == [] then []
    else
      var before, now := times[..|times| - 1], times[|times| - 1];
      Passed(before, limits) + if Blocks(WindowAfter(before, limits), now, limits) then [] else [now]
  }

  /** How many of the times lie in the window that begins at `from` and has this length. */
  function CountIn(times: seq<int>, from: int, length: nat): nat {
    if times == [] then 0
    else
      var last := times[|times| - 1];
      CountIn(times[..|times| - 1], from, length) + if from <= last < from + length then 1 else 0
  }

  function CountAfter(times: seq<int>, x: int): nat {
    if times == [] then 0
    else CountAfter(times[..|times| - 1], x) + if times[|times| - 1] > x then 1 else 0
  }

  /** In every window of the length of the limiter's own, at most `limit` requests pass. */
  ghost predicate RateBounded(limits: Limits) {
    forall times: seq<int>, from: int :: Arrivals(times) ==>
      CountIn(Passed(times, limits), from, limits.ttl) <= limits.limit
  }

  lemma {:induction false} CountAfterJoined(a: seq<int>, b: seq<int>, x: int)
    ensures CountAfter(a + b, x) == CountAfter(a, x) + CountAfter(b, x)
  {
    if b == [] {
      assert a + b == a;
    } else {
      var n := |b| - 1;
      CountAfterJoined(a, b[..n], x);
      assert (a + b)[..|a + b| - 1] == a + b[..n];
    }
  }

  /** Dropping hits that are too old does not change the count of the younger ones. */
  lemma {:induction false} RecentKeepsCount(hits: seq<int>, upTo: int, x: int)
    requires upTo <= x
    ensures CountAfter(Recent(hits, upTo), x) == CountAfter(hits, x)
  {
    if hits != [] {
      RecentKeepsCount(hits[1..], upTo, x);
      assert hits == [hits[0]] + hits[1..];
      CountAfterJoined([hits[0]], hits[1..], x);
      CountAfterJoined([hits[0]], Recent(hits[1..], upTo), x);
      assert [hits[0]][..0] == [];
    }
  }

  lemma {:induction false} AllCounted(hits: seq<int>, x: int)
    requires forall h :: h in hits ==> h > x
    ensures CountAfter(hits, x) == |hits|
  {
    if hits != [] {
      var n := |hits| - 1;
      assert hits[n] in hits && forall h :: h in hits[..n] ==> h in hits;
      AllCounted(hits[..n], x);
    }
  }

  lemma {:induction false} NoneCounted(hits: seq<int>, x: int)
    requires forall h :: h in hits ==> h <= x
    ensures CountAfter(hits, x) == 0
  {
    if hits != [] {
      var n := |hits| - 1;
      assert hits[n] in hits && forall h :: h in hits[..n] ==> h in hits;
      NoneCounted(hits[..n], x);
    }
  }

  ghost predicate SameSince(a: seq<int>, b: seq<int>, from: int) {
    forall x :: from <= x ==> CountAfter(a, x) == CountAfter(b, x)
  }

  /**
    What the window knows at time `t` of the requests that passed: without a block, its hits are as many as those
    within the last `ttl`; under a block, all of them are at least `blockDuration` older than the end of the block.
   */
  ghost predicate Knows(w: Window, passed: seq<int>, t: int, limits: Limits) {
    && (forall h :: h in w.hits ==> 1 <= h <= t)
    && (forall p :: p in passed ==> 1 <= p <= t)
    && w.blockExpiresAt >= 0
    && (w.blockExpiresAt == 0 ==> SameSince(w.hits, passed, t - limits.ttl))
    && (w.blockExpiresAt > 0 ==> forall p :: p in passed ==> p + limits.blockDuration <= w.blockExpiresAt)
  }

  /** The hits counted at `now` are all the passed requests of the last `ttl`, and this one. */
  lemma CountedIsRecent(w: Window, passed: seq<int>, t: int, now: int, limits: Limits, x: int)
    requires Knows(w, passed, t, limits) && t <= now && 1 <= now && w.blockExpiresAt <= now
    requires limits.blockDuration >= limits.ttl > 0 && now - limits.ttl <= x
    ensures CountAfter(Counted(w, now, limits), x) == CountAfter(passed + [now], x)
  {
    var kept := if w.blockExpiresAt > 0 then [] else w.hits;
    assert CountAfter(kept, x) == CountAfter(passed, x) by {
      if w.blockExpiresAt > 0 {
        NoneCounted(passed, x);
      }
    }
    SameCountWithNow(kept, passed, now, now - limits.ttl, x);
  }

  lemma SameCountWithNow(kept: seq<int>, passed: seq<int>, now: int, upTo: int, x: int)
    requires CountAfter(kept, x) == CountAfter(passed, x) && upTo <= x
    ensures CountAfter(Recent(kept, upTo) + [now], x) == CountAfter(passed + [now], x)
  {
    RecentKeepsCount(kept, upTo, x);
    CountAfterJoined(Recent(kept, upTo), [now], x);
    CountAfterJoined(passed, [now], x);
  }

  lemma CountsAgree(w: Window, passed: seq<int>, t: int, now: int, limits: Limits)
    requires Knows(w, passed, t, limits) && t <= now && 1 <= now && w.blockExpiresAt <= now
    requires limits.blockDuration >= limits.ttl > 0
    ensures SameSince(Counted(w, now, limits), passed + [now], now - limits.ttl)
  {
    forall x | now - limits.ttl <= x ensures CountAfter(Counted(w, now, limits), x) == CountAfter(passed + [now], x) {
      CountedIsRecent(w, passed, t, now, limits, x);
    }
  }

  /** The recorded hits are young, and as many as the passed requests of the last `ttl` with this one. */
  lemma CountedAreYoung(w: Window, passed: seq<int>, t: int, now: int, limits: Limits)
    requires Knows(w, passed, t, limits) && t <= now && 1 <= now && w.blockExpiresAt <= now
    requires limits.blockDuration >= limits.ttl > 0
    ensures forall h :: h in Counted(w, now, limits) ==> 1 <= h <= now
    ensures |Counted(w, now, limits)| == CountAfter(passed + [now], now - limits.ttl)
  {
    CountedIsRecent(w, passed, t, now, limits, now - limits.ttl);
    forall h | h in Counted(w, now, limits) ensures 1 <= h <= now && h > now - limits.ttl {
      assert h == now || h in w.hits;
    }
    AllCounted(Counted(w, now, limits), now - limits.ttl);
  }

  /** A request that no block keeps out passes and is known, or begins a block longer than any passed request counts. */
  lemma CountedKeepsKnowledge(w: Window, passed: seq<int>, t: int, now: int, limits: Limits)
    requires Knows(w, passed, t, limits) && t <= now && 1 <= now && w.blockExpiresAt <= now
    requires limits.blockDuration >= limits.ttl > 0
    ensures Blocks(w, now, limits) ==> Knows(After(w, now, limits), passed, now, limits)
    ensures !Blocks(w, now, limits) ==> Knows(After(w, now, limits), passed + [now], now, limits)
    ensures !Blocks(w, now, limits) ==> CountAfter(passed + [now], now - limits.ttl) <= limits.limit
  {
    CountsAgree(w, passed, t, now, limits);
    CountedAreYoung(w, passed, t, now, limits);
  }

  lemma RequestKeepsKnowledge(w: Window, passed: seq<int>, t: int, now: int, limits: Limits)
    requires Knows(w, passed, t, limits) && t <= now && 1 <= now && limits.blockDuration >= limits.ttl > 0
    ensures Knows(After(w, now, limits), passed + if Blocks(w, now, limits) then [] else [now], now, limits)
    ensures !Blocks(w, now, limits) ==> CountAfter(passed + [now], now - limits.ttl) <= limits.limit
  {
    assert passed + [] == passed;
    if w.blockExpiresAt <= now {
      CountedKeepsKnowledge(w, passed, t, now, limits);
    } else {
      assert After(w, now, limits) == w;
    }
  }

  /** Each passed request is preceded by fewer than `limit` others within `ttl`. */
  predicate Spaced(passed: seq<int>, limits: Limits) {
    passed == [] ||
    var n := |passed| - 1;
    CountAfter(passed, passed[n] - limits.ttl) <= limits.limit && Spaced(passed[..n], limits)
  }

  lemma OneMoreSpaced(passed: seq<int>, now: int, limits: Limits)
    requires Spaced(passed, limits) && CountAfter(passed + [now], now - limits.ttl) <= limits.limit
    ensures Spaced(passed + [now], limits)
  {
    assert (passed + [now])[..|passed|] == passed;
  }

  lemma {:induction false} PassedIsSpaced(times: seq<int>, limits: Limits)
    requires Arrivals(times) && limits.blockDuration >= limits.ttl > 0
    ensures Spaced(Passed(times, limits), limits)
    ensures Knows(WindowAfter(times, limits), Passed(times, limits),
                  if times == [] then 0 else times[|times| - 1], limits)
  {
    if times != [] {
      var before, now := times[..|times| - 1], times[|times| - 1];
      assert times == before + [now];
      PassedIsSpaced(before, limits);
      OneMoreRequest(before, now, limits);
      var passed := Passed(before, limits);
      RequestKeepsKnowledge(WindowAfter(before, limits), passed,
                            if before == [] then 0 else before[|before| - 1], now, limits);
      if !Blocks(WindowAfter(before, limits), now, limits) {
        OneMoreSpaced(passed, now, limits);
      } else {
        assert passed + [] == passed;
      }
    }
  }

  // ----- exactly who passes

  /** A limiter that remembers every request that passed, and until when it is blocked. */
  datatype History = History(passed: seq<int>, blockedUntil: int)

  /** A request is refused under a block, and when with it more than `limit` requests lie within `ttl`. */
  predicate Refuses(h: History, now: int, limits: Limits) {
    now < h.blockedUntil || CountAfter(h.passed + [now], now - limits.ttl) > limits.limit
  }

  /** A request that passes is remembered, and one that is refused outside a block begins one. */
  function Remember(h: History, now: int, limits: Limits): History {
    if !Refuses(h, now, limits) then h.(passed := h.passed + [now])
    else if now < h.blockedUntil then h
    else h.(blockedUntil := now + limits.blockDuration)
  }

  function HistoryOf(times: seq<int>, limits: Limits): History {
    if times == [] then History([], 0)
    else Remember(HistoryOf(times[..|times| - 1], limits), times[|times| - 1], limits)
  }

  /** The window and the history know the same block, or one that is over. */
  predicate SameBlock(w: Window, h: History, t: int) {
    if w.blockExpiresAt == 0 then h.blockedUntil <= t else h.blockedUntil == w.blockExpiresAt
  }

  lemma RefusesAlike(w: Window, h: History, t: int, now: int, limits: Limits)
    requires Knows(w, h.passed, t, limits) && t <= now && 1 <= now && limits.blockDuration >= limits.ttl > 0
    requires SameBlock(w, h, t)
    ensures Blocks(w, now, limits) <==> Refuses(h, now, limits)
    ensures SameBlock(After(w, now, limits), Remember(h, now, limits), now)
  {
    if w.blockExpiresAt <= now {
      CountedAreYoung(w, h.passed, t, now, limits);
    }
  }

  lemma {:induction false} HistoryAgrees(times: seq<int>, limits: Limits)
    requires Arrivals(times) && limits.blockDuration >= limits.ttl > 0
    ensures HistoryOf(times, limits).passed == Passed(times, limits)
    ensures SameBlock(WindowAfter(times, limits), HistoryOf(times, limits),
                      if times == [] then 0 else times[|times| - 1])
  {
    if times != [] {
      var before, now := times[..|times| - 1], times[|times| - 1];
      HistoryAgrees(before, limits);
      PassedIsSpaced(before, limits);
      RefusesAlike(WindowAfter(before, limits), HistoryOf(before, limits),
                   if before == [] then 0 else before[|before| - 1], now, limits);
    }
  }

  /**
    The script forgets old hits, and all of them after a block. With a block no shorter than the window it decides every
    request just as the limiter does that remembers everything.
   */
  lemma PassesIff(times: seq<int>, now: int, limits: Limits)
    requires Arrivals(times + [now]) && limits.blockDuration >= limits.ttl > 0
    ensures Blocks(WindowAfter(times, limits), now, limits) <==> Refuses(HistoryOf(times, limits), now, limits)
    ensures HistoryOf(times, limits).passed == Passed(times, limits)
  {
    var all := times + [now];
    assert forall i :: 0 <= i < |times| ==> all[i] == times[i];
    assert all[|times|] == now;
    HistoryAgrees(times, limits);
    PassedIsSpaced(times, limits);
    RefusesAlike(WindowAfter(times, limits), HistoryOf(times, limits),
                 if times == [] then 0 else times[|times| - 1], now, limits);
  }

  lemma {:induction false} CountInAtMostAfter(times: seq<int>, from: int, length: nat, x: int)
    requires x < from
    ensures CountIn(times, from, length) <= CountAfter(times, x)
  {
    if times != [] {
      CountInAtMostAfter(times[..|times| - 1], from, length, x);
    }
  }

  lemma {:induction false} SpacedFitsWindow(passed: seq<int>, from: int, limits: Limits)
    requires Spaced(passed, limits)
    ensures CountIn(passed, from, limits.ttl) <= limits.limit
  {
    if passed != [] {
      var n := |passed| - 1;
      var last := passed[n];
      if from <= last < from + limits.ttl {
        CountInAtMostAfter(passed, from, limits.ttl, last - limits.ttl);
      } else {
        SpacedFitsWindow(passed[..n], from, limits);
      }
    }
  }

  lemma OneMoreRequest(times: seq<int>, now: int, limits: Limits)
    ensures WindowAfter(times + [now], limits) == After(WindowAfter(times, limits), now, limits)
    ensures Passed(times + [now], limits)
         == Passed(times, limits) + if Blocks(WindowAfter(times, limits), now, limits) then [] else [now]
  {
    assert (times + [now])[..|times + [now]| - 1] == times;
  }

  /** So many requests at time 1. */
  function Ones(n: nat): (ones: seq<int>)
    ensures |ones| == n && forall i :: 0 <= i < n ==> ones[i] == 1
  {
    if n == 0 then [] else Ones(n - 1) + [1]
  }

  /** At time 1 all hits of time 1 count, and one more. */
  lemma OnesCount(n: nat, limits: Limits)
    requires limits.ttl > 0
    ensures Counted(Window(Ones(n), 0), 1, limits) == Ones(n + 1)
  {
    RecentKeepsAll(Ones(n), 1 - limits.ttl);
  }

  lemma {:induction false} FullWindow(n: nat, limits: Limits)
    requires n <= limits.limit && limits.ttl > 0
    ensures Passed(Ones(n), limits) == Ones(n) && WindowAfter(Ones(n), limits) == Window(Ones(n), 0)
  {
    if n > 0 {
      FullWindow(n - 1, limits);
      OnesCount(n - 1, limits);
      OneMoreRequest(Ones(n - 1), 1, limits);
    }
  }

  lemma {:induction false} RecentKeepsAll(hits: seq<int>, upTo: int)
    requires forall i :: 0 <= i < |hits| ==> hits[i] > upTo
    ensures Recent(hits, upTo) == hits
  {
    if hits != [] {
      RecentKeepsAll(hits[1..], upTo);
    }
  }

  lemma {:induction false} CountOfOnes(n: nat, ttl: nat)
    requires ttl > 0
    ensures CountIn(Ones(n), 1, ttl) == n
  {
    if n > 0 {
      CountOfOnes(n - 1, ttl);
      assert Ones(n)[..n - 1] == Ones(n - 1);
    }
  }

  /** `limit` requests at time 1, one more that is blocked, and one just when the block ends. */
  function TooMany(limits: Limits): seq<int> {
    Ones(limits.limit) + [1] + [1 + limits.blockDuration]
  }

  lemma OneMoreIsBlocked(limits: Limits)
    requires limits.ttl > 0
    ensures var t1 := Ones(limits.limit) + [1];
      Passed(t1, limits) == Ones(limits.limit) && WindowAfter(t1, limits).blockExpiresAt == 1 + limits.blockDuration
  {
    var ones := Ones(limits.limit);
    FullWindow(limits.limit, limits);
    OnesCount(limits.limit, limits);
    OneMoreRequest(ones, 1, limits);
  }

  /** A block shorter than the window resets the count too early: one request too many passes. */
  lemma ShortBlockLetsTooManyPass(limits: Limits)
    requires limits.blockDuration < limits.ttl && limits.limit > 0
    ensures Arrivals(TooMany(limits)) && CountIn(Passed(TooMany(limits), limits), 1, limits.ttl) == limits.limit + 1
  {
    var ones, t1, now := Ones(limits.limit), Ones(limits.limit) + [1], 1 + limits.blockDuration;
    OneMoreIsBlocked(limits);
    OneMoreRequest(t1, now, limits);
    assert Counted(WindowAfter(t1, limits), now, limits) == [now];
    assert Passed(TooMany(limits), limits) == ones + [now];
    assert (ones + [now])[..|ones|] == ones;
    CountOfOnes(limits.limit, limits.ttl);
    OnesArrive(limits);
  }

  lemma OnesArrive(limits: Limits)
    ensures Arrivals(TooMany(limits))
  {
    var times := TooMany(limits);
    forall i | 0 <= i < |times| ensures times[i] == if i <= limits.limit then 1 else 1 + limits.blockDuration {
      assert i < limits.limit ==> times[i] == Ones(limits.limit)[i];
    }
  }

  lemma {:induction false} EmptyWindowHoldsNothing(times: seq<int>, from: int)
    ensures CountIn(times, from, 0) == 0
  {
    if times != [] {
      EmptyWindowHoldsNothing(times[..|times| - 1], from);
    }
  }

  lemma {:induction false} NothingPassesAtZero(times: seq<int>, limits: Limits)
    requires limits.limit == 0 && limits.ttl > 0
    ensures Passed(times, limits) == []
  {
    if times != [] {
      NothingPassesAtZero(times[..|times| - 1], limits);
    }
  }

  /**
    The limiter keeps its rate exactly when a block lasts at least as long as the window, or nothing may pass at all.
   */
  lemma RateBoundedIff(limits: Limits)
    ensures RateBounded(limits) <==> limits.blockDuration >= limits.ttl || limits.limit == 0
  {
    if limits.blockDuration >= limits.ttl || limits.limit == 0 {
      forall times: seq<int>, from: int | Arrivals(times)
        ensures CountIn(Passed(times, limits), from, limits.ttl) <= limits.limit
      {
        if limits.ttl == 0 {
          EmptyWindowHoldsNothing(Passed(times, limits), from);
        } else if limits.limit == 0 {
          NothingPassesAtZero(times, limits);
        } else {
          PassedIsSpaced(times, limits);
          SpacedFitsWindow(Passed(times, limits), from, limits);
        }
      }
    } else {
      ShortBlockLetsTooManyPass(limits);
      assert Arrivals(TooMany(limits)) && CountIn(Passed(TooMany(limits), limits), 1, limits.ttl) > limits.limit;
    }
  }

  // ----- expiry of the two keys

  /** What Redis has dropped by the time of a request. */
  datatype Expiry = Expiry(hitsGone: bool, blockGone: bool)

  /**
    The two keys with the times from which Redis may drop them: `ttl` after the last hit, and `ttl` after the block.
   */
  datatype Keys = Keys(window: Window, hitsExpireAt: int, blockExpireAt: int)

  datatype Arrival = Arrival(now: int, expiry: Expiry)

  /** Redis drops a key only once its time has come; it may do so late. */
  predicate MayExpire(k: Keys, a: Arrival) {
    (a.expiry.hitsGone ==> k.hitsExpireAt <= a.now) && (a.expiry.blockGone ==> k.blockExpireAt <= a.now)
  }

  function Dropped(k: Keys, a: Arrival): Window {
    Window(if a.expiry.hitsGone then [] else k.window.hits, if a.expiry.blockGone then 0 else k.window.blockExpiresAt)
  }

  function KeysAfter(k: Keys, a: Arrival, limits: Limits): Keys {
    var w := Dropped(k, a);
    var w' := After(w, a.now, limits);
    if w.blockExpiresAt > a.now then k.(window := w')
    else Keys(w', a.now + limits.ttl, w'.blockExpiresAt + limits.ttl)
  }

  /** The keys after some requests, each of which found them as Redis had left them. */
  function KeysSeen(arrivals: seq<Arrival>, limits: Limits): Keys {
    if arrivals == [] then Keys(Window([], 0), 0, 0)
    else KeysAfter(KeysSeen(arrivals[..|arrivals| - 1], limits), arrivals[|arrivals| - 1], limits)
  }

  /** The same requests on keys that never expire. */
  function IdealSeen(arrivals: seq<Arrival>, limits: Limits): Window {
    if arrivals == [] then Window([], 0)
    else After(IdealSeen(arrivals[..|arrivals| - 1], limits), arrivals[|arrivals| - 1].now, limits)
  }

  /** Times do not go back, and no key is dropped early. */
  ghost predicate Plausible(arrivals: seq<Arrival>, limits: Limits) {
    arrivals == [] ||
    var before, a := arrivals[..|arrivals| - 1], arrivals[|arrivals| - 1];
    && Plausible(before, limits)
    && 1 <= a.now && (before != [] ==> before[|before| - 1].now <= a.now)
    && MayExpire(KeysSeen(before, limits), a)
  }

  /**
    From time `t` on the two answer alike: either hits and block are the same, or hits that are missing are too old to
    count, or a block that is missing is over, together with the hits before it.
   */
  ghost predicate Alike(k: Keys, ideal: Window, t: int, limits: Limits) {
    var w := k.window;
    && ideal.blockExpiresAt >= 0
    && (forall h :: h in ideal.hits ==> 1 <= h <= t)
    && (w.hits == ideal.hits || (w.hits == [] && forall h :: h in ideal.hits ==> h + limits.ttl <= t))
    && (w.blockExpiresAt == ideal.blockExpiresAt || (w.blockExpiresAt == 0 && ideal.blockExpiresAt + limits.ttl <= t))
    && (ideal.blockExpiresAt > 0 ==> forall h :: h in ideal.hits ==> h <= ideal.blockExpiresAt)
    && (forall h :: h in ideal.hits ==> h + limits.ttl <= k.hitsExpireAt)
    && (w.blockExpiresAt > 0 ==> k.blockExpireAt == w.blockExpiresAt + limits.ttl)
  }

  lemma {:induction false} AllTooOld(hits: seq<int>, upTo: int)
    requires forall h :: h in hits ==> 0 <= h <= upTo
    ensures Recent(hits, upTo) == []
  {
    if hits != [] {
      assert hits[0] in hits && forall h :: h in hits[1..] ==> h in hits;
      AllTooOld(hits[1..], upTo);
    }
  }

  /** With or without the dropped keys, the same hits count. */
  lemma SameCounted(k: Keys, ideal: Window, t: int, a: Arrival, limits: Limits)
    requires Alike(k, ideal, t, limits) && t <= a.now && 1 <= a.now && MayExpire(k, a)
    ensures Dropped(k, a).blockExpiresAt > a.now <==> ideal.blockExpiresAt > a.now
    ensures ideal.blockExpiresAt <= a.now ==> Counted(Dropped(k, a), a.now, limits) == Counted(ideal, a.now, limits)
  {
    var w := Dropped(k, a);
    if ideal.blockExpiresAt <= a.now {
      if w.blockExpiresAt == 0 && ideal.blockExpiresAt > 0 {
        AllTooOld(w.hits, a.now - limits.ttl);
      } else if w.blockExpiresAt == 0 && w.hits != ideal.hits {
        AllTooOld(ideal.hits, a.now - limits.ttl);
      }
    }
  }

  lemma RequestKeepsAlike(k: Keys, ideal: Window, t: int, a: Arrival, limits: Limits)
    requires Alike(k, ideal, t, limits) && t <= a.now && 1 <= a.now && MayExpire(k, a)
    ensures Blocks(Dropped(k, a), a.now, limits) == Blocks(ideal, a.now, limits)
    ensures Alike(KeysAfter(k, a, limits), After(ideal, a.now, limits), a.now, limits)
  {
    SameCounted(k, ideal, t, a, limits);
  }

  lemma {:induction false} StaysAlike(arrivals: seq<Arrival>, limits: Limits)
    requires Plausible(arrivals, limits)
    ensures Alike(KeysSeen(arrivals, limits), IdealSeen(arrivals, limits),
                  if arrivals == [] then 0 else arrivals[|arrivals| - 1].now, limits)
  {
    if arrivals != [] {
      var before, a := arrivals[..|arrivals| - 1], arrivals[|arrivals| - 1];
      StaysAlike(before, limits);
      RequestKeepsAlike(KeysSeen(before, limits), IdealSeen(before, limits),
                        if before == [] then 0 else before[|before| - 1].now, a, limits);
    }
  }

  /**
    Expiry is transparent: whatever keys Redis has dropped by then, at or after their time, the next request is blocked
    exactly if it would be blocked by keys that never expire.
   */
  lemma ExpiryIsTransparent(arrivals: seq<Arrival>, a: Arrival, limits: Limits)
    requires Plausible(arrivals + [a], limits)
    ensures Blocks(Dropped(KeysSeen(arrivals, limits), a), a.now, limits)
      == Blocks(IdealSeen(arrivals, limits), a.now, limits)
  {
    assert (arrivals + [a])[..|arrivals|] == arrivals;
    StaysAlike(arrivals, limits);
    RequestKeepsAlike(KeysSeen(arrivals, limits), IdealSeen(arrivals, limits),
                      if arrivals == [] then 0 else arrivals[|arrivals| - 1].now, a, limits);
  }
}
