/**
 The two request limiters: the waitlist's sliding window and the API keys' fixed minute. Calls carry
 their key and the clock's reading; a trace is any sequence of calls with a clock that never goes back.
 */
module RateLimits {

  type Time = int
  datatype Call = Call(key: string, at: Time)

  predicate NonDecreasing(calls: seq<Call>) {
    forall i, j | 0 <= i < j < |calls| :: calls[i].at <= calls[j].at
  }

  /** How many of the times lie in [from, until). */
  function CountIn(times: seq<Time>, from: Time, until: Time): nat {
    if times == [] then 0
    else CountIn(times[..|times| - 1], from, until) + if from <= times[|times| - 1] < until then 1 else 0
  }

  lemma CountSnoc(times: seq<Time>, t: Time, from: Time, until: Time)
    ensures CountIn(times + [t], from, until) == CountIn(times, from, until) + if from <= t < until then 1 else 0
  {
    assert (times + [t])[..|times|] == times;
  }

  // ---------------------------------------------------------------- the sliding window

  datatype Sliding = Sliding(limit: int, window: int)

  const DEFAULT_LIMIT: int := 5
  const MINUTE: int := 60_000_000_000

  function NewSliding(limit: int, window: int): (l: Sliding)
    ensures l.limit > 0 && l.window > 0
    ensures l.limit == (if limit > 0 then limit else 5)
    ensures l.window == (if window > 0 then window else 60 * 1_000_000_000)
  {
    Sliding(if limit <= 0 then DEFAULT_LIMIT else limit, if window <= 0 then MINUTE else window)
  }

  /** The hits after the cutoff, in order. */
  function Kept(hits: seq<Time>, cutoff: Time): seq<Time> {
    if hits == [] then []
    else Kept(hits[..|hits| - 1], cutoff) + if hits[|hits| - 1] > cutoff then [hits[|hits| - 1]] else []
  }

  lemma KeptSnoc(hits: seq<Time>, t: Time, cutoff: Time)
    ensures Kept(hits + [t], cutoff) == Kept(hits, cutoff) + if t > cutoff then [t] else []
  {
    assert (hits + [t])[..|hits|] == hits;
  }

  lemma {:induction false} KeptTwice(hits: seq<Time>, early: Time, late: Time)
    requires early <= late
    ensures Kept(Kept(hits, early), late) == Kept(hits, late)
  {
    if hits != [] {
      var n := |hits| - 1;
      KeptTwice(hits[..n], early, late);
      if hits[n] > early {
        KeptSnoc(Kept(hits[..n], early), hits[n], late);
      } else {
        assert Kept(hits[..n], early) + [] == Kept(hits[..n], early);
      }
    }
  }

  lemma {:induction false} CountWithinKept(hits: seq<Time>, from: Time, until: Time, cutoff: Time)
    requires cutoff < from
    ensures CountIn(hits, from, until) <= |Kept(hits, cutoff)|
  {
    if hits != [] {
      CountWithinKept(hits[..|hits| - 1], from, until, cutoff);
    }
  }

  type Hits = map<string, seq<Time>>

  function HitsOf(hits: Hits, key: string): seq<Time> {
    if key in hits then hits[key] else []
  }

  predicate Allows(l: Sliding, hits: Hits, c: Call) {
    |Kept(HitsOf(hits, c.key), c.at - l.window)| < l.limit
  }

  function Hit(l: Sliding, hits: Hits, c: Call): Hits {
    var kept := Kept(HitsOf(hits, c.key), c.at - l.window);
    hits[c.key := if |kept| >= l.limit then kept else kept + [c.at]]
  }

  function After(l: Sliding, calls: seq<Call>): Hits {
    if calls == [] then map[] else Hit(l, After(l, calls[..|calls| - 1]), calls[|calls| - 1])
  }

  lemma AfterSnoc(l: Sliding, calls: seq<Call>, c: Call)
    ensures After(l, calls + [c]) == Hit(l, After(l, calls), c)
  {
    assert (calls + [c])[..|calls|] == calls;
  }

  /** The accepted times of a key, one call later. */
  function Let(l: Sliding, hits: Hits, accepted: seq<Time>, key: string, c: Call): seq<Time> {
    if c.key == key && Allows(l, hits, c) then accepted + [c.at] else accepted
  }

  /** The times of the calls with this key that were let through. */
  function Accepted(l: Sliding, calls: seq<Call>, key: string): seq<Time> {
    if calls == [] then []
    else
      var n := |calls| - 1;
      Let(l, After(l, calls[..n]), Accepted(l, calls[..n], key), key, calls[n])
  }

  /** One call leaves the remembered hits and the accepted ones alike, from the cutoff on. */
  lemma KeptAlike(hits: seq<Time>, accepted: seq<Time>, at: Time, early: Time, cutoff: Time)
    requires early <= cutoff && Kept(hits, cutoff) == Kept(accepted, cutoff)
    ensures Kept(Kept(hits, early), cutoff) == Kept(accepted, cutoff)
    ensures Kept(Kept(hits, early) + [at], cutoff) == Kept(accepted + [at], cutoff)
  {
    KeptTwice(hits, early, cutoff);
    KeptSnoc(Kept(hits, early), at, cutoff);
    KeptSnoc(accepted, at, cutoff);
  }

  lemma CallRemembers(l: Sliding, hits: Hits, accepted: seq<Time>, key: string, c: Call, cutoff: Time)
    requires c.at - l.window <= cutoff && Kept(HitsOf(hits, key), cutoff) == Kept(accepted, cutoff)
    ensures Kept(HitsOf(Hit(l, hits, c), key), cutoff) == Kept(Let(l, hits, accepted, key, c), cutoff)
  {
    if c.key == key {
      KeptAlike(HitsOf(hits, key), accepted, c.at, c.at - l.window, cutoff);
    }
  }

  /** What the limiter remembers of a key is what was accepted, as far as the window reaches. */
  lemma {:induction false} RemembersTheWindow(l: Sliding, calls: seq<Call>, key: string, cutoff: Time)
    requires NonDecreasing(calls) && (calls != [] ==> calls[|calls| - 1].at - l.window <= cutoff)
    ensures Kept(HitsOf(After(l, calls), key), cutoff) == Kept(Accepted(l, calls, key), cutoff)
  {
    if calls != [] {
      var n := |calls| - 1;
      RemembersTheWindow(l, calls[..n], key, cutoff);
      CallRemembers(l, After(l, calls[..n]), Accepted(l, calls[..n], key), key, calls[n], cutoff);
    }
  }

  /** A call is refused exactly when the window up to it already holds as many accepted hits as the limit. */
  lemma RefusedIffFull(l: Sliding, calls: seq<Call>, c: Call)
    requires NonDecreasing(calls) && (calls != [] ==> calls[|calls| - 1].at <= c.at)
    ensures Allows(l, After(l, calls), c) <==> |Kept(Accepted(l, calls, c.key), c.at - l.window)| < l.limit
  {
    var cutoff := c.at - l.window;
    RemembersTheWindow(l, calls, c.key, cutoff);
  }

  lemma LetHoldsTheLimit(l: Sliding, hits: Hits, accepted: seq<Time>, key: string, c: Call, from: Time)
    requires CountIn(accepted, from, from + l.window) <= l.limit
    requires c.key == key ==> (Allows(l, hits, c) <==> |Kept(accepted, c.at - l.window)| < l.limit)
    ensures CountIn(Let(l, hits, accepted, key, c), from, from + l.window) <= l.limit
  {
    if c.key == key {
      CountSnoc(accepted, c.at, from, from + l.window);
      if c.at < from + l.window {
        CountWithinKept(accepted, from, from + l.window, c.at - l.window);
      }
    }
  }

  /** Any half-open interval as long as the window holds at most `limit` accepted hits of a key. */
  lemma {:induction false} WindowHoldsTheLimit(l: Sliding, calls: seq<Call>, key: string, from: Time)
    requires NonDecreasing(calls) && l.window > 0 && l.limit > 0
    ensures CountIn(Accepted(l, calls, key), from, from + l.window) <= l.limit
  {
    if calls != [] {
      var n := |calls| - 1;
      WindowHoldsTheLimit(l, calls[..n], key, from);
      RefusedIffFull(l, calls[..n], calls[n]);
      LetHoldsTheLimit(l, After(l, calls[..n]), Accepted(l, calls[..n], key), key, calls[n], from);
    }
  }

  method Compact(hits: seq<Time>, cutoff: Time) returns (kept: seq<Time>)
    ensures kept == Kept(hits, cutoff)
  {
    kept := [];
    for i := 0 to |hits|
      invariant kept == Kept(hits[..i], cutoff)
    {
      assert hits[..i + 1][..i] == hits[..i];
      if hits[i] > cutoff {
        kept := kept + [hits[i]];
      }
    }
    assert hits[..|hits|] == hits;
  }

  class SlidingLimiter {
    const config: Sliding
    var hits: Hits
    ghost var calls: seq<Call>

    ghost predicate Valid()
      reads this
    {
      hits == After(config, calls)
    }

    constructor (limit: int, window: int)
      ensures Valid() && calls == [] && config == NewSliding(limit, window)
    {
      config := NewSliding(limit, window);
      hits := map[];
      calls := [];
    }

    method Allow(key: string, now: Time) returns (ok: bool)
      requires Valid()
      modifies this
      ensures Valid() && calls == old(calls) + [Call(key, now)]
      ensures ok <==> Allows(config, After(config, old(calls)), Call(key, now))
    {
      var existing := if key in hits then hits[key] else [];
      var kept := Compact(existing, now - config.window);
      AfterSnoc(config, calls, Call(key, now));
      calls := calls + [Call(key, now)];
      if |kept| >= config.limit {
        hits := hits[key := kept];
        return false;
      }
      hits := hits[key := kept + [now]];
      ok := true;
    }
  }

  // ---------------------------------------------------------------- the fixed minute

  datatype Bucket = Bucket(start: Time, count: int)
  type Buckets = map<string, Bucket>

  function Minute(t: Time): (m: Time)
    ensures m <= t < m + MINUTE && m % MINUTE == 0
  {
    t - t % MINUTE
  }

  function BucketFor(buckets: Buckets, c: Call): Bucket {
    if c.key in buckets && buckets[c.key].start == Minute(c.at) then buckets[c.key] else Bucket(Minute(c.at), 0)
  }

  predicate Admits(limit: int, buckets: Buckets, c: Call) {
    limit <= 0 || BucketFor(buckets, c).count < limit
  }

  function Tick(limit: int, buckets: Buckets, c: Call): Buckets {
    if limit <= 0 then buckets
    else
      var b := BucketFor(buckets, c);
      buckets[c.key := if b.count >= limit then b else b.(count := b.count + 1)]
  }

  function Ticked(limit: int, calls: seq<Call>): Buckets {
    if calls == [] then map[] else Tick(limit, Ticked(limit, calls[..|calls| - 1]), calls[|calls| - 1])
  }

  lemma TickedSnoc(limit: int, calls: seq<Call>, c: Call)
    ensures Ticked(limit, calls + [c]) == Tick(limit, Ticked(limit, calls), c)
  {
    assert (calls + [c])[..|calls|] == calls;
  }

  function Admit(limit: int, buckets: Buckets, times: seq<Time>, key: string, c: Call): seq<Time> {
    if c.key == key && Admits(limit, buckets, c) then times + [c.at] else times
  }

  function Admitted(limit: int, calls: seq<Call>, key: string): seq<Time> {
    if calls == [] then []
    else
      var n := |calls| - 1;
      Admit(limit, Ticked(limit, calls[..n]), Admitted(limit, calls[..n], key), key, calls[n])
  }

  lemma {:induction false} NoneSoLate(times: seq<Time>, from: Time, until: Time)
    requires forall i | 0 <= i < |times| :: times[i] < from
    ensures CountIn(times, from, until) == 0
  {
    if times != [] {
      NoneSoLate(times[..|times| - 1], from, until);
    }
  }

  predicate AllBefore(times: seq<Time>, t: Time) {
    forall i | 0 <= i < |times| :: times[i] < t
  }

  /** The bucket counts its own minute, nothing lies after that minute, and it starts no later than `now`. */
  predicate BucketOk(limit: int, buckets: Buckets, times: seq<Time>, key: string, now: Time) {
    if key in buckets then
      && buckets[key].start % MINUTE == 0
      && buckets[key].count == CountIn(times, buckets[key].start, buckets[key].start + MINUTE) <= limit
      && AllBefore(times, buckets[key].start + MINUTE)
      && buckets[key].start <= now
    else times == []
  }

  /** Two minutes that start on the minute are the same or do not overlap. */
  lemma MinutesDoNotOverlap(m: Time, t: Time)
    requires m % MINUTE == 0 && m <= t
    ensures Minute(t) == m || Minute(t) >= m + MINUTE
  {
  }

  lemma FreshCount(limit: int, buckets: Buckets, times: seq<Time>, c: Call)
    requires limit > 0 && BucketOk(limit, buckets, times, c.key, c.at)
    ensures var b := BucketFor(buckets, c);
            && b.start == Minute(c.at) && AllBefore(times, b.start + MINUTE)
            && b.count == CountIn(times, b.start, b.start + MINUTE) <= limit
  {
    if c.key in buckets {
      MinutesDoNotOverlap(buckets[c.key].start, c.at);
      if Minute(c.at) != buckets[c.key].start {
        NoneSoLate(times, Minute(c.at), Minute(c.at) + MINUTE);
      }
    }
  }

  lemma TickKeepsBucketOk(limit: int, buckets: Buckets, times: seq<Time>, key: string, c: Call)
    requires limit > 0 && BucketOk(limit, buckets, times, key, c.at)
    ensures BucketOk(limit, Tick(limit, buckets, c), Admit(limit, buckets, times, key, c), key, c.at)
  {
    if c.key == key {
      FreshCount(limit, buckets, times, c);
      CountSnoc(times, c.at, Minute(c.at), Minute(c.at) + MINUTE);
    }
  }

  lemma {:induction false} BucketsCount(limit: int, calls: seq<Call>, key: string, now: Time)
    requires limit > 0 && NonDecreasing(calls) && (calls != [] ==> calls[|calls| - 1].at <= now)
    ensures BucketOk(limit, Ticked(limit, calls), Admitted(limit, calls, key), key, now)
  {
    if calls != [] {
      var n := |calls| - 1;
      BucketsCount(limit, calls[..n], key, calls[n].at);
      TickKeepsBucketOk(limit, Ticked(limit, calls[..n]), Admitted(limit, calls[..n], key), key, calls[n]);
    }
  }

  lemma WithoutLast(calls: seq<Call>, c: Call)
    requires NonDecreasing(calls + [c])
    ensures NonDecreasing(calls) && (calls != [] ==> calls[|calls| - 1].at <= c.at)
  {
    var all := calls + [c];
    forall i, j | 0 <= i < j < |calls| ensures calls[i].at <= calls[j].at {
      assert all[i] == calls[i] && all[j] == calls[j];
    }
    if calls != [] {
      assert all[|calls| - 1] == calls[|calls| - 1] && all[|calls|] == c;
    }
  }

  /** A call is let through exactly when there is no limit, or fewer calls than that got through in its minute. */
  lemma AdmittedIff(limit: int, calls: seq<Call>, c: Call)
    requires NonDecreasing(calls + [c])
    ensures Admits(limit, Ticked(limit, calls), c)
            <==> limit <= 0 || CountIn(Admitted(limit, calls, c.key), Minute(c.at), Minute(c.at) + MINUTE) < limit
  {
    if limit > 0 {
      WithoutLast(calls, c);
      BucketsCount(limit, calls, c.key, c.at);
      AdmitsIff(limit, Ticked(limit, calls), Admitted(limit, calls, c.key), c);
    }
  }

  lemma AdmitsIff(limit: int, buckets: Buckets, times: seq<Time>, c: Call)
    requires limit > 0 && BucketOk(limit, buckets, times, c.key, c.at)
    ensures Admits(limit, buckets, c) <==> CountIn(times, Minute(c.at), Minute(c.at) + MINUTE) < limit
  {
    FreshCount(limit, buckets, times, c);
  }

  lemma AdmitHoldsTheLimit(limit: int, buckets: Buckets, times: seq<Time>, key: string, c: Call, start: Time)
    requires limit > 0 && start % MINUTE == 0 && BucketOk(limit, buckets, times, key, c.at)
    requires CountIn(times, start, start + MINUTE) <= limit
    ensures CountIn(Admit(limit, buckets, times, key, c), start, start + MINUTE) <= limit
  {
    if c.key == key {
      FreshCount(limit, buckets, times, c);
      CountSnoc(times, c.at, start, start + MINUTE);
      if start <= c.at < start + MINUTE {
        MinutesDoNotOverlap(start, c.at);
      }
    }
  }

  /** No minute that starts on the minute admits more than the limit. */
  lemma {:induction false} MinuteHoldsTheLimit(limit: int, calls: seq<Call>, key: string, start: Time)
    requires limit > 0 && NonDecreasing(calls) && start % MINUTE == 0
    ensures CountIn(Admitted(limit, calls, key), start, start + MINUTE) <= limit
  {
    if calls != [] {
      var n := |calls| - 1;
      MinuteHoldsTheLimit(limit, calls[..n], key, start);
      BucketsCount(limit, calls[..n], key, calls[n].at);
      AdmitHoldsTheLimit(limit, Ticked(limit, calls[..n]), Admitted(limit, calls[..n], key), key, calls[n], start);
    }
  }

  lemma {:induction false} CountSplit(times: seq<Time>, from: Time, mid: Time, until: Time)
    requires from <= mid <= until
    ensures CountIn(times, from, until) == CountIn(times, from, mid) + CountIn(times, mid, until)
  {
    if times != [] {
      CountSplit(times[..|times| - 1], from, mid, until);
    }
  }

  lemma {:induction false} CountWiden(times: seq<Time>, from: Time, until: Time, from': Time, until': Time)
    requires from' <= from && until <= until'
    ensures CountIn(times, from, until) <= CountIn(times, from', until')
  {
    if times != [] {
      CountWiden(times[..|times| - 1], from, until, from', until');
    }
  }

  /** Any interval of a minute's length admits at most twice the limit. */
  lemma AtMostTwiceTheLimit(limit: int, calls: seq<Call>, key: string, from: Time)
    requires limit > 0 && NonDecreasing(calls)
    ensures CountIn(Admitted(limit, calls, key), from, from + MINUTE) <= 2 * limit
  {
    var times, m := Admitted(limit, calls, key), Minute(from);
    MinuteHoldsTheLimit(limit, calls, key, m);
    MinuteHoldsTheLimit(limit, calls, key, m + MINUTE);
    CountSplit(times, m, m + MINUTE, m + 2 * MINUTE);
    CountWiden(times, from, from + MINUTE, m, m + 2 * MINUTE);
  }

  /** `limit` calls at the end of a minute and `limit` at the start of the next. */
  function Burst(limit: nat, n: nat, key: string): (calls: seq<Call>)
    ensures |calls| == n && forall i | 0 <= i < n :: calls[i] == Call(key, if i < limit then MINUTE - 1 else MINUTE)
  {
    seq(n, i => Call(key, if i < limit then MINUTE - 1 else MINUTE))
  }

  /** After n calls of the burst all n are through, and the bucket stands like this. */
  predicate BurstState(limit: nat, n: nat, key: string, buckets: Buckets, times: seq<Time>) {
    && |times| == n && (forall i | 0 <= i < n :: MINUTE - 1 <= times[i] <= MINUTE)
    && (n > 0 ==> key in buckets && buckets[key] == if n <= limit then Bucket(0, n) else Bucket(MINUTE, n - limit))
    && (n == 0 ==> key !in buckets)
  }

  lemma BurstStep(limit: nat, n: nat, key: string, buckets: Buckets, times: seq<Time>)
    requires n < 2 * limit && BurstState(limit, n, key, buckets, times)
    ensures var c := Call(key, if n < limit then MINUTE - 1 else MINUTE);
            BurstState(limit, n + 1, key, Tick(limit, buckets, c), Admit(limit, buckets, times, key, c))
  {
    assert Minute(MINUTE - 1) == 0 && Minute(MINUTE) == MINUTE;
  }

  lemma {:induction false} BurstGoesThrough(limit: nat, n: nat, key: string)
    requires n <= 2 * limit
    ensures BurstState(limit, n, key, Ticked(limit, Burst(limit, n, key)), Admitted(limit, Burst(limit, n, key), key))
  {
    if n > 0 {
      BurstGoesThrough(limit, n - 1, key);
      var calls := Burst(limit, n, key);
      assert calls[..n - 1] == Burst(limit, n - 1, key);
      BurstStep(limit, n - 1, key, Ticked(limit, calls[..n - 1]), Admitted(limit, calls[..n - 1], key));
    }
  }

  lemma {:induction false} AllCounted(times: seq<Time>, from: Time, until: Time)
    requires forall i | 0 <= i < |times| :: from <= times[i] < until
    ensures CountIn(times, from, until) == |times|
  {
    if times != [] {
      AllCounted(times[..|times| - 1], from, until);
    }
  }

  /** Twice the limit is reached: across the turn of a minute, within two nanoseconds. */
  lemma TwiceTheLimitIsReached(limit: nat, key: string)
    requires limit > 0
    ensures NonDecreasing(Burst(limit, 2 * limit, key))
    ensures CountIn(Admitted(limit, Burst(limit, 2 * limit, key), key), MINUTE - 1, MINUTE + 1) == 2 * limit
  {
    BurstGoesThrough(limit, 2 * limit, key);
    AllCounted(Admitted(limit, Burst(limit, 2 * limit, key), key), MINUTE - 1, MINUTE + 1);
  }

  class MinuteLimiter {
    const limit: int
    var buckets: Buckets
    ghost var calls: seq<Call>

    ghost predicate Valid()
      reads this
    {
      buckets == Ticked(limit, calls)
    }

    constructor (limit: int)
      ensures Valid() && calls == [] && this.limit == limit
    {
      this.limit := limit;
      buckets := map[];
      calls := [];
    }

    method Allow(key: string, at: Time) returns (ok: bool)
      requires Valid()
      modifies this
      ensures Valid() && calls == old(calls) + [Call(key, at)]
      ensures ok <==> Admits(limit, Ticked(limit, old(calls)), Call(key, at))
    {
      TickedSnoc(limit, calls, Call(key, at));
      calls := calls + [Call(key, at)];
      if limit <= 0 { return true; }
      var now := Minute(at);
      var bucket := if key in buckets then buckets[key] else Bucket(now, 0);
      if bucket.start != now {
        bucket := Bucket(now, 0);
      }
      if bucket.count >= limit {
        buckets := buckets[key := bucket];
        return false;
      }
      bucket := bucket.(count := bucket.count + 1);
      buckets := buckets[key := bucket];
      ok := true;
    }
  }
}
