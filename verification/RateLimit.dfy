/** The process-local fixed-window rate limiter.

    Times are reals (the monotonic clock), a bucket is the pair (start, count) kept per key.
    `CheckBucket` is the specification of one call; `Limiter` is the dictionary that the code
    updates; the lemmas speak about a whole run of calls. */
module RateLimit {

  datatype Bucket = Bucket(start: real, count: nat)

  datatype Verdict = Verdict(allowed: bool, remaining: nat, retryAfter: nat)

  function Max(a: int, b: int): int { if a < b then b else a }

  function Min(a: int, b: int): int { if a < b then a else b }

  /** The bucket that a call at `now` leaves behind. */
  function CheckBucket(window: nat, old_: Bucket, now: real): Bucket {
    if now - old_.start >= window as real then Bucket(now, 1) else Bucket(old_.start, old_.count + 1)
  }

  function BucketOf(buckets: map<string, Bucket>, key: string, now: real): Bucket {
    if key in buckets then buckets[key] else Bucket(now, 0)
  }

  function VerdictOf(limit: nat, window: nat, b: Bucket, now: real): Verdict {
    Verdict(b.count <= limit, Max(0, limit - b.count), Max(1, (window as real - (now - b.start)).Floor))
  }

  class Limiter {
    const limit: nat
    const window: nat
    var buckets: map<string, Bucket>

    constructor (limit: int, windowSeconds: int)
      ensures this.limit >= 1 && this.window >= 1
      ensures this.limit == Max(1, limit) && this.window == Max(1, windowSeconds)
      ensures buckets == map[]
    {
      this.limit := Max(1, limit);
      this.window := Max(1, windowSeconds);
      buckets := map[];
    }

    method Check(key: string, now: real) returns (v: Verdict)
      modifies this
      ensures buckets == RunMap(window, old(buckets), [Call(key, now)])
      ensures v == VerdictOf(limit, window, buckets[key], now)
    {
      var start, count := now, 0;
      if key in buckets {
        start, count := buckets[key].start, buckets[key].count;
      }
      if now - start >= window as real {
        start, count := now, 0;
      }
      count := count + 1;
      buckets := buckets[key := Bucket(start, count)];
      var remaining: nat := Max(0, limit - count);
      var retryAfter: nat := Max(1, (window as real - (now - start)).Floor);
      v := Verdict(count <= limit, remaining, retryAfter);
    }

    method Reset()
      modifies this
      ensures buckets == map[]
    {
      buckets := map[];
    }
  }

  // ---------------------------------------------------------------- runs over all keys

  datatype Call = Call(key: string, now: real)

  /** The dictionary after a run of calls. */
  function RunMap(window: nat, buckets: map<string, Bucket>, calls: seq<Call>): (r: map<string, Bucket>)
    ensures r.Keys == buckets.Keys + set c | c in calls :: c.key
  {
    if calls == [] then buckets
    else
      var init := calls[..|calls| - 1];
      var last := calls[|calls| - 1];
      var before := RunMap(window, buckets, init);
      assert (set c | c in calls :: c.key) == (set c | c in init :: c.key) + {last.key} by {
        assert calls == init + [last];
      }
      before[last.key := CheckBucket(window, BucketOf(before, last.key, last.now), last.now)]
  }

  /** The times at which one key was called, in order. */
  function TimesOf(key: string, calls: seq<Call>): seq<real> {
    if calls == [] then []
    else
      var init := TimesOf(key, calls[..|calls| - 1]);
      if calls[|calls| - 1].key == key then init + [calls[|calls| - 1].now] else init
  }

  /** The bucket after each call of a single key. */
  function Trace(window: nat, times: seq<real>): (r: seq<Bucket>)
    ensures |r| == |times|
  {
    if times == [] then []
    else
      var init := Trace(window, times[..|times| - 1]);
      var now := times[|times| - 1];
      var prior := if init == [] then Bucket(now, 0) else init[|init| - 1];
      init + [CheckBucket(window, prior, now)]
  }

  /** A key's bucket depends on that key's own calls only: other keys never interfere. */
  lemma {:induction false} KeysAreIndependent(window: nat, calls: seq<Call>, key: string)
    ensures key in RunMap(window, map[], calls) <==> TimesOf(key, calls) != []
    ensures TimesOf(key, calls) != [] ==>
              var trace := Trace(window, TimesOf(key, calls));
              RunMap(window, map[], calls)[key] == trace[|trace| - 1]
  {
    if calls != [] {
      var init := calls[..|calls| - 1];
      KeysAreIndependent(window, init, key);
      if calls[|calls| - 1].key == key {
        var times := TimesOf(key, calls);
        assert times[..|times| - 1] == TimesOf(key, init);
      }
    }
  }

  // ---------------------------------------------------------------- one key

  ghost predicate NonDecreasing(times: seq<real>) {
    forall i, j :: 0 <= i <= j < |times| ==> times[i] <= times[j]
  }

  /** Indices of the calls that fell into the bucket starting at `start`. */
  ghost function InBucket(trace: seq<Bucket>, start: real): set<nat> {
    set i: nat | i < |trace| && trace[i].start == start
  }

  /** Indices of the accepted calls of that bucket. */
  ghost function AcceptedInBucket(trace: seq<Bucket>, start: real, limit: nat): set<nat> {
    set i: nat | i < |trace| && trace[i].start == start && trace[i].count <= limit
  }

  /** Indices of the calls accepted at a time in [from, from + window). */
  ghost function AcceptedWithin(trace: seq<Bucket>, times: seq<real>, limit: nat, from: real, window: nat): set<nat>
    requires |trace| == |times|
  {
    set i: nat | i < |trace| && trace[i].count <= limit && from <= times[i] < from + window as real
  }

  lemma {:induction false} TracePrefix(window: nat, times: seq<real>, n: nat)
    requires n <= |times|
    ensures Trace(window, times[..n]) == Trace(window, times)[..n]
  {
    if n < |times| {
      TracePrefix(window, times[..|times| - 1], n);
      assert times[..|times| - 1][..n] == times[..n];
      assert Trace(window, times)[..|times| - 1] == Trace(window, times[..|times| - 1]);
    } else {
      assert times[..n] == times;
    }
  }

  /** How each bucket follows from the one before it. */
  lemma TraceStep(window: nat, times: seq<real>, i: nat)
    requires i < |times|
    ensures Trace(window, times)[i] ==
            CheckBucket(window, if i == 0 then Bucket(times[0], 0) else Trace(window, times)[i - 1], times[i])
  {
    TracePrefix(window, times, i + 1);
    TracePrefix(window, times, i);
    assert times[..i + 1][..i] == times[..i];
    assert Trace(window, times)[i] == Trace(window, times[..i + 1])[i];
  }

  /** Bucket starts never go back, and two different buckets are a whole window apart. The clock is read
      before the lock is taken, so the times themselves may go back. */
  lemma {:induction false} StartsAreSpaced(window: nat, times: seq<real>, i: nat, j: nat)
    requires window >= 1 && i <= j < |times|
    ensures var t := Trace(window, times);
            && times[i] < t[i].start + window as real
            && (t[i].start == t[j].start || t[i].start + window as real <= t[j].start)
    decreases j
  {
    TraceStep(window, times, i);
    if i < j {
      StartsAreSpaced(window, times, i, j - 1);
      TraceStep(window, times, j);
    }
  }

  /** A bucket starts no later than its calls, if the times never go back. */
  lemma {:induction false} StartsBefore(window: nat, times: seq<real>, i: nat)
    requires window >= 1 && NonDecreasing(times) && i < |times|
    ensures Trace(window, times)[i].start <= times[i]
  {
    TraceStep(window, times, i);
    if i > 0 { StartsBefore(window, times, i - 1); }
  }

  /** The count stored in a bucket is the number of calls of that bucket so far. */
  lemma {:induction false} CountIsExact(window: nat, times: seq<real>, i: nat)
    requires window >= 1 && i < |times|
    ensures var t := Trace(window, times);
            t[i].count == |set k: nat | k <= i && t[k].start == t[i].start|
    decreases i
  {
    var t := Trace(window, times);
    TraceStep(window, times, i);
    var here := set k: nat | k <= i && t[k].start == t[i].start;
    if i == 0 {
      assert here == {0};
    } else {
      var before := set k: nat | k <= i - 1 && t[k].start == t[i - 1].start;
      CountIsExact(window, times, i - 1);
      StartsAreSpaced(window, times, i - 1, i - 1);
      if t[i].start == t[i - 1].start {
        assert here == before + {i};
      } else {
        forall k: nat | k < i ensures t[k].start != t[i].start {
          StartsAreSpaced(window, times, k, i - 1);
        }
        assert here == {i};
      }
    }
  }

  /** Within a bucket, a call is accepted exactly while the bucket holds at most `limit` calls:
      of n calls, min(n, limit) are accepted. */
  lemma {:induction false} AcceptedPerBucket(window: nat, times: seq<real>, limit: nat, start: real)
    requires window >= 1
    ensures var t := Trace(window, times);
            |AcceptedInBucket(t, start, limit)| == Min(|InBucket(t, start)|, limit)
    decreases |times|
  {
    hide Trace;
    var t := Trace(window, times);
    if times == [] {
      assert InBucket(t, start) == {} && AcceptedInBucket(t, start, limit) == {};
    } else {
      var n := |times| - 1;
      var t' := Trace(window, times[..n]);
      TracePrefix(window, times, n);
      AcceptedPerBucket(window, times[..n], limit, start);
      assert forall k: nat :: k < n ==> t[k] == t'[k];
      if t[n].start == start {
        CountIsExact(window, times, n);
        assert (set k: nat | k <= n && t[k].start == t[n].start) == InBucket(t', start) + {n};
        assert InBucket(t, start) == InBucket(t', start) + {n};
        if t[n].count <= limit {
          assert AcceptedInBucket(t, start, limit) == AcceptedInBucket(t', start, limit) + {n};
        } else {
          assert AcceptedInBucket(t, start, limit) == AcceptedInBucket(t', start, limit);
        }
      } else {
        assert InBucket(t, start) == InBucket(t', start);
        assert AcceptedInBucket(t, start, limit) == AcceptedInBucket(t', start, limit);
      }
    }
  }

  /** Some call opened the bucket that call i belongs to, exactly at the bucket's start. */
  lemma {:induction false} BucketIsOpened(window: nat, times: seq<real>, i: nat) returns (k: nat)
    requires window >= 1 && i < |times|
    ensures k <= i && Trace(window, times)[k] == Bucket(times[k], 1) && times[k] == Trace(window, times)[i].start
    decreases i
  {
    TraceStep(window, times, i);
    if Trace(window, times)[i] == Bucket(times[i], 1) {
      k := i;
    } else {
      k := BucketIsOpened(window, times, i - 1);
    }
  }

  /** The sliding-window bound. A fixed window lets at most two buckets overlap an interval of one
      window length, and the call that opened the older one lies outside it: 2 * limit - 1 calls. */
  lemma {:induction false} SlidingBound(window: nat, times: seq<real>, limit: nat, from: real)
    requires window >= 1 && limit >= 1 && NonDecreasing(times)
    ensures |AcceptedWithin(Trace(window, times), times, limit, from, window)| <= 2 * limit - 1
  {
    var t := Trace(window, times);
    var hits := AcceptedWithin(t, times, limit, from, window);
    if hits != {} {
      var first, last := MinOf(hits), MaxOf(hits);
      var a, b := t[first].start, t[last].start;
      StartsAreSpaced(window, times, first, last);
      forall i | i in hits ensures t[i].start == a || t[i].start == b {
        StartsAreSpaced(window, times, first, i);
        StartsAreSpaced(window, times, i, last);
        StartsBefore(window, times, last);
      }
      AcceptedPerBucket(window, times, limit, a);
      AcceptedPerBucket(window, times, limit, b);
      var accA, accB := AcceptedInBucket(t, a, limit), AcceptedInBucket(t, b, limit);
      if a == b {
        assert hits <= accA;
        Subset(hits, accA);
      } else {
        var opener := BucketIsOpened(window, times, first);
        StartsBefore(window, times, last);
        assert opener in accA && opener !in hits;
        assert hits <= (accA - {opener}) + accB;
        Subset(hits, (accA - {opener}) + accB);
      }
    }
  }

  /** One call at 0, the rest of a bucket half a second before the window ends, and a bucket when it has. */
  function Burst(limit: nat, window: nat): (times: seq<real>)
    ensures |times| == 2 * limit
  {
    seq(2 * limit, i => if i == 0 then 0.0 else if i < limit then window as real - 0.5 else window as real)
  }

  lemma {:induction false} BurstTrace(limit: nat, window: nat, i: nat)
    requires limit >= 1 && window >= 1 && i < 2 * limit
    ensures Trace(window, Burst(limit, window))[i]
            == if i < limit then Bucket(0.0, i + 1) else Bucket(window as real, i - limit + 1)
  {
    TraceStep(window, Burst(limit, window), i);
    if i > 0 { BurstTrace(limit, window, i - 1); }
    hide Trace;
  }

  /** The numbers from 1 below n. */
  ghost function Below(n: nat): (r: set<nat>)
    ensures forall i: nat :: i in r <==> 1 <= i < n
    ensures |r| == if n == 0 then 0 else n - 1
  {
    if n <= 1 then {} else Below(n - 1) + {n - 1}
  }

  /** The bound is reached, whatever the limit and the window. */
  lemma SlidingBoundIsTight(limit: nat, window: nat)
    requires limit >= 1 && window >= 1
    ensures var times := Burst(limit, window);
            && NonDecreasing(times)
            && |AcceptedWithin(Trace(window, times), times, limit, window as real - 0.5, window)| == 2 * limit - 1
  {
    var times := Burst(limit, window);
    forall i: nat | i < 2 * limit
      ensures Trace(window, times)[i].count <= limit
    {
      BurstTrace(limit, window, i);
    }
    hide Trace;
    assert AcceptedWithin(Trace(window, times), times, limit, window as real - 0.5, window) == Below(2 * limit);
  }

  /** The advertised wait is floored to whole seconds. A rejected caller who waits exactly that long
      meets a fresh bucket if and only if the time left was a whole number or at most one second. */
  lemma RetryAfterSuffices(limit: nat, window: nat, b: Bucket, now: real)
    requires window >= 1 && b.start <= now < b.start + window as real
    ensures var left := window as real - (now - b.start);
            var wait := VerdictOf(limit, window, b, now).retryAfter;
            CheckBucket(window, b, now + wait as real) == Bucket(now + wait as real, 1)
            <==> left <= 1.0 || left == left.Floor as real
  {
    var left := window as real - (now - b.start);
    var wait := VerdictOf(limit, window, b, now).retryAfter;
    assert now + wait as real - b.start >= window as real <==> wait as real >= left;
    assert left.Floor as real <= left < left.Floor as real + 1.0;
    if CheckBucket(window, b, now + wait as real) == Bucket(now + wait as real, 1) {
      assert wait as real > 0.0;
      assert now + wait as real != b.start;
    }
  }

  // ---------------------------------------------------------------- finite sets

  ghost function MinOf(s: set<nat>): (m: nat)
    requires s != {}
    ensures m in s && forall x :: x in s ==> m <= x
  {
    var x :| x in s;
    if s == {x} then x
    else
      var m := MinOf(s - {x});
      assert s == (s - {x}) + {x};
      if x < m then x else m
  }

  ghost function MaxOf(s: set<nat>): (m: nat)
    requires s != {}
    ensures m in s && forall x :: x in s ==> x <= m
  {
    var x :| x in s;
    if s == {x} then x
    else
      var m := MaxOf(s - {x});
      assert s == (s - {x}) + {x};
      if x > m then x else m
  }

  lemma {:induction false} Subset(a: set<nat>, b: set<nat>)
    requires a <= b
    ensures |a| <= |b|
  {
    if a != {} {
      var x :| x in a;
      Subset(a - {x}, b - {x});
    }
  }
}
