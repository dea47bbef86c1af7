/** The weighted sliding-window limiter. The reference is a limiter that keeps everything it
    ever admitted and adds up the window each time; the program's limiter prunes by binary
    search and keeps a running sum. Times are milliseconds. */
module RateLimiter {
  import opened Wrappers

  datatype Entry = Entry(time: int, weight: real)

  datatype Result = Result(allowed: bool, remaining: real, retryAfterSeconds: Option<int>)

  function MaxReal(a: real, b: real): real { if a >= b then a else b }

  function Sum(es: seq<Entry>): real {
    if es == [] then 0.0 else Sum(es[..|es| - 1]) + es[|es| - 1].weight
  }

  /** The entries at or after `cutoff`. */
  function Since(es: seq<Entry>, cutoff: int): seq<Entry> {
    if es == [] then []
    else
      var init := Since(es[..|es| - 1], cutoff);
      if es[|es| - 1].time >= cutoff then init + [es[|es| - 1]] else init
  }

  /** Total weight admitted in the closed interval [lo, hi]. */
  function SumIn(es: seq<Entry>, lo: int, hi: int): real {
    if es == [] then 0.0
    else SumIn(es[..|es| - 1], lo, hi) + (if lo <= es[|es| - 1].time <= hi then es[|es| - 1].weight else 0.0)
  }

  ghost predicate Sorted(es: seq<Entry>) {
    forall i, j :: 0 <= i < j < |es| ==> es[i].time <= es[j].time
  }

  function CeilSeconds(ms: int): int { -((-ms) / 1000) }

  // ------------------------------------------------------------ the reference limiter

  function RetryAfter(log: seq<Entry>, windowMs: int, now: int): int {
    var kept := Since(log, now - windowMs);
    if kept == [] then 1 else Max(1, CeilSeconds(kept[0].time + windowMs - now))
  }

  function Decide(log: seq<Entry>, limit: real, windowMs: int, weight: real, now: int): Result {
    var used := Sum(Since(log, now - windowMs));
    if used + weight > limit then Result(false, MaxReal(0.0, limit - used), Some(RetryAfter(log, windowMs, now)))
    else Result(true, MaxReal(0.0, limit - used - weight), None)
  }

  function Admit(log: seq<Entry>, limit: real, windowMs: int, weight: real, now: int): seq<Entry> {
    if Decide(log, limit, windowMs, weight, now).allowed then log + [Entry(now, weight)] else log
  }

  // ------------------------------------------------------------ lists

  lemma {:induction false} SumConcat(a: seq<Entry>, b: seq<Entry>)
    ensures Sum(a + b) == Sum(a) + Sum(b)
  {
    if b == [] { assert a + b == a; }
    else {
      assert (a + b)[..|a + b| - 1] == a + b[..|b| - 1];
      SumConcat(a, b[..|b| - 1]);
    }
  }

  lemma SortedAppend(a: seq<Entry>, e: Entry)
    requires Sorted(a) && forall x :: x in a ==> x.time <= e.time
    ensures Sorted(a + [e])
  {
  }

  lemma SumOne(a: seq<Entry>, e: Entry)
    ensures Sum(a + [e]) == Sum(a) + e.weight
  {
    assert (a + [e])[..|a|] == a;
  }

  lemma SinceOne(a: seq<Entry>, e: Entry, cutoff: int)
    ensures Since(a + [e], cutoff) == if e.time >= cutoff then Since(a, cutoff) + [e] else Since(a, cutoff)
  {
    assert (a + [e])[..|a|] == a;
  }

  lemma {:induction false} SinceConcat(a: seq<Entry>, b: seq<Entry>, cutoff: int)
    ensures Since(a + b, cutoff) == Since(a, cutoff) + Since(b, cutoff)
  {
    if b == [] { assert a + b == a; }
    else {
      assert (a + b)[..|a + b| - 1] == a + b[..|b| - 1];
      SinceConcat(a, b[..|b| - 1], cutoff);
    }
  }

  lemma {:induction false} SinceAllOrNone(es: seq<Entry>, cutoff: int)
    ensures (forall e :: e in es ==> e.time < cutoff) ==> Since(es, cutoff) == []
    ensures (forall e :: e in es ==> e.time >= cutoff) ==> Since(es, cutoff) == es
  {
    if es != [] {
      SinceAllOrNone(es[..|es| - 1], cutoff);
      assert es[|es| - 1] in es;
      assert forall e :: e in es[..|es| - 1] ==> e in es;
    }
  }

  lemma {:induction false} SinceTwice(es: seq<Entry>, c: int, d: int)
    requires c <= d
    ensures Since(Since(es, c), d) == Since(es, d)
  {
    if es != [] {
      SinceTwice(es[..|es| - 1], c, d);
      SinceOne(Since(es[..|es| - 1], c), es[|es| - 1], d);
    }
  }

  /** A filtered list keeps the members, their bound and their order. */
  lemma {:induction false} SinceKeeps(es: seq<Entry>, cutoff: int)
    ensures forall e :: e in Since(es, cutoff) ==> e in es && e.time >= cutoff
    ensures Sorted(es) ==> Sorted(Since(es, cutoff))
  {
    if es != [] {
      var init := es[..|es| - 1];
      SinceKeeps(init, cutoff);
      if Sorted(es) {
        forall e | e in init ensures e.time <= es[|es| - 1].time {
          var i :| 0 <= i < |init| && init[i] == e;
        }
      }
    }
  }

  ghost predicate NonNegative(es: seq<Entry>) {
    forall e :: e in es ==> e.weight >= 0.0
  }

  lemma {:induction false} SumMonotone(es: seq<Entry>, c: int, d: int)
    requires NonNegative(es) && c <= d
    ensures 0.0 <= Sum(Since(es, d)) <= Sum(Since(es, c))
  {
    if es != [] {
      assert es[|es| - 1] in es;
      SumMonotone(es[..|es| - 1], c, d);
      SumOne(Since(es[..|es| - 1], c), es[|es| - 1]);
      SumOne(Since(es[..|es| - 1], d), es[|es| - 1]);
    }
  }

  /** Cutting a sorted list at its lower bound is filtering it. */
  lemma CutIsFilter(es: seq<Entry>, lo: nat, cutoff: int)
    requires lo <= |es|
    requires forall i :: 0 <= i < lo ==> es[i].time < cutoff
    requires forall i :: lo <= i < |es| ==> es[i].time >= cutoff
    ensures es[lo..] == Since(es, cutoff) && Sum(es[lo..]) == Sum(es) - Sum(es[..lo])
  {
    assert es == es[..lo] + es[lo..];
    SumConcat(es[..lo], es[lo..]);
    SinceConcat(es[..lo], es[lo..], cutoff);
    SinceAllOrNone(es[..lo], cutoff);
    SinceAllOrNone(es[lo..], cutoff);
  }

  /** The pruned list is what the full log has kept since the last cutoff, and the running
      sum is its weight. */
  ghost predicate Agrees(entries: seq<Entry>, runningSum: real, log: seq<Entry>, clock: int, horizon: int, windowMs: int) {
    && Sorted(log) && (forall e :: e in log ==> e.time <= clock)
    && windowMs >= 0 && horizon <= clock - windowMs
    && entries == Since(log, horizon)
    && runningSum == Sum(entries)
  }

  lemma PushAgrees(entries: seq<Entry>, runningSum: real, log: seq<Entry>, clock: int, horizon: int, windowMs: int, e: Entry)
    requires Agrees(entries, runningSum, log, clock, horizon, windowMs) && e.time == clock
    ensures Agrees(entries + [e], runningSum + e.weight, log + [e], clock, horizon, windowMs)
  {
    SumOne(entries, e);
    SinceOne(log, e, horizon);
    SortedAppend(log, e);
  }

  lemma PruneAgrees(entries: seq<Entry>, runningSum: real, log: seq<Entry>, clock: int, horizon: int, windowMs: int, lo: nat, now: int)
    requires Agrees(entries, runningSum, log, clock, horizon, windowMs) && clock <= now && lo <= |entries|
    requires forall i :: 0 <= i < lo ==> entries[i].time < now - windowMs
    requires forall i :: lo <= i < |entries| ==> entries[i].time >= now - windowMs
    ensures Agrees(entries[lo..], runningSum - Sum(entries[..lo]), log, now, now - windowMs, windowMs)
  {
    SinceTwice(log, horizon, now - windowMs);
    CutIsFilter(entries, lo, now - windowMs);
  }

  // ------------------------------------------------------------ the program's limiter

  class SlidingWindowRateLimiter {
    const limit: real
    const windowMs: int
    var entries: seq<Entry>
    var runningSum: real
    /** Everything ever admitted, the latest time seen and the last cutoff pruned at. */
    ghost var log: seq<Entry>
    ghost var clock: int
    ghost var horizon: int

    ghost predicate Valid()
      reads this
    {
      Agrees(entries, runningSum, log, clock, horizon, windowMs)
    }

    constructor (limit: real, windowSeconds: nat, ghost start: int)
      ensures Valid() && log == [] && clock == start
      ensures this.limit == limit && windowMs == windowSeconds * 1000
    {
      this.limit, windowMs := limit, windowSeconds * 1000;
      entries, runningSum, log, clock, horizon := [], 0.0, [], start, start - windowSeconds * 1000;
    }

    /** The first position not before `cutoff`. */
    method LowerBound(cutoff: int) returns (lo: nat)
      requires Sorted(entries)
      ensures lo <= |entries|
      ensures forall i :: 0 <= i < lo ==> entries[i].time < cutoff
      ensures forall i :: lo <= i < |entries| ==> entries[i].time >= cutoff
    {
      lo := 0;
      var hi := |entries|;
      while lo < hi
        invariant lo <= hi <= |entries|
        invariant forall i :: 0 <= i < lo ==> entries[i].time < cutoff
        invariant forall i :: hi <= i < |entries| ==> entries[i].time >= cutoff
      {
        var mid := (lo + hi) / 2;
        if entries[mid].time < cutoff { lo := mid + 1; } else { hi := mid; }
      }
    }

    /** Binary-search pruning keeps exactly the window of the full log, and the running sum
        is its weight. */
    method Prune(now: int)
      requires Valid() && clock <= now
      modifies this`entries, this`runningSum, this`clock, this`horizon
      ensures Valid() && clock == now && horizon == now - windowMs
      ensures entries == Since(log, now - windowMs)
    {
      var cutoff := now - windowMs;
      assert Sorted(entries) by { SinceKeeps(log, horizon); }
      var lo := LowerBound(cutoff);
      PruneAgrees(entries, runningSum, log, clock, horizon, windowMs, lo, now);
      Forget(lo);
      entries := entries[lo..];
      clock, horizon := now, cutoff;
    }

    /** Takes the first `lo` entries off the running sum. */
    method Forget(lo: nat)
      requires lo <= |entries|
      modifies this`runningSum
      ensures runningSum == old(runningSum) - Sum(entries[..lo])
    {
      for i := 0 to lo
        invariant runningSum == old(runningSum) - Sum(entries[..i])
      {
        assert entries[..i + 1][..i] == entries[..i];
        runningSum := runningSum - entries[i].weight;
      }
    }

    /** The decision from the pruned state, as both `check` and `peek` compute it. */
    method Look(weight: real, now: int) returns (r: Result)
      requires Valid() && clock == now && horizon == now - windowMs
      ensures r == Decide(log, limit, windowMs, weight, now)
    {
      var currentWeight := runningSum;
      if currentWeight + weight > limit {
        var retryAfter := if |entries| > 0 then CeilSeconds(entries[0].time + windowMs - now) else 1;
        return Result(false, MaxReal(0.0, limit - currentWeight), Some(Max(1, retryAfter)));
      }
      return Result(true, MaxReal(0.0, limit - currentWeight - weight), None);
    }

    /** Decides as the reference limiter would from the full log, and records what it admits. */
    method Check(weight: real, now: int) returns (r: Result)
      requires Valid() && clock <= now
      modifies this
      ensures Valid() && clock == now
      ensures r == Decide(old(log), limit, windowMs, weight, now)
      ensures log == Admit(old(log), limit, windowMs, weight, now)
    {
      Prune(now);
      r := Look(weight, now);
      if r.allowed {
        Push(Entry(now, weight));
      }
    }

    method Push(e: Entry)
      requires Valid() && e.time == clock
      modifies this`entries, this`runningSum, this`log
      ensures Valid() && log == old(log) + [e]
    {
      PushAgrees(entries, runningSum, log, clock, horizon, windowMs, e);
      entries := entries + [e];
      runningSum := runningSum + e.weight;
      log := log + [e];
    }

    /** Predicts `check` without recording. */
    method Peek(weight: real, now: int) returns (r: Result)
      requires Valid() && clock <= now
      modifies this`entries, this`runningSum, this`clock, this`horizon
      ensures Valid() && clock == now
      ensures r == Decide(log, limit, windowMs, weight, now)
    {
      Prune(now);
      r := Look(weight, now);
    }

    method Count(now: int) returns (total: real)
      requires Valid() && clock <= now
      modifies this`entries, this`runningSum, this`clock, this`horizon
      ensures Valid() && clock == now
      ensures total == Sum(Since(log, now - windowMs))
    {
      Prune(now);
      total := runningSum;
    }
  }

  // ------------------------------------------------------------ the sliding-window theorem

  datatype Request = Request(weight: real, now: int)

  /** The log after a run of checks (a peek or a count changes nothing). */
  function LogOf(log: seq<Entry>, limit: real, windowMs: int, reqs: seq<Request>): seq<Entry> {
    if reqs == [] then log
    else Admit(LogOf(log, limit, windowMs, reqs[..|reqs| - 1]), limit, windowMs, reqs[|reqs| - 1].weight, reqs[|reqs| - 1].now)
  }

  /** Non-decreasing clock, starting at `from`, and no negative weights. */
  ghost predicate Timely(reqs: seq<Request>, from: int) {
    && (forall i :: 0 <= i < |reqs| ==> reqs[i].now >= from && reqs[i].weight >= 0.0)
    && (forall i, j :: 0 <= i < j < |reqs| ==> reqs[i].now <= reqs[j].now)
  }

  /** Each entry was admitted against the window that ended when it came. */
  ghost predicate EachAdmitted(log: seq<Entry>, limit: real, windowMs: int) {
    log != [] ==>
      var init, e := log[..|log| - 1], log[|log| - 1];
      EachAdmitted(init, limit, windowMs) && Sum(Since(init, e.time - windowMs)) + e.weight <= limit
  }

  ghost predicate Sound(log: seq<Entry>, limit: real, windowMs: int) {
    Sorted(log) && NonNegative(log) && EachAdmitted(log, limit, windowMs)
  }

  lemma NonNegativeAppend(es: seq<Entry>, e: Entry)
    requires NonNegative(es) && e.weight >= 0.0
    ensures NonNegative(es + [e])
  {
  }

  lemma EachAdmittedAppend(log: seq<Entry>, e: Entry, limit: real, windowMs: int)
    requires EachAdmitted(log, limit, windowMs) && Sum(Since(log, e.time - windowMs)) + e.weight <= limit
    ensures EachAdmitted(log + [e], limit, windowMs)
  {
    assert (log + [e])[..|log + [e]| - 1] == log;
  }

  lemma AdmitSound(log: seq<Entry>, limit: real, windowMs: int, weight: real, now: int)
    requires Sound(log, limit, windowMs) && weight >= 0.0
    requires forall e :: e in log ==> e.time <= now
    ensures Sound(Admit(log, limit, windowMs, weight, now), limit, windowMs)
  {
    if Decide(log, limit, windowMs, weight, now).allowed {
      var e := Entry(now, weight);
      SortedAppend(log, e);
      NonNegativeAppend(log, e);
      EachAdmittedAppend(log, e, limit, windowMs);
    }
  }

  lemma {:induction false} RunSound(log: seq<Entry>, limit: real, windowMs: int, reqs: seq<Request>, from: int)
    requires Sound(log, limit, windowMs) && Timely(reqs, from)
    requires forall e :: e in log ==> e.time <= from
    ensures Sound(LogOf(log, limit, windowMs, reqs), limit, windowMs)
    ensures forall e :: e in LogOf(log, limit, windowMs, reqs) ==> e.time <= (if reqs == [] then from else reqs[|reqs| - 1].now)
    ensures log <= LogOf(log, limit, windowMs, reqs)
  {
    if reqs != [] {
      var init, r := reqs[..|reqs| - 1], reqs[|reqs| - 1];
      RunSound(log, limit, windowMs, init, from);
      assert init != [] ==> init[|init| - 1] == reqs[|reqs| - 2];
      AdmitSound(LogOf(log, limit, windowMs, init), limit, windowMs, r.weight, r.now);
    }
  }

  lemma {:induction false} SumInIsSince(es: seq<Entry>, lo: int, hi: int)
    requires forall e :: e in es ==> e.time <= hi
    ensures SumIn(es, lo, hi) == Sum(Since(es, lo))
  {
    if es != [] {
      assert es[|es| - 1] in es;
      SumInIsSince(es[..|es| - 1], lo, hi);
      SumOne(Since(es[..|es| - 1], lo), es[|es| - 1]);
    }
  }

  lemma LastIsLatest(log: seq<Entry>, t: int)
    requires Sorted(log) && log != [] && log[|log| - 1].time <= t
    ensures forall x :: x in log ==> x.time <= t
  {
    forall x | x in log ensures x.time <= t {
      var i :| 0 <= i < |log| && log[i] == x;
    }
  }

  /** For every T, the weight ever admitted in [T - window, T] is at most the limit. */
  lemma {:induction false} WindowBound(log: seq<Entry>, limit: real, windowMs: int, T: int)
    requires Sound(log, limit, windowMs) && limit >= 0.0
    ensures SumIn(log, T - windowMs, T) <= limit
  {
    if log != [] {
      var init, e := log[..|log| - 1], log[|log| - 1];
      if e.time > T || e.time < T - windowMs {
        WindowBound(init, limit, windowMs, T);
      } else {
        LastIsLatest(log, T);
        SumInIsSince(init, T - windowMs, T);
        SumMonotone(init, e.time - windowMs, T - windowMs);
      }
    }
  }

  /** The sliding-window theorem over runs: whatever is asked when, at no time T has more
      than `limit` been admitted in the closed window that ends at T. */
  lemma SlidingWindow(limit: real, windowMs: int, reqs: seq<Request>, from: int, T: int)
    requires Timely(reqs, from) && limit >= 0.0
    ensures SumIn(LogOf([], limit, windowMs, reqs), T - windowMs, T) <= limit
  {
    RunSound([], limit, windowMs, reqs, from);
    WindowBound(LogOf([], limit, windowMs, reqs), limit, windowMs, T);
  }

  // ------------------------------------------------------------ nothing is denied without need

  /** The decision is exact: a request is denied if and only if it would take the closed window
      that ends now above the limit. What fits to the last unit is admitted. */
  lemma DeniedIff(log: seq<Entry>, limit: real, windowMs: int, weight: real, now: int)
    requires forall e :: e in log ==> e.time <= now
    ensures !Decide(log, limit, windowMs, weight, now).allowed <==> SumIn(log, now - windowMs, now) + weight > limit
    ensures Decide(log, limit, windowMs, weight, now).retryAfterSeconds.Some? <==>
            !Decide(log, limit, windowMs, weight, now).allowed
  {
    SumInIsSince(log, now - windowMs, now);
  }

  /** `remaining` means what it says: after a check, a further request at the same moment is
      admitted exactly when it asks for no more than what remained. */
  lemma RemainingIsWhatFits(log: seq<Entry>, limit: real, windowMs: int, weight: real, now: int, next: real)
    requires windowMs >= 0 && next > 0.0
    ensures var r := Decide(log, limit, windowMs, weight, now);
            Decide(Admit(log, limit, windowMs, weight, now), limit, windowMs, next, now).allowed <==> next <= r.remaining
  {
    SinceOne(log, Entry(now, weight), now - windowMs);
    SumOne(Since(log, now - windowMs), Entry(now, weight));
  }

  function AsEntries(reqs: seq<Request>): seq<Entry> {
    if reqs == [] then []
    else AsEntries(reqs[..|reqs| - 1]) + [Entry(reqs[|reqs| - 1].now, reqs[|reqs| - 1].weight)]
  }

  /** At no request is more than the limit asked for in the window that ends with it. */
  ghost predicate Light(reqs: seq<Request>, limit: real, windowMs: int) {
    reqs != [] ==>
      var now := reqs[|reqs| - 1].now;
      Light(reqs[..|reqs| - 1], limit, windowMs) && SumIn(AsEntries(reqs), now - windowMs, now) <= limit
  }

  lemma {:induction false} EntriesAreTimely(reqs: seq<Request>, from: int, now: int)
    requires Timely(reqs, from) && (reqs != [] ==> reqs[|reqs| - 1].now <= now)
    ensures forall e :: e in AsEntries(reqs) ==> e.time <= now
  {
    if reqs != [] {
      var init := reqs[..|reqs| - 1];
      assert init != [] ==> init[|init| - 1] == reqs[|reqs| - 2];
      EntriesAreTimely(init, from, now);
    }
  }

  lemma SumInOne(es: seq<Entry>, e: Entry, lo: int, hi: int)
    ensures SumIn(es + [e], lo, hi) == SumIn(es, lo, hi) + (if lo <= e.time <= hi then e.weight else 0.0)
  {
    assert (es + [e])[..|es|] == es;
  }

  lemma FittingIsAdmitted(log: seq<Entry>, limit: real, windowMs: int, weight: real, now: int)
    requires windowMs >= 0 && forall e :: e in log ==> e.time <= now
    requires SumIn(log + [Entry(now, weight)], now - windowMs, now) <= limit
    ensures Admit(log, limit, windowMs, weight, now) == log + [Entry(now, weight)]
  {
    SumInOne(log, Entry(now, weight), now - windowMs, now);
    DeniedIff(log, limit, windowMs, weight, now);
  }

  lemma TimelyInit(reqs: seq<Request>, from: int)
    requires reqs != [] && Timely(reqs, from)
    ensures Timely(reqs[..|reqs| - 1], from)
    ensures reqs[..|reqs| - 1] != [] ==> reqs[..|reqs| - 1][|reqs| - 2].now <= reqs[|reqs| - 1].now
  {
  }

  lemma OneMoreRequest(limit: real, windowMs: int, init: seq<Request>, r: Request)
    ensures LogOf([], limit, windowMs, init + [r]) == Admit(LogOf([], limit, windowMs, init), limit, windowMs, r.weight, r.now)
    ensures AsEntries(init + [r]) == AsEntries(init) + [Entry(r.now, r.weight)]
  {
    assert (init + [r])[..|init|] == init;
  }

  /** Requests that never ask for more than the limit within any window are all admitted. */
  lemma {:induction false} LightTrafficIsAdmitted(limit: real, windowMs: int, reqs: seq<Request>, from: int)
    requires windowMs >= 0 && Timely(reqs, from) && Light(reqs, limit, windowMs)
    ensures LogOf([], limit, windowMs, reqs) == AsEntries(reqs)
  {
    if reqs != [] {
      var init, r := reqs[..|reqs| - 1], reqs[|reqs| - 1];
      TimelyInit(reqs, from);
      LightTrafficIsAdmitted(limit, windowMs, init, from);
      assert reqs == init + [r];
      OneMoreRequest(limit, windowMs, init, r);
      assert Admit(AsEntries(init), limit, windowMs, r.weight, r.now) == AsEntries(init) + [Entry(r.now, r.weight)] by {
        EntriesAreTimely(init, from, r.now);
        FittingIsAdmitted(AsEntries(init), limit, windowMs, r.weight, r.now);
      }
    }
  }

  // ------------------------------------------------------------ Retry-After

  /** Retry-After (section 10.2.3 of RFC 9110) is at least 1 and at most the window. */
  lemma RetryAfterRange(log: seq<Entry>, windowSeconds: nat, now: int)
    requires forall e :: e in log ==> e.time <= now
    ensures 1 <= RetryAfter(log, windowSeconds * 1000, now) <= Max(1, windowSeconds)
  {
    SinceKeeps(log, now - windowSeconds * 1000);
  }

  /** As long as the oldest kept entry stays in the window, so does all that was kept. */
  lemma WindowUnmoved(log: seq<Entry>, c: int, d: int)
    requires Sorted(log) && c <= d
    requires Since(log, c) != [] ==> Since(log, c)[0].time >= d
    ensures Since(log, d) == Since(log, c)
  {
    SinceKeeps(log, c);
    SinceTwice(log, c, d);
    SinceAllOrNone(Since(log, c), d);
    forall e | e in Since(log, c) ensures e.time >= d {
      var i :| 0 <= i < |Since(log, c)| && Since(log, c)[i] == e;
    }
  }

  /** Retrying too early is useless: after a denial, whatever else is asked meanwhile, a
      request at least as heavy made a second or more before Retry-After is up is denied. */
  lemma EarlyRetryDenied(log: seq<Entry>, limit: real, windowMs: nat, now: int, weight: real, meanwhile: seq<Request>, weight': real, now': int)
    requires Sound(log, limit, windowMs) && (forall e :: e in log ==> e.time <= now)
    requires weight >= 0.0 && weight' >= weight
    requires !Decide(log, limit, windowMs, weight, now).allowed
    requires Timely(meanwhile, now) && now <= now'
    requires now' <= now + 1000 * RetryAfter(log, windowMs, now) - 1000
    ensures !Decide(LogOf(log, limit, windowMs, meanwhile), limit, windowMs, weight', now').allowed
  {
    var log' := LogOf(log, limit, windowMs, meanwhile);
    assert log <= log' && NonNegative(log') by { RunSound(log, limit, windowMs, meanwhile, now); }
    StillKept(log, windowMs, now, now');
    FullerLogDenies(log, log', limit, weight, weight', now - windowMs, now' - windowMs);
  }

  lemma FullerLogDenies(log: seq<Entry>, log': seq<Entry>, limit: real, weight: real, weight': real, c: int, d: int)
    requires log <= log' && NonNegative(log') && weight' >= weight
    requires Since(log, d) == Since(log, c) && Sum(Since(log, c)) + weight > limit
    ensures Sum(Since(log', d)) + weight' > limit
  {
    LongerLogWeighsMore(log, log', d);
  }

  lemma LongerLogWeighsMore(log: seq<Entry>, log': seq<Entry>, cutoff: int)
    requires log <= log' && NonNegative(log')
    ensures Sum(Since(log', cutoff)) >= Sum(Since(log, cutoff))
  {
    var extra := log'[|log|..];
    assert log' == log + extra;
    SinceConcat(log, extra, cutoff);
    SumConcat(Since(log, cutoff), Since(extra, cutoff));
    SumMonotone(extra, cutoff, cutoff);
  }

  lemma StillKept(log: seq<Entry>, windowMs: nat, now: int, now': int)
    requires Sorted(log) && now <= now' <= now + 1000 * RetryAfter(log, windowMs, now) - 1000
    ensures Since(log, now' - windowMs) == Since(log, now - windowMs)
  {
    SinceKeeps(log, now - windowMs);
    WindowUnmoved(log, now - windowMs, now' - windowMs);
  }

  /** Waiting exactly Retry-After seconds does not always help: the window is closed, so the
      oldest entry is gone by then if and only if its age left no whole number of seconds. */
  lemma RetryOnTimeFreesOldest(log: seq<Entry>, windowMs: nat, now: int)
    requires Since(log, now - windowMs) != []
    ensures var left := Since(log, now - windowMs)[0].time + windowMs - now;
            var later := now + 1000 * RetryAfter(log, windowMs, now);
            Since(log, now - windowMs)[0].time < later - windowMs <==> left % 1000 != 0 || left == 0
  {
    SinceKeeps(log, now - windowMs);
  }

  /** It does happen: a request that took the whole limit at time 0, and one denied at once
      with Retry-After 60, is denied again after exactly 60 seconds. */
  lemma RetryOnTimeIsDenied()
    ensures var log := [Entry(0, 1.0)];
            Decide(log, 1.0, 60000, 1.0, 0) == Result(false, 0.0, Some(60)) && !Decide(log, 1.0, 60000, 1.0, 60000).allowed
  {
    var log := [Entry(0, 1.0)];
    assert log[..0] == [];
    assert Since(log, -60000) == log && Since(log, 0) == log;
    assert Sum(log) == 1.0;
  }
}
