/** The chat endpoint's rate limit: two sliding windows for each address, kept small by
    pruning and by a sweep. */
module Limiter {
  import opened Basics

  datatype Policy = Policy(quota: nat, windowMs: nat)

  const MINUTE := Policy(5, 60_000)
  const HOUR := Policy(20, 3_600_000)
  const LONGEST_WINDOW_MS := 3_600_000
  const SWEEP_MS := 60_000

  /** Where an address stands in one window. */
  datatype Quota = Quota(remaining: nat, resetSeconds: int)

  // ------------------------------------------------------------------------- windows

  /** The hits that a window still counts. */
  function InWindow(hits: seq<int>, now: int, windowMs: int): seq<int> {
    if hits == [] then []
    else (if now - hits[0] < windowMs then [hits[0]] else []) + InWindow(hits[1..], now, windowMs)
  }

  ghost predicate Sorted(hits: seq<int>) {
    forall i, j :: 0 <= i <= j < |hits| ==> hits[i] <= hits[j]
  }

  ghost predicate Before(hits: seq<int>, now: int) {
    forall i :: 0 <= i < |hits| ==> hits[i] <= now
  }

  /** In order, a window counts a suffix: all hits after the last one that left it. */
  lemma {:induction false} WindowIsSuffix(hits: seq<int>, now: int, windowMs: int) returns (k: nat)
    requires Sorted(hits)
    ensures k <= |hits| && InWindow(hits, now, windowMs) == hits[k..]
    ensures forall i :: 0 <= i < k ==> now - hits[i] >= windowMs
    ensures forall i :: k <= i < |hits| ==> now - hits[i] < windowMs
  {
    if hits == [] {
      k := 0;
    } else {
      var rest := WindowIsSuffix(hits[1..], now, windowMs);
      if now - hits[0] < windowMs {
        assert forall i :: 0 <= i < |hits[1..]| ==> hits[0] <= hits[1..][i];
        k := 0;
        assert [hits[0]] + hits[1..] == hits;
      } else {
        k := rest + 1;
      }
    }
  }

  lemma {:induction false} WindowConcat(a: seq<int>, b: seq<int>, now: int, windowMs: int)
    ensures InWindow(a + b, now, windowMs) == InWindow(a, now, windowMs) + InWindow(b, now, windowMs)
  {
    if a == [] {
      assert a + b == b;
    } else {
      assert (a + b)[1..] == a[1..] + b;
      WindowConcat(a[1..], b, now, windowMs);
    }
  }

  /** What a shorter window counts later, it counts of what a longer one counted. */
  lemma {:induction false} WindowOfWindow(hits: seq<int>, now: int, longer: int, later: int, shorter: int)
    requires now <= later && shorter <= longer
    ensures InWindow(InWindow(hits, now, longer), later, shorter) == InWindow(hits, later, shorter)
  {
    if hits != [] {
      WindowOfWindow(hits[1..], now, longer, later, shorter);
      var rest := InWindow(hits[1..], now, longer);
      assert ([hits[0]] + rest)[1..] == rest && [] + rest == rest;
    }
  }

  // ------------------------------------------------------------------------ verdicts

  function Ceil(ms: int): int { if ms % 1000 == 0 then ms / 1000 else ms / 1000 + 1 }

  function QuotaOf(hits: seq<int>, now: int, p: Policy): Quota {
    var inWindow := InWindow(hits, now, p.windowMs);
    Quota(
      if |inWindow| >= p.quota then 0 else p.quota - |inWindow|,
      if inWindow == [] then 0 else Ceil(inWindow[0] + p.windowMs - now))
  }

  function QuotaState(hits: seq<int>, now: int): seq<Quota> {
    [QuotaOf(hits, now, MINUTE), QuotaOf(hits, now, HOUR)]
  }

  /** Every window has room for a request at `now`. */
  predicate HasRoom(hits: seq<int>, now: int) {
    QuotaOf(hits, now, MINUTE).remaining > 0 && QuotaOf(hits, now, HOUR).remaining > 0
  }

  function RetryAfterSeconds(quotas: seq<Quota>): int {
    if quotas == [] then 0
    else
      var rest := RetryAfterSeconds(quotas[..|quotas| - 1]);
      var q := quotas[|quotas| - 1];
      if q.remaining == 0 then Max(rest, q.resetSeconds) else rest
  }

  /** How many hits are less than a window old. */
  ghost function Counted(hits: seq<int>, now: int, windowMs: int): nat {
    |set i: nat | i < |hits| && now - hits[i] < windowMs|
  }

  function Range(a: nat, b: nat): set<nat>
    requires a <= b
    decreases b
  {
    if a == b then {} else Range(a, b - 1) + {b - 1}
  }

  lemma {:induction false} RangeIs(a: nat, b: nat)
    requires a <= b
    ensures |Range(a, b)| == b - a && forall i: nat :: i in Range(a, b) <==> a <= i < b
    decreases b
  {
    if a < b { RangeIs(a, b - 1); }
  }

  lemma InWindowCounts(hits: seq<int>, now: int, windowMs: int)
    requires Sorted(hits)
    ensures |InWindow(hits, now, windowMs)| == Counted(hits, now, windowMs)
    ensures InWindow(hits, now, windowMs) != [] ==>
              exists k :: 0 <= k < |hits| && InWindow(hits, now, windowMs)[0] == hits[k] && now - hits[k] < windowMs
                          && forall i :: 0 <= i < k ==> now - hits[i] >= windowMs
  {
    hide Counted;
    var k := WindowIsSuffix(hits, now, windowMs);
    SuffixCounts(hits, now, windowMs, k);
    if k < |hits| { assert hits[k..][0] == hits[k]; }
  }

  lemma SuffixCounts(hits: seq<int>, now: int, windowMs: int, k: nat)
    requires k <= |hits|
    requires forall i :: 0 <= i < k ==> now - hits[i] >= windowMs
    requires forall i :: k <= i < |hits| ==> now - hits[i] < windowMs
    ensures Counted(hits, now, windowMs) == |hits| - k
  {
    RangeIs(k, |hits|);
    assert (set i: nat | i < |hits| && now - hits[i] < windowMs) == Range(k, |hits|);
  }

  /** A request has room exactly while fewer than five were accepted in the last minute and
      fewer than twenty in the last hour; a window reports what is left of its quota, and
      the whole seconds, rounded up, until its oldest request leaves it. */
  lemma RoomIff(log: seq<int>, now: int)
    requires Sorted(log)
    ensures HasRoom(log, now) <==> Counted(log, now, 60_000) < 5 && Counted(log, now, 3_600_000) < 20
    ensures QuotaState(log, now) == [QuotaOf(log, now, MINUTE), QuotaOf(log, now, HOUR)]
    ensures QuotaOf(log, now, MINUTE).remaining == if Counted(log, now, 60_000) >= 5 then 0 else 5 - Counted(log, now, 60_000)
    ensures QuotaOf(log, now, HOUR).remaining == if Counted(log, now, 3_600_000) >= 20 then 0 else 20 - Counted(log, now, 3_600_000)
    ensures forall p :: p == MINUTE || p == HOUR ==>
              var reset := QuotaOf(log, now, p).resetSeconds;
              if Counted(log, now, p.windowMs) == 0 then reset == 0
              else exists k :: 0 <= k < |log| && now - log[k] < p.windowMs && (forall i :: 0 <= i < k ==> now - log[i] >= p.windowMs)
                               && 1000 * (reset - 1) < log[k] + p.windowMs - now <= 1000 * reset
  {
    hide Counted, InWindow;
    InWindowCounts(log, now, 60_000);
    InWindowCounts(log, now, 3_600_000);
    forall p | p == MINUTE || p == HOUR
      ensures var reset := QuotaOf(log, now, p).resetSeconds;
              if Counted(log, now, p.windowMs) == 0 then reset == 0
              else exists k :: 0 <= k < |log| && now - log[k] < p.windowMs && (forall i :: 0 <= i < k ==> now - log[i] >= p.windowMs)
                               && 1000 * (reset - 1) < log[k] + p.windowMs - now <= 1000 * reset
    {
    }
  }

  // ---------------------------------------------------------------- every accepted hit

  /** Every hit ever accepted: in order, each when both windows had room for it. */
  ghost predicate Accepted(log: seq<int>) {
    && Sorted(log)
    && (forall n {:trigger log[..n]} :: 0 <= n < |log| ==> HasRoom(log[..n], log[n]))
  }

  lemma AcceptedGrows(log: seq<int>, now: int)
    requires Accepted(log) && Before(log, now) && HasRoom(log, now)
    ensures Accepted(log + [now])
  {
    var next := log + [now];
    forall n {:trigger next[..n]} | 0 <= n < |next| ensures HasRoom(next[..n], next[n]) {
      if n < |log| { assert next[..n] == log[..n]; } else { assert next[..n] == log; }
    }
  }

  lemma AcceptedPrefix(log: seq<int>, n: nat)
    requires Accepted(log) && n <= |log|
    ensures Accepted(log[..n])
  {
    forall m {:trigger log[..n][..m]} | 0 <= m < n ensures HasRoom(log[..n][..m], log[..n][m]) {
      assert log[..n][..m] == log[..m];
    }
  }

  /** A window that ends at or after the last hit never counts more than its quota. */
  lemma WindowHoldsQuota(log: seq<int>, now: int, p: Policy)
    requires Accepted(log) && Before(log, now) && (p == MINUTE || p == HOUR)
    ensures |InWindow(log, now, p.windowMs)| <= p.quota
  {
    if log != [] {
      var n := |log| - 1;
      assert HasRoom(log[..n], log[n]);
      assert log == log[..n] + [log[n]];
      WindowConcat(log[..n], [log[n]], now, p.windowMs);
      WindowShrinks(log[..n], log[n], now, p.windowMs);
      assert InWindow([log[n]], now, p.windowMs) == [log[n]] || InWindow([log[n]], now, p.windowMs) == [];
    }
  }

  lemma {:induction false} WindowShrinks(hits: seq<int>, now: int, later: int, windowMs: int)
    requires now <= later
    ensures |InWindow(hits, later, windowMs)| <= |InWindow(hits, now, windowMs)|
  {
    if hits != [] { WindowShrinks(hits[1..], now, later, windowMs); }
  }

  /** The hits of the half-open stretch after `from`, as long as a window. */
  function Within(log: seq<int>, from: int, windowMs: int): seq<int> {
    if log == [] then []
    else (if from < log[0] <= from + windowMs then [log[0]] else []) + Within(log[1..], from, windowMs)
  }

  lemma {:induction false} WithinConcat(a: seq<int>, b: seq<int>, from: int, windowMs: int)
    ensures Within(a + b, from, windowMs) == Within(a, from, windowMs) + Within(b, from, windowMs)
  {
    if a == [] {
      assert a + b == b;
    } else {
      assert (a + b)[1..] == a[1..] + b;
      WithinConcat(a[1..], b, from, windowMs);
    }
  }

  /** In any stretch of time as long as a window, wherever it starts, no more requests
      than its quota are ever accepted. */
  lemma {:induction false} NeverMoreThanQuota(log: seq<int>, from: int, p: Policy)
    requires Accepted(log) && (p == MINUTE || p == HOUR)
    ensures |Within(log, from, p.windowMs)| <= p.quota
  {
    hide Accepted;
    if log != [] {
      var n := |log| - 1;
      var front, last := log[..n], log[n];
      assert log == front + [last];
      WithinConcat(front, [last], from, p.windowMs);
      AcceptedPrefix(log, n);
      NeverMoreThanQuota(front, from, p);
      if from < last <= from + p.windowMs {
        assert Before(log, last) by { LastIsNewest(log); }
        WindowHoldsQuota(log, last, p);
        WithinIsCounted(log, from, last, p.windowMs);
      } else {
        assert Within([last], from, p.windowMs) == [];
      }
    }
  }

  lemma LastIsNewest(log: seq<int>)
    requires Accepted(log) && log != []
    ensures Before(log, log[|log| - 1])
  {
  }

  lemma {:induction false} WithinIsCounted(log: seq<int>, from: int, now: int, windowMs: int)
    requires from < now <= from + windowMs
    ensures |Within(log, from, windowMs)| <= |InWindow(log, now, windowMs)|
  {
    if log != [] { WithinIsCounted(log[1..], from, now, windowMs); }
  }

  // ------------------------------------------------------------------ when to retry

  lemma QuotaRefills(log: seq<int>, now: int, p: Policy, seconds: nat)
    requires Accepted(log) && Before(log, now) && (p == MINUTE || p == HOUR)
    ensures var q := QuotaOf(log, now, p);
            QuotaOf(log, now + 1000 * seconds, p).remaining > 0 <==> q.remaining > 0 || seconds >= q.resetSeconds
  {
    var later := now + 1000 * seconds;
    var k := WindowIsSuffix(log, now, p.windowMs);
    var m := WindowIsSuffix(log, later, p.windowMs);
    WindowHoldsQuota(log, now, p);
    WindowShrinks(log, now, later, p.windowMs);
    if |InWindow(log, now, p.windowMs)| >= p.quota {
      var ms := log[k] + p.windowMs - now;
      assert later - log[k] >= p.windowMs <==> 1000 * seconds >= ms;
      CeilIsLeast(ms, seconds);
      assert m > k <==> later - log[k] >= p.windowMs;
    }
  }

  lemma CeilIsLeast(ms: int, seconds: int)
    ensures 1000 * seconds >= ms <==> seconds >= Ceil(ms)
  {
  }

  /** The retry time is the least whole number of seconds after which a request is
      accepted, when none comes in between. */
  lemma RetryIsLeast(log: seq<int>, now: int, seconds: nat)
    requires Accepted(log) && Before(log, now)
    ensures HasRoom(log, now + 1000 * seconds) <==> seconds >= RetryAfterSeconds(QuotaState(log, now))
  {
    hide QuotaOf;
    QuotaRefills(log, now, MINUTE, seconds);
    QuotaRefills(log, now, HOUR, seconds);
    var quotas := QuotaState(log, now);
    assert quotas[..1] == [quotas[0]] && quotas[..1][..0] == [];
    RetryOfTwo(quotas[0], quotas[1]);
  }

  lemma RetryOfTwo(a: Quota, b: Quota)
    ensures RetryAfterSeconds([a, b]) ==
            Max(if a.remaining == 0 then Max(0, a.resetSeconds) else 0, if b.remaining == 0 then b.resetSeconds else 0)
  {
    assert [a, b][..1] == [a] && [a][..0] == [];
    assert RetryAfterSeconds([a]) == if a.remaining == 0 then Max(0, a.resetSeconds) else 0;
  }

  // -------------------------------------------------- what the stored hits stand for

  /** All the hits of an address, of which `stored` are kept: from `clock` on, every
      window counts the same of both. */
  ghost predicate Stands(log: seq<int>, stored: seq<int>, clock: int) {
    && Accepted(log) && Before(log, clock) && Sorted(stored) && |stored| <= HOUR.quota
    && InWindow(stored, clock, LONGEST_WINDOW_MS) == InWindow(log, clock, LONGEST_WINDOW_MS)
  }

  lemma StandsLater(log: seq<int>, stored: seq<int>, clock: int, now: int)
    requires Stands(log, stored, clock) && clock <= now
    ensures Stands(log, stored, now)
  {
    WindowOfWindow(log, clock, LONGEST_WINDOW_MS, now, LONGEST_WINDOW_MS);
    WindowOfWindow(stored, clock, LONGEST_WINDOW_MS, now, LONGEST_WINDOW_MS);
  }

  lemma StaleIsEmpty(log: seq<int>, stored: seq<int>, now: int)
    requires Stands(log, stored, now) && (stored == [] || now - stored[|stored| - 1] >= LONGEST_WINDOW_MS)
    ensures Stands(log, [], now)
  {
    var k := WindowIsSuffix(stored, now, LONGEST_WINDOW_MS);
  }

  lemma PrunedStands(log: seq<int>, stored: seq<int>, now: int)
    requires Stands(log, stored, now)
    ensures var pruned := InWindow(stored, now, LONGEST_WINDOW_MS);
            Stands(log, pruned, now) && pruned == InWindow(log, now, LONGEST_WINDOW_MS)
  {
    var k := WindowIsSuffix(stored, now, LONGEST_WINDOW_MS);
    WindowOfWindow(stored, now, LONGEST_WINDOW_MS, now, LONGEST_WINDOW_MS);
    WindowHoldsQuota(log, now, HOUR);
  }

  lemma SameVerdict(log: seq<int>, stored: seq<int>, now: int)
    requires Stands(log, stored, now)
    ensures QuotaState(stored, now) == QuotaState(log, now) && (HasRoom(stored, now) <==> HasRoom(log, now))
  {
    WindowOfWindow(log, now, LONGEST_WINDOW_MS, now, MINUTE.windowMs);
    WindowOfWindow(stored, now, LONGEST_WINDOW_MS, now, MINUTE.windowMs);
  }

  lemma OneMore(log: seq<int>, stored: seq<int>, now: int)
    requires Stands(log, stored, now) && HasRoom(log, now) && stored == InWindow(log, now, LONGEST_WINDOW_MS)
    ensures Stands(log + [now], stored + [now], now)
  {
    hide Accepted, InWindow, Sorted;
    AcceptedGrows(log, now);
    WindowConcat(log, [now], now, LONGEST_WINDOW_MS);
    WindowConcat(stored, [now], now, LONGEST_WINDOW_MS);
    StoredIsBefore(log, now);
    SortedGrows(stored, now);
  }

  lemma StoredIsBefore(log: seq<int>, now: int)
    requires Accepted(log) && Before(log, now)
    ensures forall i :: 0 <= i < |InWindow(log, now, LONGEST_WINDOW_MS)| ==> InWindow(log, now, LONGEST_WINDOW_MS)[i] <= now
  {
    AcceptedIsSorted(log);
    var k := WindowIsSuffix(log, now, LONGEST_WINDOW_MS);
  }

  lemma SortedGrows(stored: seq<int>, now: int)
    requires Sorted(stored) && forall i :: 0 <= i < |stored| ==> stored[i] <= now
    ensures Sorted(stored + [now])
  {
  }

  lemma AcceptedIsSorted(log: seq<int>)
    requires Accepted(log)
    ensures Sorted(log)
  {
  }

  // --------------------------------------------------------------------- the limiter

  function Of(hits: map<nat, seq<int>>, ip: nat): seq<int> { if ip in hits then hits[ip] else [] }

  class RateLimiter {
    var hits: map<nat, seq<int>>
    var lastSweep: int
    ghost var clock: int
    /** Every accepted request of each address, kept forever. */
    ghost var log: map<nat, seq<int>>

    ghost predicate Valid()
      reads this
    {
      forall ip: nat :: Stands(Of(log, ip), Of(hits, ip), clock)
    }

    constructor ()
      ensures Valid() && hits == map[] && log == map[]
    {
      hits, lastSweep, clock, log := map[], 0, 0, map[];
    }

    /** Forgets each address whose newest hit no window counts any more, at most once a
        minute. */
    method ForgetStale(now: int)
      requires Valid() && clock <= now
      modifies this`hits, this`lastSweep, this`clock
      ensures Valid() && clock == now && hits.Keys <= old(hits).Keys
      ensures forall ip :: ip in hits ==> hits[ip] == old(hits)[ip]
      ensures old(lastSweep) > now || now - old(lastSweep) >= 60_000 ==>
                forall ip :: ip in hits ==> hits[ip] != [] && now - hits[ip][|hits[ip]| - 1] < 3_600_000
      ensures forall ip :: ip in old(hits) && old(hits)[ip] != [] && now - old(hits)[ip][|old(hits)[ip]| - 1] < 3_600_000 ==> ip in hits
    {
      hide Stands;
      forall ip: nat ensures Stands(Of(log, ip), Of(hits, ip), now) { StandsLater(Of(log, ip), Of(hits, ip), clock, now); }
      clock := now;
      if now >= lastSweep && now - lastSweep < SWEEP_MS { return; }
      lastSweep := now;
      var left := hits.Keys;
      while left != {}
        invariant clock == now && Valid() && left <= hits.Keys <= old(hits).Keys
        invariant forall ip :: ip in hits ==> hits[ip] == old(hits)[ip]
        invariant forall ip :: ip in hits && ip !in left ==> Live(hits[ip], now)
        invariant forall ip :: ip in old(hits) && Live(old(hits)[ip], now) ==> ip in hits
        decreases |left|
      {
        var ip :| ip in left;
        left := left - {ip};
        if !Live(hits[ip], now) {
          StaleIsEmpty(Of(log, ip), hits[ip], now);
          ghost var before := hits;
          hits := hits - {ip};
          forall j: nat ensures Stands(Of(log, j), Of(hits, j), now) {
            assert Stands(Of(log, j), Of(before, j), now);
            assert j != ip ==> Of(hits, j) == Of(before, j);
          }
        }
      }
    }

    /** Counts a request if every window has room: the same answer, and the same fields,
        as if every hit had been kept. */
    method Limit(ip: nat, now: int) returns (allowed: bool, quotas: seq<Quota>)
      requires Valid() && clock <= now
      modifies this
      ensures Valid() && clock == now
      ensures allowed <==> HasRoom(Of(old(log), ip), now)
      ensures log == old(log)[ip := if allowed then Of(old(log), ip) + [now] else Of(old(log), ip)]
      ensures quotas == QuotaState(log[ip], now)
      ensures |Of(hits, ip)| <= HOUR.quota
    {
      hide Stands, HasRoom, QuotaState;
      ForgetStale(now);
      assert Stands(Of(log, ip), Of(hits, ip), now);
      var timestamps := InWindow(Of(hits, ip), now, LONGEST_WINDOW_MS);
      ghost var all, before, known := Of(log, ip), hits, log;
      PrunedStands(all, Of(hits, ip), now);
      SameVerdict(all, timestamps, now);
      allowed := HasRoom(timestamps, now);
      if allowed {
        OneMore(all, timestamps, now);
        SameVerdict(all + [now], timestamps + [now], now);
        timestamps := timestamps + [now];
        all := all + [now];
      }
      hits, log := hits[ip := timestamps], log[ip := all];
      quotas := QuotaState(timestamps, now);
      FewStand(all, timestamps, now);
      forall j: nat ensures Stands(Of(log, j), Of(hits, j), now) {
        assert Stands(Of(known, j), Of(before, j), now);
      }
    }
  }

  lemma FewStand(log: seq<int>, stored: seq<int>, now: int)
    requires Stands(log, stored, now)
    ensures |stored| <= HOUR.quota
  {
  }

  /** A window still counts its newest hit. */
  predicate Live(hits: seq<int>, now: int) {
    hits != [] && now - hits[|hits| - 1] < LONGEST_WINDOW_MS
  }
}
