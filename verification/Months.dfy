/** A contract calendar on its own: contract month `k` starts at `M(k)`, and months
    grow. Calendar.dfy proves that the source's date arithmetic is one. */
module Months {

  ghost predicate Increasing(M: nat -> int) {
    forall j: nat, k: nat :: j < k ==> M(j) < M(k)
  }

  type Contract = M: nat -> int | Increasing(M) witness (k: nat) => k as int

  /** The contract month `now` falls in; month 0 before the start. */
  function Index(M: Contract, now: int): (k: nat)
    ensures now < M(0) ==> k == 0
    ensures M(0) <= now ==> M(k) <= now < M(k + 1)
  {
    if now < M(0) then 0 else SearchIndex(M, now, 0)
  }

  function SearchIndex(M: Contract, now: int, from: nat): (k: nat)
    requires M(from) <= now
    ensures M(k) <= now < M(k + 1)
    decreases now - M(from)
  {
    if M(from + 1) <= now then SearchIndex(M, now, from + 1) else from
  }

  /** Exactly one contract month holds an instant at or after the start. */
  lemma IndexIs(M: Contract, now: int, k: nat)
    requires M(k) <= now < M(k + 1)
    ensures M(0) <= now && Index(M, now) == k
  {
    assert M(0) <= now by { if k > 0 { assert M(0) < M(k); } }
  }

  /** The index counts the months that ended by `now`. */
  lemma IndexAtMost(M: Contract, now: int, k: nat)
    ensures Index(M, now) <= k <==> now < M(k + 1)
  {
    if now < M(0) { assert M(0) < M(k + 1); }
  }

  lemma {:induction false} AtLeastAMillisecond(M: Contract, k: nat)
    ensures M(0) + k <= M(k)
  {
    if k > 0 { AtLeastAMillisecond(M, k - 1); }
  }

  function MonthsLeftInYear(M: Contract, now: int): int { 12 - Index(M, now) % 12 }

  function QuarterEnd(M: Contract, now: int): int { M((Index(M, now) / 3 + 1) * 3) }

  function RenewalDate(M: Contract, now: int): int { M((Index(M, now) / 12 + 1) * 12) }

  /** `now` is in the quarter that ends at QuarterEnd, quarters end at or before the
      renewal, and the months left run from the current month to the renewal. */
  lemma QuarterHoldsNow(M: Contract, now: int)
    requires M(0) <= now
    ensures M(Index(M, now) / 3 * 3) <= now < QuarterEnd(M, now) <= RenewalDate(M, now)
    ensures M(Index(M, now) + MonthsLeftInYear(M, now)) == RenewalDate(M, now)
  {
    var k := Index(M, now);
    NotLater(M, k / 3 * 3, k);
    NotLater(M, k + 1, (k / 3 + 1) * 3);
    NotLater(M, (k / 3 + 1) * 3, (k / 12 + 1) * 12);
    assert k + (12 - k % 12) == (k / 12 + 1) * 12;
  }

  lemma NotLater(M: Contract, j: nat, k: nat)
    requires j <= k
    ensures M(j) <= M(k)
  {
  }

  // ---------------------------------------------------- counting rising instants

  /** Instants that pass every bound, by a step at least as long as their index. */
  ghost predicate Unbounded(times: nat -> int, base: int) {
    forall n: nat :: times(n) >= base + n
  }

  /** The first index at or after `from` whose instant is past `until`. */
  function FirstPast(times: nat -> int, base: int, until: int, from: nat): (n: nat)
    requires Unbounded(times, base)
    ensures from <= n && times(n) > until
    ensures forall i: nat :: from <= i < n ==> times(i) <= until
    decreases if until >= base + from then until - base - from + 1 else 0
  {
    assert times(from) >= base + from;
    if times(from) > until then from else FirstPast(times, base, until, from + 1)
  }
}
