/** Billing periods, their charges and their issue order, over any contract calendar. */
module Billing {
  import opened History
  import opened Months

  datatype Plan = Monthly | Yearly

  /** The ledger key: m5, y0, y1, y1q2. */
  datatype PeriodId = MonthId(k: nat) | YearId(y: nat) | QuarterId(year: nat, q: nat)

  datatype Period = Period(id: PeriodId, start: int, end: int, issuedAt: int)

  const MONTHLY_SEAT_USD := 25
  const YEARLY_SEAT_USD := 240
  const ADDED_SEAT_MONTH_USD := 20
  const INVOICE_GRACE_MS := 600_000

  // ------------------------------------------------------------ sums over changes

  function SumOf(rows: seq<SeatChange>, f: SeatChange -> int): int {
    if rows == [] then 0 else f(rows[0]) + SumOf(rows[1..], f)
  }

  lemma {:induction false} SumConcat(a: seq<SeatChange>, b: seq<SeatChange>, f: SeatChange -> int)
    ensures SumOf(a + b, f) == SumOf(a, f) + SumOf(b, f)
  {
    if a == [] {
      assert a + b == b;
    } else {
      assert (a + b)[1..] == a[1..] + b;
      SumConcat(a[1..], b, f);
    }
  }

  lemma {:induction false} SumPermuted(a: seq<SeatChange>, b: seq<SeatChange>, f: SeatChange -> int)
    requires multiset(a) == multiset(b)
    ensures SumOf(a, f) == SumOf(b, f)
  {
    SameSize(a, b);
    if a != [] {
      var i := IndexOf(a[0], b, a);
      OneOutOfEach(a, b, i);
      SumPermuted(a[1..], b[..i] + b[i + 1..], f);
      SumWithout(b, i, f);
    }
  }

  lemma SameSize(a: seq<SeatChange>, b: seq<SeatChange>)
    requires multiset(a) == multiset(b)
    ensures |a| == |b|
  {
    assert |multiset(a)| == |a| && |multiset(b)| == |b|;
  }

  lemma OneOutOfEach(a: seq<SeatChange>, b: seq<SeatChange>, i: nat)
    requires multiset(a) == multiset(b) && a != [] && i < |b| && b[i] == a[0]
    ensures multiset(a[1..]) == multiset(b[..i] + b[i + 1..])
  {
    OneOut(a, 0);
    OneOut(b, i);
    assert a[..0] + a[1..] == a[1..];
  }

  lemma OneOut(s: seq<SeatChange>, i: nat)
    requires i < |s|
    ensures multiset(s[..i] + s[i + 1..]) == multiset(s) - multiset{s[i]}
  {
    assert s == s[..i] + [s[i]] + s[i + 1..];
  }

  lemma IndexOf(c: SeatChange, b: seq<SeatChange>, a: seq<SeatChange>) returns (i: nat)
    requires c in a && multiset(a) == multiset(b)
    ensures i < |b| && b[i] == c
  {
    assert c in multiset(a) && c in multiset(b);
    i :| 0 <= i < |b| && b[i] == c;
  }

  lemma {:induction false} SumWithout(b: seq<SeatChange>, i: nat, f: SeatChange -> int)
    requires i < |b|
    ensures SumOf(b, f) == f(b[i]) + SumOf(b[..i] + b[i + 1..], f)
  {
    if i == 0 {
      assert b[..0] + b[1..] == b[1..];
    } else {
      assert (b[..i] + b[i + 1..])[1..] == b[1..][..i - 1] + b[1..][i..];
      SumWithout(b[1..], i - 1, f);
    }
  }

  lemma {:induction false} SumOfSums(rows: seq<SeatChange>, f: SeatChange -> int, g: SeatChange -> int, h: SeatChange -> int)
    requires forall i :: 0 <= i < |rows| ==> h(rows[i]) == f(rows[i]) + g(rows[i])
    ensures SumOf(rows, h) == SumOf(rows, f) + SumOf(rows, g)
  {
    if rows != [] { SumOfSums(rows[1..], f, g, h); }
  }

  lemma {:induction false} SumScaled(rows: seq<SeatChange>, f: SeatChange -> int, d: int, h: SeatChange -> int)
    requires forall i :: 0 <= i < |rows| ==> h(rows[i]) == d * f(rows[i])
    ensures SumOf(rows, h) == d * SumOf(rows, f)
  {
    if rows != [] {
      assert h(rows[0]) == d * f(rows[0]);
      SumScaled(rows[1..], f, d, h);
      assert d * (f(rows[0]) + SumOf(rows[1..], f)) == d * f(rows[0]) + d * SumOf(rows[1..], f);
    }
  }

  function AddedBy(t: int): SeatChange -> int {
    (c: SeatChange) => if c.at <= t then c.to - c.from else 0
  }

  /** N is the sum of its changes. */
  lemma {:induction false} CountIsSum(log: seq<SeatChange>, t: int)
    requires Chain(log)
    ensures CountAt(log, t) == SumOf(log, AddedBy(t))
  {
    if log != [] {
      var n := |log| - 1;
      assert log == log[..n] + [log[n]];
      PrefixChain(log, n);
      CountIsSum(log[..n], t);
      SumConcat(log[..n], [log[n]], AddedBy(t));
      assert log[n].from == CountBefore(log, n);
      if log[n].at <= t && n > 0 { assert log[n - 1].at <= log[n].at; }
    }
  }

  // --------------------------------------------------------------------- periods

  function MonthPeriod(M: Contract, k: nat): Period { Period(MonthId(k), M(k), M(k + 1), M(k + 1)) }

  function YearStart(M: Contract, y: nat): int { if y == 0 then M(1) else M(12 * y) }

  function YearPeriod(M: Contract, y: nat): Period {
    Period(YearId(y), YearStart(M, y), M(12 * y + 12), YearStart(M, y))
  }

  function QuarterPeriod(M: Contract, y: nat, q: nat): Period {
    Period(QuarterId(y, q), M(12 * y + 3 * q), M(12 * y + 3 * q + 3), M(12 * y + 3 * q + 3))
  }

  /** The contract's periods in issue order: months from the second on, or each
      year and then its four quarters. */
  function Nth(plan: Plan, M: Contract, n: nat): Period {
    match plan
    case Monthly => MonthPeriod(M, n + 1)
    case Yearly => if n % 5 == 0 then YearPeriod(M, n / 5) else QuarterPeriod(M, n / 5, n % 5 - 1)
  }

  /** The contract month whose start issues the n-th period. */
  function IssueMonth(plan: Plan, n: nat): nat {
    match plan
    case Monthly => n + 2
    case Yearly => if n == 0 then 1 else 12 * (n / 5) + 3 * (n % 5)
  }

  lemma IssuedAtIs(plan: Plan, M: Contract, n: nat)
    ensures Nth(plan, M, n).issuedAt == M(IssueMonth(plan, n))
    ensures IssueMonth(plan, n) > n
  {
  }

  predicate Before(a: Period, b: Period) {
    a.issuedAt < b.issuedAt || (a.issuedAt == b.issuedAt && a.start < b.start)
  }

  lemma NextIsAfter(plan: Plan, M: Contract, n: nat)
    ensures Before(Nth(plan, M, n), Nth(plan, M, n + 1))
  {
    if plan.Yearly? {
      var y, r := n / 5, n % 5;
      if r == 4 {
        assert (n + 1) / 5 == y + 1 && (n + 1) % 5 == 0;
      } else {
        assert (n + 1) / 5 == y && (n + 1) % 5 == r + 1;
      }
    }
  }

  /** Issue order is strict, so it is the order of the sort, and ids are distinct. */
  lemma {:induction false} IssueOrder(plan: Plan, M: Contract, m: nat, n: nat)
    requires m < n
    ensures Before(Nth(plan, M, m), Nth(plan, M, n))
    ensures Nth(plan, M, m).id != Nth(plan, M, n).id
    decreases n
  {
    hide Nth;
    NextIsAfter(plan, M, n - 1);
    if m < n - 1 { IssueOrder(plan, M, m, n - 1); }
    DistinctIds(plan, M, m, n);
  }

  lemma DistinctIds(plan: Plan, M: Contract, m: nat, n: nat)
    requires m != n
    ensures Nth(plan, M, m).id != Nth(plan, M, n).id
  {
    if plan.Yearly? && m / 5 == n / 5 { assert m % 5 != n % 5; }
  }

  function IssueTimes(plan: Plan, M: Contract): nat -> int {
    (n: nat) => M(IssueMonth(plan, n))
  }

  lemma IssueTimesPassAll(plan: Plan, M: Contract)
    ensures Unbounded(IssueTimes(plan, M), M(0))
  {
    forall n: nat ensures IssueTimes(plan, M)(n) >= M(0) + n {
      IssuedAtIs(plan, M, n);
      AtLeastAMillisecond(M, IssueMonth(plan, n));
    }
  }

  /** How many periods are issued at or before `until`. */
  function CountUntil(plan: Plan, M: Contract, until: int): nat {
    hide IssueTimes;
    IssueTimesPassAll(plan, M);
    FirstPast(IssueTimes(plan, M), M(0), until, 0)
  }

  lemma IssuedBy(plan: Plan, M: Contract, until: int, i: nat)
    ensures Nth(plan, M, i).issuedAt <= until <==> i < CountUntil(plan, M, until)
  {
    hide Nth, IssueMonth;
    var n := CountUntil(plan, M, until);
    IssueTimesPassAll(plan, M);
    IssuedAtIs(plan, M, i);
    IssuedAtIs(plan, M, n);
    assert IssueTimes(plan, M)(i) == Nth(plan, M, i).issuedAt;
    assert IssueTimes(plan, M)(n) == Nth(plan, M, n).issuedAt;
    if n < i { IssueOrder(plan, M, n, i); }
  }

  lemma CountsGrow(plan: Plan, M: Contract, until: int, later: int)
    requires until <= later
    ensures CountUntil(plan, M, until) <= CountUntil(plan, M, later)
  {
    hide Nth, CountUntil;
    IssuedBy(plan, M, until, CountUntil(plan, M, later));
    IssuedBy(plan, M, later, CountUntil(plan, M, later));
  }

  /** The periods issued at or before `until`, oldest first. */
  function IssuedUntil(plan: Plan, M: Contract, until: int): seq<Period> {
    seq(CountUntil(plan, M, until), (n: nat) => Nth(plan, M, n))
  }

  /** A later `until` only appends. */
  lemma LaterOnlyAppends(plan: Plan, M: Contract, until: int, later: int)
    requires until <= later
    ensures IssuedUntil(plan, M, until) <= IssuedUntil(plan, M, later)
  {
    hide Nth, CountUntil;
    CountsGrow(plan, M, until, later);
  }

  lemma NthOfYear(M: Contract, y: nat)
    ensures Nth(Yearly, M, 5 * y) == YearPeriod(M, y)
    ensures forall q: nat :: q < 4 ==> Nth(Yearly, M, 5 * y + 1 + q) == QuarterPeriod(M, y, q)
  {
    hide QuarterPeriod;
    forall q: nat | q < 4 ensures Nth(Yearly, M, 5 * y + 1 + q) == QuarterPeriod(M, y, q) {
      assert (5 * y + 1 + q) / 5 == y && (5 * y + 1 + q) % 5 == q + 1;
    }
  }

  /** No instant of the paid contract is left out or counted twice: month periods
      run from month 1 on end to end, and so do year periods and, from month 0, quarters. */
  lemma PeriodsTile(M: Contract, n: nat, q: nat)
    requires q < 3
    ensures MonthPeriod(M, n).start < MonthPeriod(M, n).end == MonthPeriod(M, n + 1).start
    ensures Nth(Monthly, M, 0).start == YearPeriod(M, 0).start == M(1)
    ensures YearPeriod(M, n).start < YearPeriod(M, n).end == YearPeriod(M, n + 1).start
    ensures QuarterPeriod(M, 0, 0).start == M(0)
    ensures QuarterPeriod(M, n, q).start < QuarterPeriod(M, n, q).end == QuarterPeriod(M, n, q + 1).start
    ensures QuarterPeriod(M, n, 3).start < QuarterPeriod(M, n, 3).end == QuarterPeriod(M, n + 1, 0).start
  {
    hide QuarterPeriod;
    YearsTile(M, n);
    QuartersTile(M, n, q);
  }

  /** A month and a quarter are issued at their end, a year's own invoice at its start. */
  lemma PeriodsIssue(M: Contract, n: nat, q: nat)
    ensures MonthPeriod(M, n).issuedAt == MonthPeriod(M, n).end && QuarterPeriod(M, n, q).issuedAt == QuarterPeriod(M, n, q).end
    ensures YearPeriod(M, n).issuedAt == YearPeriod(M, n).start
    ensures MonthPeriod(M, n).id == MonthId(n) && YearPeriod(M, n).id == YearId(n) && QuarterPeriod(M, n, q).id == QuarterId(n, q)
    ensures Nth(Monthly, M, n) == MonthPeriod(M, n + 1) && Nth(Yearly, M, 5 * n) == YearPeriod(M, n)
    ensures q < 4 ==> Nth(Yearly, M, 5 * n + 1 + q) == QuarterPeriod(M, n, q)
  {
    NthOfYear(M, n);
  }

  lemma YearsTile(M: Contract, n: nat)
    ensures YearPeriod(M, n).start < YearPeriod(M, n).end == YearPeriod(M, n + 1).start
  {
    assert 12 * (n + 1) == 12 * n + 12;
  }

  lemma QuartersTile(M: Contract, n: nat, q: nat)
    requires q < 3
    ensures QuarterPeriod(M, 0, 0).start == M(0)
    ensures QuarterPeriod(M, n, q).start < QuarterPeriod(M, n, q).end == QuarterPeriod(M, n, q + 1).start
    ensures QuarterPeriod(M, n, 3).start < QuarterPeriod(M, n, 3).end == QuarterPeriod(M, n + 1, 0).start
  {
    hide IssueMonth;
    assert 12 * n + 3 * (q + 1) == 12 * n + 3 * q + 3;
    assert 12 * (n + 1) == 12 * n + 3 * 3 + 3;
  }

  // --------------------------------------------------- the source's loops and sort

  function InsertPeriod(p: Period, s: seq<Period>): seq<Period> {
    if s == [] || Before(p, s[0]) then [p] + s else [s[0]] + InsertPeriod(p, s[1..])
  }

  /** A stable sort by issue time, then by start. */
  function SortPeriods(s: seq<Period>): seq<Period> {
    if s == [] then [] else InsertPeriod(s[|s| - 1], SortPeriods(s[..|s| - 1]))
  }

  lemma {:induction false} InsertLast(p: Period, s: seq<Period>)
    requires forall i :: 0 <= i < |s| ==> Before(s[i], p)
    ensures InsertPeriod(p, s) == s + [p]
  {
    if s != [] { InsertLast(p, s[1..]); }
  }

  /** The periods are pushed in their sorted order: the sort changes nothing. */
  lemma {:induction false} SortedAlready(s: seq<Period>)
    requires forall i, j :: 0 <= i < j < |s| ==> Before(s[i], s[j])
    ensures SortPeriods(s) == s
  {
    if s != [] {
      SortedAlready(s[..|s| - 1]);
      InsertLast(s[|s| - 1], s[..|s| - 1]);
    }
  }

  method PeriodsUntil(plan: Plan, M: Contract, until: int) returns (out: seq<Period>)
    ensures out == IssuedUntil(plan, M, until)
  {
    if plan == Monthly {
      out := MonthsUntil(M, until);
    } else {
      out := YearsUntil(M, until);
      forall i, j | 0 <= i < j < |out| ensures Before(out[i], out[j]) { IssueOrder(plan, M, i, j); }
      SortedAlready(out);
      out := SortPeriods(out);
    }
  }

  method MonthsUntil(M: Contract, until: int) returns (out: seq<Period>)
    ensures out == IssuedUntil(Monthly, M, until)
  {
    hide CountUntil;
    out := [];
    ghost var total := CountUntil(Monthly, M, until);
    var k := 1;
    IssuedBy(Monthly, M, until, 0);
    while M(k + 1) <= until
      invariant 1 <= k && k - 1 <= total
      invariant M(k + 1) <= until <==> k - 1 < total
      invariant out == seq(k - 1, (n: nat) => Nth(Monthly, M, n))
      decreases total as int - k
    {
      assert Nth(Monthly, M, k - 1) == MonthPeriod(M, k);
      out := out + [Period(MonthId(k), M(k), M(k + 1), M(k + 1))];
      IssuedBy(Monthly, M, until, k);
      k := k + 1;
    }
  }

  method YearsUntil(M: Contract, until: int) returns (out: seq<Period>)
    ensures out == IssuedUntil(Yearly, M, until)
  {
    hide Nth, IssueMonth, CountUntil;
    out := [];
    ghost var total := CountUntil(Yearly, M, until);
    var y := 0;
    while true
      invariant 0 <= y <= total + 1 && |out| <= total
      invariant out == seq(|out|, (n: nat) => Nth(Yearly, M, n))
      invariant |out| == 5 * y || (|out| == total && y > 0 && M(12 * y) > until)
      decreases total + 1 - y
    {
      NthOfYear(M, y);
      IssuedBy(Yearly, M, until, 5 * y);
      var yearIssued := if y == 0 then M(1) else M(12 * y);
      if yearIssued > until { break; }
      out := out + [Period(YearId(y), if y == 0 then M(1) else M(12 * y), M(12 * y + 12), yearIssued)];
      var q := 0;
      while q < 4
        invariant 0 <= q <= 4 && |out| == 5 * y + 1 + q <= total
        invariant out == seq(|out|, (n: nat) => Nth(Yearly, M, n))
      {
        var end := M(12 * y + 3 * q + 3);
        assert Nth(Yearly, M, 5 * y + 1 + q) == QuarterPeriod(M, y, q);
        IssuedBy(Yearly, M, until, 5 * y + 1 + q);
        if end > until { break; }
        out := out + [Period(QuarterId(y, q), M(12 * y + 3 * q), end, end)];
        q := q + 1;
      }
      y := y + 1;
    }
  }
}
