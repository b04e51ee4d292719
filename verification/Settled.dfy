/** A charge is fixed from its issue time on, whatever seat changes come later; and
    the wake-up time of the invoice pass. */
module Settled {
  import opened Basics
  import opened History
  import opened Months
  import opened Billing
  import opened Charges

  lemma {:induction false} UpToConcat(a: seq<SeatChange>, b: seq<SeatChange>, t: int)
    ensures UpTo(a + b, t) == UpTo(a, t) + UpTo(b, t)
  {
    if a == [] {
      assert a + b == b;
    } else {
      assert (a + b)[1..] == a[1..] + b;
      UpToConcat(a[1..], b, t);
    }
  }

  lemma {:induction false} InUpTo(rows: seq<SeatChange>, t: int, c: SeatChange)
    ensures c in UpTo(rows, t) <==> c in rows && c.at <= t
  {
    if rows != [] { InUpTo(rows[1..], t, c); }
  }

  lemma {:induction false} TiedUpTo(rows: seq<SeatChange>, t: int, at: int)
    requires at <= t
    ensures Tied(UpTo(rows, t), at) == Tied(rows, at)
  {
    if rows != [] { TiedUpTo(rows[1..], t, at); }
  }

  lemma LastAtUpTo(rows: seq<SeatChange>, t: int, u: int)
    requires u <= t
    ensures LastAt(UpTo(rows, t), u) == LastAt(rows, u)
  {
    hide LastAt, UpTo;
    forall c ensures c in UpTo(rows, t) <==> c in rows && c.at <= t { InUpTo(rows, t, c); }
    LastIsLatest(UpTo(rows, t), u);
    LastIsLatest(rows, u);
  }

  /** The latest time of a row by `t`, which tells it. */
  lemma LastIsLatest(rows: seq<SeatChange>, t: int)
    ensures LastAt(rows, t).Some? ==> LastAt(rows, t).value <= t && exists c :: c in rows && c.at == LastAt(rows, t).value
    ensures forall c :: c in rows && c.at <= t ==> LastAt(rows, t).Some? && c.at <= LastAt(rows, t).value
  {
    var last := LastAt(rows, t);
    if last.Some? {
      var i :| 0 <= i < |rows| && rows[i].at == last.value;
      assert rows[i] in rows;
    }
  }

  lemma SeatsAtUpTo(rows: seq<SeatChange>, t: int, u: int)
    requires u <= t
    ensures SeatsAt(UpTo(rows, t), u) == SeatsAt(rows, u)
  {
    hide EndsFrom;
    LastAtUpTo(rows, t, u);
    var last := LastAt(rows, u);
    if last.Some? { TiedUpTo(rows, t, last.value); }
  }

  lemma {:induction false} HighestUpTo(rows: seq<SeatChange>, all: seq<SeatChange>, t: int, start: int, end: int)
    requires start <= t && end <= t
    ensures Highest(UpTo(rows, t), UpTo(all, t), start, end) == Highest(rows, all, start, end)
  {
    if rows == [] {
      SeatsAtUpTo(all, t, start);
    } else {
      var front, c := rows[..|rows| - 1], rows[|rows| - 1];
      assert rows == front + [c];
      UpToConcat(front, [c], t);
      HighestUpTo(front, all, t, start, end);
      var early := UpTo(rows, t);
      if c.at <= t {
        assert early == UpTo(front, t) + [c];
        assert early[..|early| - 1] == UpTo(front, t);
      } else {
        assert early == UpTo(front, t);
      }
    }
  }

  lemma {:induction false} SumUpTo(rows: seq<SeatChange>, t: int, f: SeatChange -> int)
    requires forall i :: 0 <= i < |rows| && rows[i].at > t ==> f(rows[i]) == 0
    ensures SumOf(UpTo(rows, t), f) == SumOf(rows, f)
  {
    if rows != [] { SumUpTo(rows[1..], t, f); }
  }

  /** A period issued by `t` bills the same from the changes made by `t` alone. */
  lemma ChargeIsSettled(plan: Plan, M: Contract, rows: seq<SeatChange>, n: nat, t: int)
    requires Nth(plan, M, n).issuedAt <= t
    ensures PeriodCharge(plan, M, UpTo(rows, t), Nth(plan, M, n)) == PeriodCharge(plan, M, rows, Nth(plan, M, n))
  {
    hide SeatsAt, Highest, UpTo, AddedPrice;
    var p := Nth(plan, M, n);
    if plan == Monthly {
      assert p.start < p.end;
      HighestUpTo(rows, rows, t, p.start, p.end);
    } else if !p.id.QuarterId? {
      SeatsAtUpTo(rows, t, p.start);
    } else {
      SumUpTo(rows, t, QuarterTerm(M, p));
    }
  }

  /** Two histories that agree on the changes made by a period's issue time give it
      the same charge. */
  lemma LaterChangesNeverMatter(plan: Plan, M: Contract, rows: seq<SeatChange>, rows': seq<SeatChange>, n: nat, t: int)
    requires Nth(plan, M, n).issuedAt <= t && UpTo(rows, t) == UpTo(rows', t)
    ensures PeriodCharge(plan, M, rows, Nth(plan, M, n)) == PeriodCharge(plan, M, rows', Nth(plan, M, n))
  {
    hide PeriodCharge, Nth, UpTo;
    ChargeIsSettled(plan, M, rows, n, t);
    ChargeIsSettled(plan, M, rows', n, t);
  }

  /** Where the rows begin by the period's start and never set N to nothing, a month and a
      year are always billed, and whatever is billed is more than nothing, as the
      ledger's amount column demands. */
  lemma ChargeIsPositive(plan: Plan, M: Contract, rows: seq<SeatChange>, n: nat)
    requires exists i :: 0 <= i < |rows| && rows[i].at <= Nth(plan, M, n).start
    requires forall c :: c in rows ==> c.to > 0
    ensures !Nth(plan, M, n).id.QuarterId? ==> PeriodCharge(plan, M, rows, Nth(plan, M, n)).Some?
    ensures PeriodCharge(plan, M, rows, Nth(plan, M, n)).Some? ==> PeriodCharge(plan, M, rows, Nth(plan, M, n)).value > 0
  {
    hide SeatsAt, Nth, SumOf, Highest;
    var p := Nth(plan, M, n);
    var c := SeatsAtIsOfARow(rows, p.start);
    HighestIsNoLess(rows, rows, p.start, p.end);
    PriceIsPositive(SeatsAt(rows, p.start), 11);
  }

  lemma {:induction false} HighestIsNoLess(rows: seq<SeatChange>, all: seq<SeatChange>, start: int, end: int)
    ensures Highest(rows, all, start, end) >= SeatsAt(all, start)
  {
    if rows != [] { HighestIsNoLess(rows[..|rows| - 1], all, start, end); }
  }

  // ------------------------------------------------------------------ the wake-up

  /** The periods due at `now`: those issued by the grace time before it. */
  function BillingPeriodsDue(plan: Plan, M: Contract, now: int): seq<Period> {
    IssuedUntil(plan, M, now - INVOICE_GRACE_MS)
  }

  /** When the pass wakes next after one at `now` that left nothing to retry. */
  function NextPass(plan: Plan, M: Contract, now: int): int {
    Nth(plan, M, CountUntil(plan, M, now - INVOICE_GRACE_MS)).issuedAt + INVOICE_GRACE_MS
  }

  /** The wake-up is the first instant at which another period is due. */
  lemma WakesWhenDueGrows(plan: Plan, M: Contract, now: int, t: int)
    requires now <= t
    ensures now < NextPass(plan, M, now)
    ensures t < NextPass(plan, M, now) <==> BillingPeriodsDue(plan, M, t) == BillingPeriodsDue(plan, M, now)
    ensures t >= NextPass(plan, M, now) ==>
              BillingPeriodsDue(plan, M, now) + [Nth(plan, M, CountUntil(plan, M, now - INVOICE_GRACE_MS))]
              <= BillingPeriodsDue(plan, M, t)
  {
    hide Nth, CountUntil;
    var u, v := now - INVOICE_GRACE_MS, t - INVOICE_GRACE_MS;
    var n, m := CountUntil(plan, M, u), CountUntil(plan, M, v);
    IssuedBy(plan, M, u, n);
    IssuedBy(plan, M, v, n);
    CountsGrow(plan, M, u, v);
    assert |BillingPeriodsDue(plan, M, t)| == m && |BillingPeriodsDue(plan, M, now)| == n;
  }

  // -------------------------------------------------------------- the next invoice

  function IssuedAfter(s: seq<Period>, now: int): seq<Period> {
    if s == [] then [] else if s[0].issuedAt > now then [s[0]] + IssuedAfter(s[1..], now) else IssuedAfter(s[1..], now)
  }

  function IssuedAt(s: seq<Period>, at: int): seq<Period> {
    if s == [] then [] else if s[0].issuedAt == at then [s[0]] + IssuedAt(s[1..], at) else IssuedAt(s[1..], at)
  }

  /** Periods issued together: one, or a fourth quarter and the year after it. */
  function Together(plan: Plan, M: Contract, n: nat): seq<Period> {
    if Nth(plan, M, n + 1).issuedAt == Nth(plan, M, n).issuedAt
    then [Nth(plan, M, n), Nth(plan, M, n + 1)] else [Nth(plan, M, n)]
  }

  function AmountOf(plan: Plan, M: Contract, rows: seq<SeatChange>, periods: seq<Period>): Option<int> {
    if periods == [] then None
    else
      var sum, c := AmountOf(plan, M, rows, periods[..|periods| - 1]), PeriodCharge(plan, M, rows, periods[|periods| - 1]);
      if c.None? then sum else Some(Cents(sum) + c.value)
  }

  lemma {:induction false} AfterIsSuffix(s: seq<Period>, now: int, n: nat)
    requires n <= |s|
    requires forall i :: 0 <= i < |s| ==> (s[i].issuedAt <= now <==> i < n)
    ensures IssuedAfter(s, now) == s[n..]
  {
    if s != [] { AfterIsSuffix(s[1..], now, if n == 0 then 0 else n - 1); }
  }

  lemma {:induction false} AtIsPrefix(s: seq<Period>, at: int, n: nat)
    requires n <= |s|
    requires forall i :: 0 <= i < |s| ==> (s[i].issuedAt == at <==> i < n)
    ensures IssuedAt(s, at) == s[..n]
  {
    if s != [] {
      AtIsPrefix(s[1..], at, if n == 0 then 0 else n - 1);
      if n > 0 { assert s[..n] == [s[0]] + s[1..][..n - 1]; }
    }
  }

  lemma UpcomingIs(plan: Plan, M: Contract, now: int, horizon: int)
    requires now <= horizon
    ensures var n, h := CountUntil(plan, M, now), CountUntil(plan, M, horizon);
            n <= h && IssuedAfter(IssuedUntil(plan, M, horizon), now) == seq(h - n, i requires i >= 0 => Nth(plan, M, n + i))
  {
    hide Nth, CountUntil;
    var all, n, h := IssuedUntil(plan, M, horizon), CountUntil(plan, M, now), CountUntil(plan, M, horizon);
    CountsGrow(plan, M, now, horizon);
    forall i | 0 <= i < |all| ensures all[i].issuedAt <= now <==> i < n { IssuedBy(plan, M, now, i); }
    AfterIsSuffix(all, now, n);
    assert all[n..] == seq(h - n, i requires i >= 0 => Nth(plan, M, n + i));
  }

  /** Only a fourth quarter is issued together with the period after it. */
  lemma AtMostTwoTogether(plan: Plan, M: Contract, n: nat)
    ensures Nth(plan, M, n).issuedAt < Nth(plan, M, n + 2).issuedAt
  {
    IssuedAtIs(plan, M, n);
    IssuedAtIs(plan, M, n + 2);
    if plan.Yearly? {
      var y, r := n / 5, n % 5;
      if r >= 3 {
        assert (n + 2) / 5 == y + 1 && (n + 2) % 5 == r - 3;
      } else {
        assert (n + 2) / 5 == y && (n + 2) % 5 == r + 2;
      }
    }
  }

  lemma TogetherIs(plan: Plan, M: Contract, n: nat, h: nat)
    requires n < h && Nth(plan, M, h).issuedAt > Nth(plan, M, n).issuedAt
    ensures IssuedAt(seq(h - n, i requires i >= 0 => Nth(plan, M, n + i)), Nth(plan, M, n).issuedAt) == Together(plan, M, n)
  {
    hide Nth;
    var s, at := seq(h - n, i requires i >= 0 => Nth(plan, M, n + i)), Nth(plan, M, n).issuedAt;
    var same := Together(plan, M, n);
    AtMostTwoTogether(plan, M, n);
    assert |same| <= |s| by { if |same| == 2 { assert n + 1 != h; } }
    forall i | 0 <= i < |s| ensures s[i].issuedAt == at <==> i < |same| {
      if i >= 3 { IssueOrder(plan, M, n + 2, n + i); }
    }
    AtIsPrefix(s, at, |same|);
    assert s[..|same|] == same;
  }

  /** The next quarter's end is in the horizon, so there is always a next period. */
  lemma NextIsInReach(plan: Plan, M: Contract, now: int)
    ensures Nth(plan, M, CountUntil(plan, M, now)).issuedAt <= M(Index(M, now) + 3)
    ensures now < M(Index(M, now) + 3)
  {
    hide Nth, CountUntil, Index;
    var k := Index(M, now);
    IndexAtMost(M, now, k);
    ReachablePeriod(plan, M, k);
    var i: nat :| Nth(plan, M, i).issuedAt == M(Reach(plan, k));
    NotLater(M, Reach(plan, k), k + 3);
    NotLater(M, k + 1, Reach(plan, k));
    var n := CountUntil(plan, M, now);
    IssuedBy(plan, M, now, i);
    if n < i { IssueOrder(plan, M, n, i); }
  }

  /** A contract month, one to three after `k`, whose start issues a period. */
  function Reach(plan: Plan, k: nat): nat {
    if plan.Monthly? then k + 2 else k / 3 * 3 + 3
  }

  lemma ReachablePeriod(plan: Plan, M: Contract, k: nat)
    ensures exists i: nat :: Nth(plan, M, i).issuedAt == M(Reach(plan, k))
  {
    if plan.Monthly? {
      assert Nth(plan, M, k).issuedAt == M(Reach(plan, k));
    } else {
      var y, q := k / 12, k % 12 / 3;
      QuarterOfMonth(k);
      QuarterReached(M, k, y, q);
    }
  }

  lemma QuarterReached(M: Contract, k: nat, y: nat, q: nat)
    requires q < 4 && 12 * y + 3 * q + 3 == k / 3 * 3 + 3
    ensures Nth(Yearly, M, 5 * y + 1 + q).issuedAt == M(Reach(Yearly, k))
  {
    hide Nth;
    NthOfYear(M, y);
    assert QuarterPeriod(M, y, q).issuedAt == M(12 * y + 3 * q + 3);
    assert Reach(Yearly, k) == 12 * y + 3 * q + 3;
  }

  lemma QuarterOfMonth(k: nat)
    ensures k % 12 / 3 < 4 && 12 * (k / 12) + 3 * (k % 12 / 3) + 3 == k / 3 * 3 + 3
  {
    var y, r := k / 12, k % 12;
    assert k == 12 * y + r;
    assert k / 3 == 4 * y + r / 3;
  }

  /** The account page's next invoice. `horizon` is thirteen months on. */
  method NextInvoice(plan: Plan, M: Contract, rows: seq<SeatChange>, now: int, horizon: int)
    returns (period: Period, amount: Option<int>)
    requires M(Index(M, now) + 3) <= horizon
    ensures period == Nth(plan, M, CountUntil(plan, M, now))
    ensures var n, sofar := CountUntil(plan, M, now), UpTo(rows, now);
            var c, d := PeriodCharge(plan, M, sofar, Nth(plan, M, n)), PeriodCharge(plan, M, sofar, Nth(plan, M, n + 1));
            amount == if Nth(plan, M, n + 1).issuedAt != Nth(plan, M, n).issuedAt then c
                      else if c.None? && d.None? then None else Some(Cents(c) + Cents(d))
    ensures amount == AmountOf(plan, M, UpTo(rows, now), Together(plan, M, CountUntil(plan, M, now)))
  {
    hide Nth, CountUntil, IssuedUntil, Index;
    var sofar := UpTo(rows, now);
    var all := PeriodsUntil(plan, M, horizon);
    var upcoming := IssuedAfter(all, now);
    ghost var n, h := CountUntil(plan, M, now), CountUntil(plan, M, horizon);
    NextExists(plan, M, now, horizon);
    UpcomingIs(plan, M, now, horizon);
    period := upcoming[0];
    var same := IssuedAt(upcoming, period.issuedAt);
    TogetherIs(plan, M, n, h);
    amount := TotalOf(plan, M, sofar, same);
    AmountTogether(plan, M, sofar, n);
  }

  /** One charge, or the sum of two. */
  lemma AmountTogether(plan: Plan, M: Contract, rows: seq<SeatChange>, n: nat)
    ensures var c, d := PeriodCharge(plan, M, rows, Nth(plan, M, n)), PeriodCharge(plan, M, rows, Nth(plan, M, n + 1));
            AmountOf(plan, M, rows, Together(plan, M, n)) ==
            if Nth(plan, M, n + 1).issuedAt != Nth(plan, M, n).issuedAt then c
            else if c.None? && d.None? then None else Some(Cents(c) + Cents(d))
  {
    hide PeriodCharge, Nth;
    var two := [Nth(plan, M, n), Nth(plan, M, n + 1)];
    assert two[..1] == [Nth(plan, M, n)] && two[..1][..0] == [] && [Nth(plan, M, n)][..0] == [];
    assert AmountOf(plan, M, rows, []) == None;
    var one := AmountOf(plan, M, rows, [Nth(plan, M, n)]);
    assert one == PeriodCharge(plan, M, rows, Nth(plan, M, n));
  }

  method TotalOf(plan: Plan, M: Contract, rows: seq<SeatChange>, periods: seq<Period>) returns (amount: Option<int>)
    ensures amount == AmountOf(plan, M, rows, periods)
  {
    hide PeriodCharge;
    amount := None;
    for i := 0 to |periods|
      invariant amount == AmountOf(plan, M, rows, periods[..i])
    {
      assert periods[..i + 1][..i] == periods[..i];
      var c := ChargeOf(plan, M, rows, periods[i]);
      if c.Some? { amount := Some(Cents(amount) + c.value); }
    }
    assert periods[..|periods|] == periods;
  }

  lemma NextExists(plan: Plan, M: Contract, now: int, horizon: int)
    requires M(Index(M, now) + 3) <= horizon
    ensures var n, h := CountUntil(plan, M, now), CountUntil(plan, M, horizon);
            n < h && now <= horizon && Nth(plan, M, h).issuedAt > Nth(plan, M, n).issuedAt
  {
    hide Nth, Index, CountUntil;
    NextIsInReach(plan, M, now);
    IssuedBy(plan, M, horizon, CountUntil(plan, M, now));
    IssuedBy(plan, M, horizon, CountUntil(plan, M, horizon));
  }
}
