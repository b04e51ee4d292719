/** The price quoted for a seat change, against what the contract year then bills. */
module Quotes {
  import opened History
  import opened Months
  import opened Billing
  import opened Charges

  datatype SeatQuote =
    | MonthlyQuote(from: nat, to: nat, monthTotalUsd: int, lowering: bool)
    | YearlyQuote(from: nat, to: nat, added: nat, monthsLeft: int, amountUsd: int, invoicedAt: int)

  function QuoteSeatChange(plan: Plan, M: Contract, now: int, from: nat, to: nat): SeatQuote {
    if plan == Monthly then MonthlyQuote(from, to, to * MONTHLY_SEAT_USD, to < from)
    else
      var added := if to > from then to - from else 0;
      var trial := Index(M, now) == 0;
      var monthsLeft := if trial then 11 else MonthsLeftInYear(M, now);
      YearlyQuote(from, to, added, monthsLeft, added * ADDED_SEAT_MONTH_USD * monthsLeft,
                  if trial then M(1) else QuarterEnd(M, now))
  }

  /** The monthly quote is the bill of a month whose highest count the change sets: made
      inside a month, the change raises the month to that, or leaves it; and lowering N
      always leaves it. */
  lemma MonthlyQuoteIsBilled(M: Contract, log: seq<SeatChange>, c: SeatChange, rows: seq<SeatChange>, rows': seq<SeatChange>, k: nat)
    requires Chain(log) && Chain(log + [c]) && RowsOf(log, rows) && RowsOf(log + [c], rows')
    requires M(k) < c.at < M(k + 1)
    requires SeatsAt(rows, M(k)) == CountAt(log, M(k)) && SeatsAt(rows', M(k)) == CountAt(log + [c], M(k))
    ensures var quote := QuoteSeatChange(Monthly, M, c.at, c.from, c.to);
            var before, after := PeriodCharge(Monthly, M, rows, MonthPeriod(M, k)), PeriodCharge(Monthly, M, rows', MonthPeriod(M, k));
            && quote.MonthlyQuote? && quote.from == c.from && quote.to == c.to && (quote.lowering <==> c.to < c.from)
            && Cents(after) == (if 100 * quote.monthTotalUsd > Cents(before) then 100 * quote.monthTotalUsd else Cents(before))
            && (quote.lowering ==> after == before)
  {
    hide PeriodCharge, SeatsAt, Chain;
    var n := MonthBillsTheHighest(M, log, rows, k);
    var m := MonthBillsTheHighest(M, log + [c], rows', k);
    NotYet(log, c, M(k));
    var next := log + [c];
    assert next[|log|] == c;
    assert forall i :: 0 <= i < |log| ==> next[i] == log[i];
    FromIsNoMore(M, log, c, k, n);
  }

  lemma NotYet(log: seq<SeatChange>, c: SeatChange, t: int)
    requires c.at > t
    ensures CountAt(log + [c], t) == CountAt(log, t)
  {
    assert (log + [c])[..|log|] == log;
  }

  /** N before the change is no more than the month's highest. */
  lemma FromIsNoMore(M: Contract, log: seq<SeatChange>, c: SeatChange, k: nat, n: nat)
    requires Chain(log) && Chain(log + [c]) && M(k) < c.at < M(k + 1)
    requires n >= CountAt(log, M(k)) && forall i :: 0 <= i < |log| && M(k) < log[i].at < M(k + 1) ==> n >= log[i].to
    ensures c.from <= n
  {
    var next := log + [c];
    assert next[|log|].from == CountBefore(next, |log|);
    if log != [] {
      var last := |log| - 1;
      assert next[last] == log[last] && next[last].at <= next[|log|].at;
      if log[last].at <= M(k) { CountAtIs(log, M(k), last); }
    }
  }

  /** What a yearly quote shows: the seats added, and the paid months left that they are
      billed for. */
  lemma YearlyQuoteShows(M: Contract, now: int, from: nat, to: nat)
    requires M(0) <= now
    ensures var quote, y := QuoteSeatChange(Yearly, M, now, from, to), Index(M, now) / 12;
            && quote.YearlyQuote? && quote.from == from && quote.to == to
            && quote.added == (if to > from then to - from else 0)
            && quote.monthsLeft == MonthsAfter(M, now, FirstPaid(y), 12 * y + 12)
            && quote.amountUsd == 20 * (quote.added * quote.monthsLeft)
  {
    hide Index, MonthsAfter, MonthsLeftInYear, QuarterEnd;
    QuotedMonths(M, now);
    var quote := QuoteSeatChange(Yearly, M, now, from, to);
    assert quote.added * 20 * quote.monthsLeft == 20 * (quote.added * quote.monthsLeft);
  }

  /** What a yearly quote for a change comes to in cents. */
  function QuotedCents(M: Contract, c: SeatChange): int {
    QuoteSeatChange(Yearly, M, c.at, c.from, c.to).amountUsd * 100
  }

  /** The contract year of an instant. */
  function YearOf(M: Contract, now: int): nat { Index(M, now) / 12 }

  /** The change that a quote is for, added to the history. */
  ghost predicate NextChange(log: seq<SeatChange>, c: SeatChange) {
    && Chain(log) && Rising(log)
    && c.from == CountBefore(log, |log|) && c.from < c.to
    && (forall i :: 0 <= i < |log| ==> log[i].at <= c.at)
  }

  lemma NextChangeRises(log: seq<SeatChange>, c: SeatChange)
    requires NextChange(log, c)
    ensures Chain(log + [c]) && Rising(log + [c])
  {
    ChainGrows(log, c);
  }

  /** A change raises its year's total by its own term, whatever else is in it. */
  lemma ChangeAddsItsTerm(M: Contract, log: seq<SeatChange>, c: SeatChange, rows: seq<SeatChange>, rows': seq<SeatChange>, y: nat)
    requires NextChange(log, c) && RowsOf(log, rows) && RowsOf(log + [c], rows')
    ensures YearTotal(M, rows', y) == YearTotal(M, rows, y) + YearTerms(M, y)(c)
  {
    hide YearTerms, YearTotal, Chain, Rising;
    NextChangeRises(log, c);
    assert Chain(log) && Rising(log) by { NextChangeParts(log, c); }
    YearBySum(M, log, rows, y);
    YearBySum(M, log + [c], rows', y);
    SumConcat(log, [c], YearTerms(M, y));
  }

  lemma NextChangeParts(log: seq<SeatChange>, c: SeatChange)
    requires NextChange(log, c)
    ensures Chain(log) && Rising(log) && c.from < c.to
  {
  }

  /** The months a change pays in its own year are the months its quote counts. */
  lemma QuotedMonths(M: Contract, at: int)
    requires M(0) <= at
    ensures var y := YearOf(M, at);
            MonthsAfter(M, at, FirstPaid(y), 12 * y + 12) == if Index(M, at) == 0 then 11 else MonthsLeftInYear(M, at)
  {
    hide Index;
    var k := Index(M, at);
    assert k == 12 * YearOf(M, at) + k % 12;
  }

  /** The quote is what is billed: the change raises its contract year's charges by
      exactly the quoted amount, in the trial and after it, and no past year's. */
  lemma QuoteIsBilled(M: Contract, log: seq<SeatChange>, c: SeatChange, rows: seq<SeatChange>, rows': seq<SeatChange>, y: nat)
    requires NextChange(log, c) && RowsOf(log, rows) && RowsOf(log + [c], rows')
    requires M(0) <= c.at && y <= YearOf(M, c.at)
    ensures YearTotal(M, rows', y) - YearTotal(M, rows, y)
            == if y == YearOf(M, c.at) then QuotedCents(M, c) else 0
  {
    hide YearTerms, YearTotal, Index, MonthsLeftInYear, NextChange;
    ChangeAddsItsTerm(M, log, c, rows, rows', y);
    NextChangeParts(log, c);
    OneChangePays(M, c, y);
    var months := MonthsAfter(M, c.at, FirstPaid(y), 12 * y + 12);
    if y == YearOf(M, c.at) {
      QuotedMonths(M, c.at);
      PriceOfSeatTime(c.to - c.from, months);
    } else {
      PastYear(M, c.at, y);
      NoSeatTime(months, c.to - c.from);
    }
  }

  lemma PastYear(M: Contract, at: int, y: nat)
    requires y < YearOf(M, at)
    ensures MonthsAfter(M, at, FirstPaid(y), 12 * y + 12) == 0
  {
    hide Index;
    assert Index(M, at) >= 12 * (y + 1);
  }

  // ------------------------------------------------------------- when it is billed

  /** The period that bills a change: its year's invoice when that is not issued
      before the change, else the quarter of the change. */
  function BilledBy(M: Contract, at: int): Period {
    var y := YearOf(M, at);
    if at <= YearStart(M, y) then YearPeriod(M, y) else QuarterPeriod(M, y, Index(M, at) % 12 / 3)
  }

  /** The quoted invoice date is the issue of the period that bills the change,
      except when the change is at exactly the trial's end or a year's start. */
  lemma QuotedDateIsExact(M: Contract, at: int, from: nat, to: nat)
    requires M(0) <= at
    ensures BilledBy(M, at).issuedAt == QuoteSeatChange(Yearly, M, at, from, to).invoicedAt
            <==> at != YearStart(M, YearOf(M, at))
  {
    hide Index;
    var k, y := Index(M, at), YearOf(M, at);
    assert 12 * y + 3 * (k % 12 / 3) + 3 == (k / 3 + 1) * 3 by { QuarterOf(k); }
    IndexAtMost(M, at, k);
    IndexAtMost(M, at, 0);
    assert M(k) <= at < M(k + 1);
    if k > 0 { NotLater(M, FirstPaid(y), k); }
    assert k < (k / 3 + 1) * 3;
    NotLater(M, k + 1, (k / 3 + 1) * 3);
  }

  lemma QuarterOf(k: nat)
    ensures 12 * (k / 12) + 3 * (k % 12 / 3) + 3 == (k / 3 + 1) * 3
  {
    var y, r := k / 12, k % 12;
    assert k == 12 * y + r;
    assert k / 3 == 4 * y + r / 3;
  }

  /** The rise of the year's charges is the rise of that one period's. */
  lemma OnlyThatPeriodRises(M: Contract, log: seq<SeatChange>, c: SeatChange, rows: seq<SeatChange>, rows': seq<SeatChange>, p: Period)
    requires NextChange(log, c) && RowsOf(log, rows) && RowsOf(log + [c], rows')
    requires M(0) <= c.at
    requires var y := YearOf(M, c.at); p == YearPeriod(M, y) || exists q: nat :: q < 4 && p == QuarterPeriod(M, y, q)
    ensures Cents(PeriodCharge(Yearly, M, rows', p)) - Cents(PeriodCharge(Yearly, M, rows, p))
            == if p == BilledBy(M, c.at) then QuotedCents(M, c) else 0
  {
    hide NextChange, PeriodCharge, AddedPrice, Index, BilledBy, QuotedCents;
    NextChangeParts(log, c);
    var y := YearOf(M, c.at);
    if p == YearPeriod(M, y) {
      YearRise(M, log, c, rows, rows', y);
      YearRiseIsQuote(M, c, y);
    } else {
      var q: nat :| q < 4 && p == QuarterPeriod(M, y, q);
      QuarterRise(M, log, c, rows, rows', p);
      QuarterRiseIsQuote(M, c, y, q);
    }
  }

  lemma YearRise(M: Contract, log: seq<SeatChange>, c: SeatChange, rows: seq<SeatChange>, rows': seq<SeatChange>, y: nat)
    requires NextChange(log, c) && RowsOf(log, rows) && RowsOf(log + [c], rows')
    ensures Cents(PeriodCharge(Yearly, M, rows', YearPeriod(M, y)))
            == Cents(PeriodCharge(Yearly, M, rows, YearPeriod(M, y))) + YearTerm(M, y)(c)
  {
    hide YearTerm, PeriodCharge, Chain, Rising;
    NextChangeRises(log, c);
    assert Chain(log) && Rising(log) by { NextChangeParts(log, c); }
    YearInvoiceBySum(M, log, rows, y);
    YearInvoiceBySum(M, log + [c], rows', y);
    SumConcat(log, [c], YearTerm(M, y));
  }

  lemma QuarterRise(M: Contract, log: seq<SeatChange>, c: SeatChange, rows: seq<SeatChange>, rows': seq<SeatChange>, p: Period)
    requires p.id.QuarterId? && RowsOf(log, rows) && RowsOf(log + [c], rows')
    ensures Cents(PeriodCharge(Yearly, M, rows', p)) == Cents(PeriodCharge(Yearly, M, rows, p)) + QuarterTerm(M, p)(c)
  {
    var term := QuarterTerm(M, p);
    hide QuarterTerm;
    SumPermuted(rows, log, term);
    SumPermuted(rows', log + [c], term);
    SumConcat(log, [c], term);
    TermsArePositive(M, rows, p);
    TermsArePositive(M, rows', p);
  }

  lemma QuoteInCents(M: Contract, c: SeatChange)
    requires c.from < c.to
    ensures QuotedCents(M, c)
            == AddedPrice(c.to - c.from, if Index(M, c.at) == 0 then 11 else MonthsLeftInYear(M, c.at))
  {
    hide Index, MonthsLeftInYear;
  }

  lemma YearRiseIsQuote(M: Contract, c: SeatChange, y: nat)
    requires M(0) <= c.at && y == YearOf(M, c.at) && c.from < c.to
    ensures YearTerm(M, y)(c) == if YearPeriod(M, y) == BilledBy(M, c.at)
                                 then QuotedCents(M, c) else 0
  {
    hide Index, AddedPrice;
    var k := Index(M, c.at);
    assert YearPeriod(M, y) == BilledBy(M, c.at) <==> c.at <= YearStart(M, y);
    assert AddedBy(YearStart(M, y))(c) == if c.at <= YearStart(M, y) then c.to - c.from else 0;
    QuoteInCents(M, c);
    PriceOfSeatTime(0, 12 * y + 12 - FirstPaid(y));
    NoSeatTime(12 * y + 12 - FirstPaid(y), 0);
    if c.at <= YearStart(M, y) {
      IndexAtMost(M, c.at, FirstPaid(y));
      assert M(FirstPaid(y)) < M(FirstPaid(y) + 1);
      assert k <= FirstPaid(y);
      assert k == 12 * y + k % 12;
    }
  }

  lemma QuarterRiseIsQuote(M: Contract, c: SeatChange, y: nat, q: nat)
    requires M(0) <= c.at && y == YearOf(M, c.at) && c.from < c.to && q < 4
    ensures QuarterTerm(M, QuarterPeriod(M, y, q))(c)
            == if QuarterPeriod(M, y, q) == BilledBy(M, c.at)
               then QuotedCents(M, c) else 0
  {
    hide Index, AddedPrice, MonthsLeftInYear, QuotedCents;
    QuoteInCents(M, c);
    QuarterWindow(M, c.at, y, q);
    AfterTheTrial(M, c.at, y);
  }

  lemma QuarterWindow(M: Contract, at: int, y: nat, q: nat)
    requires M(0) <= at && y == YearOf(M, at) && q < 4
    ensures M(12 * y + 3 * q) <= at < M(12 * y + 3 * q + 3) <==> q == Index(M, at) % 12 / 3
  {
    hide Index;
    var k, a, b := Index(M, at), 12 * y + 3 * q, 12 * y + 3 * q + 3;
    IndexAtMost(M, at, b - 1);
    if a > 0 { IndexAtMost(M, at, a - 1); }
    assert M(a) <= at < M(b) <==> a <= k < b;
    assert k == 12 * y + k % 12;
  }

  lemma AfterTheTrial(M: Contract, at: int, y: nat)
    requires M(0) <= at && y == YearOf(M, at)
    ensures at > YearStart(M, y) ==> Index(M, at) > 0
  {
    hide Index;
    IndexAtMost(M, at, 0);
    if y > 0 { assert Index(M, at) >= 12; }
  }
}
