/** What a period bills, what a contract year bills in all, and what a change does to it. */
module Charges {
  import opened Basics
  import opened History
  import opened Months
  import opened Billing

  // -------------------------------------------------------------- a period's charge

  /** The highest N of a window: N at its start, and every count set inside it. */
  function Highest(rows: seq<SeatChange>, all: seq<SeatChange>, start: int, end: int): nat {
    if rows == [] then SeatsAt(all, start)
    else
      var highest := Highest(rows[..|rows| - 1], all, start, end);
      var c := rows[|rows| - 1];
      if c.at > start && c.at < end && c.to > highest then c.to else highest
  }

  /** Up to when the year's own invoice bills N. */
  function BilledUpTo(M: Contract, year: nat): int { if year == 0 then M(1) else M(12 * year) }

  /** The price of seats for a number of months, in cents. */
  function AddedPrice(seats: int, months: int): int { seats * ADDED_SEAT_MONTH_USD * months * 100 }

  /** Seats times months. */
  function SeatTime(seats: int, months: int): int { seats * months }

  lemma PriceOfSeatTime(seats: int, months: int)
    ensures AddedPrice(seats, months) == 2000 * SeatTime(seats, months)
  {
    assert seats * 20 * months == 20 * (seats * months);
  }

  /** What a quarter bills for one change, in cents. */
  function QuarterTerm(M: Contract, p: Period): SeatChange -> int
    requires p.id.QuarterId?
  {
    (c: SeatChange) =>
      if c.at < p.start || c.at >= p.end || c.at <= BilledUpTo(M, p.id.year) then 0
      else if c.to <= c.from then 0
      else AddedPrice(c.to - c.from, MonthsLeftInYear(M, c.at))
  }

  /** The charge in cents; None for a quarter with no increase. */
  function PeriodCharge(plan: Plan, M: Contract, rows: seq<SeatChange>, p: Period): Option<int> {
    if plan == Monthly then
      Some(Highest(rows, rows, p.start, p.end) * MONTHLY_SEAT_USD * 100)
    else if !p.id.QuarterId? then
      var n := SeatsAt(rows, p.start);
      if p.id == YearId(0) then Some(AddedPrice(n, 11)) else Some(n * YEARLY_SEAT_USD * 100)
    else
      var cents := SumOf(rows, QuarterTerm(M, p));
      if cents > 0 then Some(cents) else None
  }

  function InsertRow(c: SeatChange, s: seq<SeatChange>): seq<SeatChange> {
    if s == [] || c.at < s[0].at then [c] + s else [s[0]] + InsertRow(c, s[1..])
  }

  /** A stable sort by time. */
  function SortRows(s: seq<SeatChange>): seq<SeatChange> {
    if s == [] then [] else InsertRow(s[|s| - 1], SortRows(s[..|s| - 1]))
  }

  lemma {:induction false} InsertKeeps(c: SeatChange, s: seq<SeatChange>)
    ensures multiset(InsertRow(c, s)) == multiset(s) + multiset{c}
  {
    if s != [] {
      assert s == [s[0]] + s[1..];
      InsertKeeps(c, s[1..]);
    }
  }

  lemma {:induction false} SortKeeps(s: seq<SeatChange>)
    ensures multiset(SortRows(s)) == multiset(s)
  {
    if s != [] {
      assert s == s[..|s| - 1] + [s[|s| - 1]];
      SortKeeps(s[..|s| - 1]);
      InsertKeeps(s[|s| - 1], SortRows(s[..|s| - 1]));
    }
  }

  /** The source's loops over the history. */
  method ChargeOf(plan: Plan, M: Contract, rows: seq<SeatChange>, p: Period) returns (charge: Option<int>)
    ensures charge == PeriodCharge(plan, M, rows, p)
  {
    if plan == Monthly {
      var highest := HighestOf(rows, p.start, p.end);
      return Some(highest * MONTHLY_SEAT_USD * 100);
    }
    if !p.id.QuarterId? {
      var n := SeatsAt(rows, p.start);
      if p.id == YearId(0) { return Some(AddedPrice(n, 11)); }
      return Some(n * YEARLY_SEAT_USD * 100);
    }
    var cents := QuarterCents(M, rows, p);
    charge := if cents > 0 then Some(cents) else None;
  }

  method HighestOf(rows: seq<SeatChange>, start: int, end: int) returns (highest: nat)
    ensures highest == Highest(rows, rows, start, end)
  {
    highest := SeatsAt(rows, start);
    for i := 0 to |rows|
      invariant highest == Highest(rows[..i], rows, start, end)
    {
      assert rows[..i + 1][..i] == rows[..i];
      if rows[i].at > start && rows[i].at < end && rows[i].to > highest { highest := rows[i].to; }
    }
    assert rows[..|rows|] == rows;
  }

  method QuarterCents(M: Contract, rows: seq<SeatChange>, p: Period) returns (cents: int)
    requires p.id.QuarterId?
    ensures cents == SumOf(rows, QuarterTerm(M, p))
  {
    hide AddedPrice, MonthsLeftInYear, SortRows;
    var billedUpTo := if p.id.year == 0 then M(1) else M(12 * p.id.year);
    cents := 0;
    var sorted := SortRows(rows);
    ghost var term := QuarterTerm(M, p);
    for i := 0 to |sorted|
      invariant cents == SumOf(sorted[..i], term)
    {
      var c := sorted[i];
      SumConcat(sorted[..i], [c], term);
      assert sorted[..i + 1] == sorted[..i] + [c];
      if c.at < p.start || c.at >= p.end || c.at <= billedUpTo { continue; }
      var added := c.to as int - c.from;
      if added <= 0 { continue; }
      cents := cents + AddedPrice(added, MonthsLeftInYear(M, c.at));
    }
    assert sorted[..|sorted|] == sorted;
    SortKeeps(rows);
    SumPermuted(sorted, rows, term);
  }

  function Cents(charge: Option<int>): int { if charge.Some? then charge.value else 0 }

  lemma PriceIsPositive(seats: int, months: int)
    requires seats > 0 && months > 0
    ensures AddedPrice(seats, months) > 0
  {
    assert seats * months > 0;
    PriceOfSeatTime(seats, months);
  }

  lemma {:induction false} TermsArePositive(M: Contract, rows: seq<SeatChange>, p: Period)
    requires p.id.QuarterId?
    ensures SumOf(rows, QuarterTerm(M, p)) >= 0
  {
    if rows != [] {
      TermsArePositive(M, rows[1..], p);
      var c := rows[0];
      if c.to > c.from {
        PriceIsPositive(c.to - c.from, MonthsLeftInYear(M, c.at));
      }
    }
  }

  // ------------------------------------------------------------- the seat-month sum

  /** A seat-month sum: for each contract month of [a, b), the most seats N was
      at in it. */
  ghost function SeatMonths(M: Contract, log: seq<SeatChange>, a: nat, b: nat): int
    requires a <= b
    decreases b
  {
    if a == b then 0 else SeatMonths(M, log, a, b - 1) + MostIn(log, M(b - 1), M(b))
  }

  /** The highest value of N at any instant of [start, end). */
  ghost function MostIn(log: seq<SeatChange>, start: int, end: int): (n: nat)
    requires start < end
    ensures exists t :: start <= t < end && CountAt(log, t) == n
    ensures forall t :: start <= t < end ==> CountAt(log, t) <= n
    decreases end - start
  {
    var last := CountAt(log, end - 1);
    if start == end - 1 then last
    else
      var n := MostIn(log, start, end - 1);
      assert forall t :: start <= t < end && t != end - 1 ==> CountAt(log, t) <= n;
      if last > n then last else n
  }

  // ------------------------------------------------------------- what a month bills

  lemma {:induction false} HighestIs(rows: seq<SeatChange>, all: seq<SeatChange>, start: int, end: int)
    ensures Highest(rows, all, start, end) >= SeatsAt(all, start)
    ensures forall c :: c in rows && start < c.at < end ==> c.to <= Highest(rows, all, start, end)
    ensures Highest(rows, all, start, end) == SeatsAt(all, start)
            || exists c :: c in rows && start < c.at < end && c.to == Highest(rows, all, start, end)
  {
    if rows != [] {
      var front, c := rows[..|rows| - 1], rows[|rows| - 1];
      HighestIs(front, all, start, end);
      assert rows == front + [c];
    }
  }

  /** A month bills $25 for each seat of the highest count of its window: N at its start,
      where the rows tell it, or a count that a change inside the window set. */
  lemma MonthBillsTheHighest(M: Contract, log: seq<SeatChange>, rows: seq<SeatChange>, k: nat) returns (n: nat)
    requires Chain(log) && RowsOf(log, rows) && SeatsAt(rows, M(k)) == CountAt(log, M(k))
    ensures PeriodCharge(Monthly, M, rows, MonthPeriod(M, k)) == Some(2500 * n)
    ensures n >= CountAt(log, M(k))
    ensures forall i :: 0 <= i < |log| && M(k) < log[i].at < M(k + 1) ==> n >= log[i].to
    ensures n == CountAt(log, M(k)) || exists i :: 0 <= i < |log| && M(k) < log[i].at < M(k + 1) && log[i].to == n
  {
    hide SeatsAt, Highest, Chain;
    n := Highest(rows, rows, M(k), M(k + 1));
    HighestIs(rows, rows, M(k), M(k + 1));
    SameMembers(log, rows);
    if n != CountAt(log, M(k)) {
      var c :| c in rows && M(k) < c.at < M(k + 1) && c.to == n;
      assert c in log;
    }
    assert forall i :: 0 <= i < |log| ==> log[i] in rows;
  }

  lemma SameMembers(log: seq<SeatChange>, rows: seq<SeatChange>)
    requires RowsOf(log, rows)
    ensures forall c :: c in log <==> c in rows
  {
    forall c ensures c in log <==> c in rows { assert c in multiset(log) <==> c in multiset(rows); }
  }

  /** N anywhere in a window is N at its start, or was set inside it. */
  lemma SetInside(log: seq<SeatChange>, start: int, t: int)
    requires Chain(log) && start <= t
    ensures CountAt(log, t) == CountAt(log, start)
            || exists i :: 0 <= i < |log| && start < log[i].at <= t && log[i].to == CountAt(log, t)
  {
    var n := LastIndex(log, t);
    if n >= 0 {
      CountAtIs(log, t, n);
      if log[n].at <= start { CountAtIs(log, start, n); }
    } else {
      NothingYet(log, t);
      NothingYet(log, start);
    }
  }

  ghost predicate OneAtATime(log: seq<SeatChange>) {
    forall i, j :: 0 <= i < j < |log| ==> log[i].at < log[j].at
  }

  /** Where no millisecond holds two changes, that is the most seats at any instant of the
      month. */
  lemma MonthBillsTheMost(M: Contract, log: seq<SeatChange>, rows: seq<SeatChange>, k: nat)
    requires Chain(log) && RowsOf(log, rows) && OneAtATime(log)
    ensures PeriodCharge(Monthly, M, rows, MonthPeriod(M, k)) == Some(2500 * MostIn(log, M(k), M(k + 1)))
  {
    hide SeatsAt, Highest, PeriodCharge, Chain;
    var start, end := M(k), M(k + 1);
    TellsAtOnce(log, rows, start);
    var n := MonthBillsTheHighest(M, log, rows, k);
    var t :| start <= t < end && CountAt(log, t) == MostIn(log, start, end);
    SetInside(log, start, t);
    if n != CountAt(log, start) {
      var i :| 0 <= i < |log| && start < log[i].at < end && log[i].to == n;
      CountAtIs(log, log[i].at, i);
      assert CountAt(log, log[i].at) <= MostIn(log, start, end);
    } else {
      assert CountAt(log, start) <= MostIn(log, start, end);
    }
  }

  lemma TellsAtOnce(log: seq<SeatChange>, rows: seq<SeatChange>, t: int)
    requires Chain(log) && RowsOf(log, rows) && OneAtATime(log)
    ensures SeatsAt(rows, t) == CountAt(log, t)
  {
    var n := LastIndex(log, t);
    if n >= 0 {
      SeatsAtIsCount(log, rows, t, n);
    } else {
      NothingYet(log, t);
      NoRowYet(log, rows, t);
    }
  }

  lemma NoRowYet(log: seq<SeatChange>, rows: seq<SeatChange>, t: int)
    requires RowsOf(log, rows) && forall i :: 0 <= i < |log| ==> log[i].at > t
    ensures SeatsAt(rows, t) == 0
  {
    SameMembers(log, rows);
    forall i | 0 <= i < |rows| ensures rows[i].at > t { assert rows[i] in rows; }
  }

  /** A year's own invoice is for N at its start: $240 a seat, or eleven months at $20 in
      the first year. */
  lemma YearInvoiceIs(M: Contract, log: seq<SeatChange>, rows: seq<SeatChange>, y: nat)
    requires Chain(log) && Rising(log) && RowsOf(log, rows)
    ensures PeriodCharge(Yearly, M, rows, YearPeriod(M, y)) ==
            Some(if y == 0 then 22_000 * CountAt(log, M(1)) else 24_000 * CountAt(log, M(12 * y)))
  {
    hide SeatsAt, Chain, Rising;
    RisingRowsTellN(log, rows, YearStart(M, y));
    PriceOfSeatTime(CountAt(log, YearStart(M, y)), 11);
  }

  lemma {:induction false} RisingCount(log: seq<SeatChange>, t: int, u: int)
    requires Chain(log) && Rising(log) && t <= u
    ensures CountAt(log, t) <= CountAt(log, u)
  {
    if log != [] {
      var n := |log| - 1;
      PrefixChain(log, n);
      RisingCount(log[..n], t, u);
      if log[n].at <= u && log[n].at > t {
        var m := LastIndex(log[..n], t);
        if m >= 0 {
          CountAtIs(log[..n], t, m);
          RisingIsMonotone(log, m, n);
          RisingOver(log, m, n);
        } else {
          NothingYet(log[..n], t);
        }
      }
    }
  }

  lemma {:induction false} RisingOver(log: seq<SeatChange>, m: nat, n: nat)
    requires Chain(log) && Rising(log) && m < n < |log|
    ensures log[m].to < log[n].to
    decreases n - m
  {
    assert log[n].from == CountBefore(log, n);
    if m < n - 1 { RisingOver(log, m, n - 1); }
  }

  /** On a rising history a month's highest N is the one it ends with. */
  lemma MostIsTheLast(log: seq<SeatChange>, start: int, end: int)
    requires Chain(log) && Rising(log) && start < end
    ensures MostIn(log, start, end) == CountAt(log, end - 1)
  {
    var t :| start <= t < end && CountAt(log, t) == MostIn(log, start, end);
    RisingCount(log, t, end - 1);
  }

  /** Months of [a, b) that end after `at`: the months a seat added then is in. */
  function MonthsAfter(M: Contract, at: int, a: nat, b: nat): int {
    var k := Index(M, at);
    if k <= a then b - a else if k <= b then b - k else 0
  }

  function AddedMonths(M: Contract, a: nat, b: nat): SeatChange -> int {
    (c: SeatChange) => SeatTime(c.to - c.from, MonthsAfter(M, c.at, a, b))
  }

  /** Counted by change instead of by month. */
  lemma {:induction false} SeatMonthsByChange(M: Contract, log: seq<SeatChange>, a: nat, b: nat)
    requires Chain(log) && Rising(log) && a <= b
    ensures SeatMonths(M, log, a, b) == SumOf(log, AddedMonths(M, a, b))
    decreases b
  {
    hide AddedMonths, Chain, Rising, AddedBy;
    if a == b {
      NoMonths(M, log, a);
    } else {
      SeatMonthsByChange(M, log, a, b - 1);
      assert M(b - 1) < M(b);
      MostIsTheLast(log, M(b - 1), M(b));
      CountIsSum(log, M(b) - 1);
      forall i | 0 <= i < |log|
        ensures AddedMonths(M, a, b)(log[i]) == AddedMonths(M, a, b - 1)(log[i]) + AddedBy(M(b) - 1)(log[i])
      {
        OneMoreMonth(M, log[i], a, b);
      }
      SumOfSums(log, AddedMonths(M, a, b - 1), AddedBy(M(b) - 1), AddedMonths(M, a, b));
    }
  }

  lemma {:induction false} NoMonths(M: Contract, log: seq<SeatChange>, a: nat)
    ensures SumOf(log, AddedMonths(M, a, a)) == 0
  {
    if log != [] {
      NoSeatTime(0, log[0].to - log[0].from);
      NoMonths(M, log[1..], a);
    }
  }

  lemma OneMoreMonth(M: Contract, c: SeatChange, a: nat, b: nat)
    requires a < b
    ensures AddedMonths(M, a, b)(c) == AddedMonths(M, a, b - 1)(c) + AddedBy(M(b) - 1)(c)
  {
    hide Index, SeatTime;
    IndexAtMost(M, c.at, b - 1);
    var before, after := MonthsAfter(M, c.at, a, b - 1), MonthsAfter(M, c.at, a, b);
    var more := if c.at < M(b) then 1 else 0;
    assert after == before + more;
    SeatTimeAdds(c.to - c.from, before, more);
  }

  lemma SeatTimeAdds(seats: int, months: int, more: int)
    requires more == 0 || more == 1
    ensures SeatTime(seats, months + more) == SeatTime(seats, months) + more * seats
  {
  }

  // ------------------------------------------------------------ what a year bills

  /** The year's invoice and its four quarters. */
  function YearTotal(M: Contract, rows: seq<SeatChange>, y: nat): int {
    Cents(PeriodCharge(Yearly, M, rows, YearPeriod(M, y))) + QuartersTotal(M, rows, y, 4)
  }

  function QuartersTotal(M: Contract, rows: seq<SeatChange>, y: nat, quarters: nat): int {
    if quarters == 0 then 0
    else QuartersTotal(M, rows, y, quarters - 1) + Cents(PeriodCharge(Yearly, M, rows, QuarterPeriod(M, y, quarters - 1)))
  }

  /** The first contract month that the year's invoice pays for. */
  function FirstPaid(y: nat): nat { if y == 0 then 1 else 12 * y }

  function QuarterTerms(M: Contract, y: nat, quarters: nat): SeatChange -> int {
    (c: SeatChange) =>
      if M(12 * y) <= c.at < M(12 * y + 3 * quarters) && c.at > BilledUpTo(M, y) && c.to > c.from
      then AddedPrice(c.to - c.from, MonthsLeftInYear(M, c.at)) else 0
  }

  lemma {:induction false} QuartersBySum(M: Contract, rows: seq<SeatChange>, y: nat, quarters: nat)
    ensures QuartersTotal(M, rows, y, quarters) == SumOf(rows, QuarterTerms(M, y, quarters))
  {
    hide QuarterTerms, QuarterTerm;
    if quarters == 0 {
      NoQuarters(M, rows, y);
    } else {
      var p := QuarterPeriod(M, y, quarters - 1);
      QuartersBySum(M, rows, y, quarters - 1);
      TermsArePositive(M, rows, p);
      forall i | 0 <= i < |rows|
        ensures QuarterTerms(M, y, quarters)(rows[i]) == QuarterTerms(M, y, quarters - 1)(rows[i]) + QuarterTerm(M, p)(rows[i])
      {
        OneMoreQuarter(M, rows[i], y, quarters);
      }
      SumOfSums(rows, QuarterTerms(M, y, quarters - 1), QuarterTerm(M, p), QuarterTerms(M, y, quarters));
    }
  }

  lemma {:induction false} NoQuarters(M: Contract, rows: seq<SeatChange>, y: nat)
    ensures SumOf(rows, QuarterTerms(M, y, 0)) == 0
  {
    if rows != [] { NoQuarters(M, rows[1..], y); }
  }

  lemma OneMoreQuarter(M: Contract, c: SeatChange, y: nat, quarters: nat)
    requires quarters > 0
    ensures QuarterTerms(M, y, quarters)(c)
            == QuarterTerms(M, y, quarters - 1)(c) + QuarterTerm(M, QuarterPeriod(M, y, quarters - 1))(c)
  {
    hide AddedPrice, MonthsLeftInYear;
    NotLater(M, 12 * y, 12 * y + 3 * (quarters - 1));
    assert M(12 * y + 3 * (quarters - 1)) < M(12 * y + 3 * quarters);
  }

  /** The year a change is made in, past its billed start, is the year of its index. */
  lemma IndexInYear(M: Contract, at: int, y: nat)
    requires M(FirstPaid(y)) < at < M(12 * y + 12)
    ensures FirstPaid(y) <= Index(M, at) < 12 * y + 12
    ensures MonthsLeftInYear(M, at) == 12 * y + 12 - Index(M, at)
    ensures M(12 * y) <= at
  {
    var k, a := Index(M, at), FirstPaid(y);
    assert M(0) < M(a);
    IndexAtMost(M, at, 12 * y + 11);
    IndexAtMost(M, at, a - 1);
    NotLater(M, 12 * y, a);
    assert k == 12 * y + (k - 12 * y);
  }

  /** A rise by the year's start is in its invoice, for every paid month. */
  lemma YearPart(M: Contract, c: SeatChange, y: nat)
    ensures YearTerm(M, y)(c)
            == AddedPrice(if c.at <= M(FirstPaid(y)) then c.to - c.from else 0, 12 * y + 12 - FirstPaid(y))
  {
    hide AddedPrice;
    assert YearStart(M, y) == M(FirstPaid(y));
    assert AddedBy(YearStart(M, y))(c) == if c.at <= M(FirstPaid(y)) then c.to - c.from else 0;
  }

  /** A later one in the year is in a quarter, for the months left. */
  lemma QuartersPart(M: Contract, c: SeatChange, y: nat)
    requires c.from < c.to
    ensures QuarterTerms(M, y, 4)(c)
            == if M(FirstPaid(y)) < c.at < M(12 * y + 12) then AddedPrice(c.to - c.from, 12 * y + 12 - Index(M, c.at)) else 0
  {
    hide AddedPrice, MonthsLeftInYear, Index;
    if M(FirstPaid(y)) < c.at < M(12 * y + 12) { IndexInYear(M, c.at, y); }
  }

  lemma MonthsPart(M: Contract, at: int, y: nat)
    ensures MonthsAfter(M, at, FirstPaid(y), 12 * y + 12)
            == if at <= M(FirstPaid(y)) then 12 * y + 12 - FirstPaid(y)
               else if at < M(12 * y + 12) then 12 * y + 12 - Index(M, at) else 0
  {
    hide Index;
    var a, b := FirstPaid(y), 12 * y + 12;
    IndexAtMost(M, at, a);
    IndexAtMost(M, at, b - 1);
    assert M(a) < M(a + 1);
    if M(a) < at < M(b) { IndexInYear(M, at, y); }
  }

  /** What one rising change pays: its seats, for each month left of the year that
      is not free. */
  lemma OneChangePays(M: Contract, c: SeatChange, y: nat)
    requires c.from < c.to
    ensures YearTerms(M, y)(c) == 2000 * AddedMonths(M, FirstPaid(y), 12 * y + 12)(c)
  {
    hide QuarterTerms, YearTerm, MonthsAfter, AddedPrice, SeatTime, Index, FirstPaid;
    var added, b := c.to - c.from, 12 * y + 12;
    YearPart(M, c, y);
    QuartersPart(M, c, y);
    MonthsPart(M, c.at, y);
    PriceOfSeatTime(0, b - FirstPaid(y));
    PriceOfSeatTime(added, b - FirstPaid(y));
    PriceOfSeatTime(added, b - Index(M, c.at));
    NoSeatTime(b - FirstPaid(y), added);
  }

  lemma NoSeatTime(months: int, seats: int)
    ensures SeatTime(0, months) == SeatTime(seats, 0) == 0
  {
  }

  /** Conservation: all charges of a contract year come to $20 for each seat-month,
      month by month the highest N of the month; the first month of the contract is
      free. For every rising history, and every order of its rows. */
  lemma YearIsSeatMonths(M: Contract, log: seq<SeatChange>, rows: seq<SeatChange>, y: nat)
    requires Chain(log) && Rising(log) && RowsOf(log, rows)
    ensures YearTotal(M, rows, y) == 2000 * SeatMonths(M, log, FirstPaid(y), 12 * y + 12)
  {
    var a, b := FirstPaid(y), 12 * y + 12;
    YearBySum(M, log, rows, y);
    SeatMonthsByChange(M, log, a, b);
    var terms, months := YearTerms(M, y), AddedMonths(M, a, b);
    forall i | 0 <= i < |log| ensures terms(log[i]) == 2000 * months(log[i]) { OneChangePays(M, log[i], y); }
    SumScaled(log, months, 2000, terms);
  }

  /** What a change adds to the year's five charges. */
  function YearTerms(M: Contract, y: nat): SeatChange -> int {
    (c: SeatChange) => QuarterTerms(M, y, 4)(c) + YearTerm(M, y)(c)
  }

  function YearTerm(M: Contract, y: nat): SeatChange -> int {
    (c: SeatChange) => AddedPrice(AddedBy(YearStart(M, y))(c), 12 * y + 12 - FirstPaid(y))
  }

  lemma YearBySum(M: Contract, log: seq<SeatChange>, rows: seq<SeatChange>, y: nat)
    requires Chain(log) && Rising(log) && RowsOf(log, rows)
    ensures YearTotal(M, rows, y) == SumOf(log, YearTerms(M, y))
  {
    hide QuarterTerms, QuartersTotal, PeriodCharge, YearTerm, SeatsAt;
    YearInvoiceBySum(M, log, rows, y);
    QuartersBySum(M, rows, y, 4);
    SumPermuted(rows, log, QuarterTerms(M, y, 4));
    SumOfSums(log, QuarterTerms(M, y, 4), YearTerm(M, y), YearTerms(M, y));
  }

  lemma YearInvoiceBySum(M: Contract, log: seq<SeatChange>, rows: seq<SeatChange>, y: nat)
    requires Chain(log) && Rising(log) && RowsOf(log, rows)
    ensures Cents(PeriodCharge(Yearly, M, rows, YearPeriod(M, y))) == SumOf(log, YearTerm(M, y))
  {
    hide SeatsAt, AddedPrice, Chain, Rising;
    var t, months := YearStart(M, y), 12 * y + 12 - FirstPaid(y);
    var n, added := SeatsAt(rows, t), AddedBy(t);
    PriceOfSeatTime(n, months);
    RisingRowsTellN(log, rows, t);
    CountIsSum(log, t);
    forall i | 0 <= i < |log| ensures YearTerm(M, y)(log[i]) == 2000 * months * added(log[i]) {
      PriceOfSeatTime(added(log[i]), months);
    }
    SumScaled(log, added, 2000 * months, YearTerm(M, y));
  }
}
