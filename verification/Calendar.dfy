/** The UTC calendar of section 21.4.1 of ECMA-262, from day numbers up, and the
    contract months that enterprise billing counts on it.

    Instants are integers: milliseconds since 1970-01-01T00:00Z. Division and
    remainder by a positive constant are floored, as the standard's are. */
module Calendar {
  import opened Basics
  import opened Months

  const DAY_MS := 86_400_000

  // ------------------------------------------------- ECMA-262 section 21.4.1

  function DayFromYear(year: int): int { 365 * (year - 1970) + LeapDays(year) }

  /** Leap days from 1970 to the start of a year. */
  function LeapDays(year: int): int { (year - 1969) / 4 - (year - 1901) / 100 + (year - 1601) / 400 }

  predicate LeapYear(year: int) {
    year % 4 == 0 && (year % 100 != 0 || year % 400 == 0)
  }

  /** Days of a year before the first of its 0-based month. */
  function DaysBefore(month: int, leap: bool): int {
    var l := if leap then 1 else 0;
    if month <= 0 then 0
    else if month == 1 then 31
    else if month == 2 then 59 + l
    else if month == 3 then 90 + l
    else if month == 4 then 120 + l
    else if month == 5 then 151 + l
    else if month == 6 then 181 + l
    else if month == 7 then 212 + l
    else if month == 8 then 243 + l
    else if month == 9 then 273 + l
    else if month == 10 then 304 + l
    else if month == 11 then 334 + l
    else 365 + l
  }

  /** The year a day number falls in: the last one that starts at or before it. */
  function YearFromDay(day: int): (year: int)
    ensures DayFromYear(year) <= day < DayFromYear(year + 1)
  {
    SearchYear(day, if day < 0 then 1970 + day else 1970)
  }

  function SearchYear(day: int, from: int): (year: int)
    requires DayFromYear(from) <= day
    ensures DayFromYear(year) <= day < DayFromYear(year + 1)
    decreases day - DayFromYear(from)
  {
    if DayFromYear(from + 1) <= day then SearchYear(day, from + 1) else from
  }

  function Day(t: int): int { t / DAY_MS }

  function TimeWithinDay(t: int): int { t % DAY_MS }

  function Year(t: int): int { YearFromDay(Day(t)) }

  function DayWithinYear(t: int): int { Day(t) - DayFromYear(Year(t)) }

  /** The 0-based month of the year. */
  function Month(t: int): (month: int)
    ensures 0 <= month < 12
    ensures DaysBefore(month, LeapYear(Year(t))) <= DayWithinYear(t) < DaysBefore(month + 1, LeapYear(Year(t)))
  {
    hide DayFromYear, LeapYear;
    YearLength(Year(t));
    SearchMonth(DayWithinYear(t), LeapYear(Year(t)), 0)
  }

  function SearchMonth(dayWithinYear: int, leap: bool, from: int): (month: int)
    requires 0 <= from < 12
    requires DaysBefore(from, leap) <= dayWithinYear < DaysBefore(12, leap)
    ensures from <= month < 12
    ensures DaysBefore(month, leap) <= dayWithinYear < DaysBefore(month + 1, leap)
    decreases 12 - from
  {
    if dayWithinYear < DaysBefore(from + 1, leap) then from
    else SearchMonth(dayWithinYear, leap, from + 1)
  }

  /** The 1-based day of the month. */
  function DateOfMonth(t: int): int {
    DayWithinYear(t) - DaysBefore(Month(t), LeapYear(Year(t))) + 1
  }

  function Hours(t: int): int { t / 3_600_000 % 24 }
  function Minutes(t: int): int { t / 60_000 % 60 }
  function Seconds(t: int): int { t / 1000 % 60 }
  function Milliseconds(t: int): int { t % 1000 }

  function MakeTime(hours: int, minutes: int, seconds: int, ms: int): int {
    hours * 3_600_000 + minutes * 60_000 + seconds * 1000 + ms
  }

  function MakeDay(year: int, month: int, date: int): int {
    FirstOf(year + month / 12, month % 12) + date - 1
  }

  /** Date.UTC counts the years 0 to 99 from 1900. */
  function MakeFullYear(year: int): int {
    if 0 <= year <= 99 then 1900 + year else year
  }

  function DateUTC(year: int, month: int, date: int, hours: int, minutes: int, seconds: int, ms: int): int {
    MakeDay(MakeFullYear(year), month, date) * DAY_MS + MakeTime(hours, minutes, seconds, ms)
  }

  // ------------------------------------------------------- contract months

  function DaysInMonth(year: int, month: int): int {
    DateOfMonth(DateUTC(year, month + 1, 1, 0, 0, 0, 0) - DAY_MS)
  }

  /** `start` moved by `months` contract months, the day clamped to the month. */
  function AddContractMonths(start: int, months: int): int {
    var total := Month(start) + months;
    var year := Year(start) + total / 12;
    var month := total % 12;
    var day := Min(DateOfMonth(start), DaysInMonth(year, month));
    DateUTC(year, month, day, Hours(start), Minutes(start), Seconds(start), Milliseconds(start))
  }

  // ------------------------------------- months counted from year 0, month 0

  /** Months since January of year 0. */
  function MonthNumber(t: int): int { 12 * Year(t) + Month(t) }

  /** The day number of the first of month number `m`. */
  function MonthStart(m: int): int { FirstOf(m / 12, m % 12) }

  function FirstOf(year: int, month: int): int {
    DayFromYear(year) + DaysBefore(month, LeapYear(year))
  }

  function MonthLength(m: int): int { MonthStart(m + 1) - MonthStart(m) }

  /** Date.UTC reads a year of this size or more as written. */
  predicate Dated(t: int) { Year(t) >= 100 }

  lemma YearLength(year: int)
    ensures DayFromYear(year + 1) - DayFromYear(year) == DaysBefore(12, LeapYear(year))
  {
    hide LeapDays, LeapYear;
    LeapSteps(year);
  }

  /** The leap days grow by one after a leap year. */
  lemma LeapSteps(year: int)
    ensures LeapDays(year + 1) - LeapDays(year) == if LeapYear(year) then 1 else 0
  {
    QuotientSteps(year, 1968, 4);
    QuotientSteps(year, 1900, 100);
    QuotientSteps(year, 1600, 400);
    Divides(year, 100, 25, 4);
    Divides(year, 400, 4, 100);
  }

  lemma QuotientSteps(year: int, base: int, n: int)
    requires n > 1 && base % n == 0
    ensures (year + 1 - (base + 1)) / n - (year - (base + 1)) / n == if year % n == 0 then 1 else 0
  {
    NextQuotient(year - (base + 1), n);
    SameRemainder(year, base, n);
    assert year + 1 - (base + 1) == year - base;
  }

  lemma Divides(a: int, n: int, k: int, d: int)
    requires d > 1 && n == k * d && n > 0
    ensures a % n == 0 ==> a % d == 0
  {
    if a % n == 0 {
      var q := a / n;
      assert a == q * k * d + 0;
      QuotientIs(a, d, q * k, 0);
    }
  }

  lemma NextQuotient(a: int, n: int)
    requires n > 1
    ensures (a + 1) / n - a / n == if (a + 1) % n == 0 then 1 else 0
  {
    var q, r := a / n, a % n;
    assert a == q * n + r;
    if r + 1 == n {
      QuotientIs(a + 1, n, q + 1, 0) by { assert (q + 1) * n == q * n + n; }
    } else {
      QuotientIs(a + 1, n, q, r + 1);
    }
  }

  lemma QuotientIs(a: int, n: int, q: int, r: int)
    requires 0 <= r < n && a == q * n + r
    ensures a / n == q && a % n == r
  {
    var d := a / n - q;
    assert a % n == r - d * n by { assert (a / n) * n == q * n + d * n; }
    AtLeastOneTime(d, n);
  }

  lemma AtLeastOneTime(d: int, n: int)
    requires n > 0
    ensures (d >= 1 ==> d * n >= n) && (d <= -1 ==> d * n <= -n)
  {
  }

  lemma SameRemainder(a: int, b: int, n: int)
    requires n > 1 && b % n == 0
    ensures (a - b) % n == a % n
  {
    var q, p := a / n, b / n;
    assert a - b == (q - p) * n + a % n;
    QuotientIs(a - b, n, q - p, a % n);
  }

  /** Month numbers split into a year and a month of it, and step by one. */
  lemma MonthSplits(year: int, month: int)
    requires 0 <= month < 12
    ensures (12 * year + month) / 12 == year && (12 * year + month) % 12 == month
  {
  }

  lemma MonthLengths(m: int)
    ensures 28 <= MonthLength(m) <= 31
    ensures MonthLength(m) == DaysBefore(m % 12 + 1, LeapYear(m / 12)) - DaysBefore(m % 12, LeapYear(m / 12))
  {
    hide DayFromYear, LeapYear;
    var year, month := m / 12, m % 12;
    if month == 11 {
      MonthSplits(year + 1, 0);
      YearLength(year);
    } else {
      MonthSplits(year, month + 1);
    }
  }

  lemma {:induction false} MonthStartsGrow(m: int, n: int)
    requires m <= n
    ensures MonthStart(m) + 28 * (n - m) <= MonthStart(n)
    decreases n - m
  {
    hide MonthStart;
    if m < n {
      MonthLengths(m);
      MonthStartsGrow(m + 1, n);
    }
  }

  /** Every instant lies in its own month, on its own date. */
  lemma InItsMonth(t: int)
    ensures MonthStart(MonthNumber(t)) + DateOfMonth(t) - 1 == Day(t)
    ensures 1 <= DateOfMonth(t) <= MonthLength(MonthNumber(t))
  {
    hide DayFromYear, LeapYear, Year, DaysBefore;
    MonthSplits(Year(t), Month(t));
    MonthLengths(MonthNumber(t));
  }

  /** Only one month holds a day. */
  lemma MonthIsUnique(t: int, m: int)
    requires MonthStart(m) <= Day(t) < MonthStart(m + 1)
    ensures MonthNumber(t) == m
  {
    hide MonthStart, MonthNumber, DateOfMonth;
    InItsMonth(t);
    var n := MonthNumber(t);
    if n < m { MonthStartsGrow(n + 1, m); }
    if n > m { MonthStartsGrow(m + 1, n); }
  }

  lemma MakeDayIs(year: int, month: int, date: int)
    ensures MakeDay(year, month, date) == MonthStart(12 * year + month) + date - 1
  {
    hide FirstOf;
    MonthSplits(year + month / 12, month % 12);
  }

  lemma DaysInMonthIs(year: int, month: int)
    requires MakeFullYear(year) == year
    ensures DaysInMonth(year, month) == MonthLength(12 * year + month)
  {
    hide MonthStart, MonthNumber, DateOfMonth, MakeDay, Day, MakeTime;
    var last := MonthStart(12 * year + month + 1) - 1;
    var t := DateUTC(year, month + 1, 1, 0, 0, 0, 0) - DAY_MS;
    Midnight();
    MakeDayIs(year, month + 1, 1);
    DayAndTime(last, 0);
    assert t == last * DAY_MS + 0;
    LastOfMonth(t, 12 * year + month);
  }

  lemma Midnight()
    ensures MakeTime(0, 0, 0, 0) == 0
  {
  }

  lemma LastOfMonth(t: int, m: int)
    requires Day(t) == MonthStart(m + 1) - 1
    ensures DateOfMonth(t) == MonthLength(m)
  {
    hide MonthStart, MonthNumber, DateOfMonth, Day;
    MonthLengths(m);
    MonthIsUnique(t, m);
    InItsMonth(t);
  }

  lemma DaysInMonthPositive(year: int, month: int)
    ensures DaysInMonth(year, month) >= 1
  {
    hide DateOfMonth, DateUTC, MonthStart, MonthNumber, Day;
    InItsMonth(DateUTC(year, month + 1, 1, 0, 0, 0, 0) - DAY_MS);
  }

  lemma ClockOfDay(t: int)
    ensures MakeTime(Hours(t), Minutes(t), Seconds(t), Milliseconds(t)) == TimeWithinDay(t)
  {
    var seconds := t / 1000;
    var minutes := seconds / 60;
    var hours := minutes / 60;
    var day := hours / 24;
    var rest := t - day * DAY_MS;
    assert t / 60_000 == minutes by { assert t == minutes * 60_000 + seconds % 60 * 1000 + t % 1000; }
    assert t / 3_600_000 == hours by {
      assert t == hours * 3_600_000 + minutes % 60 * 60_000 + seconds % 60 * 1000 + t % 1000;
    }
    assert rest == MakeTime(hours % 24, minutes % 60, seconds % 60, t % 1000);
    DayAndTime(day, rest);
  }

  lemma DayAndTime(day: int, rest: int)
    requires 0 <= rest < DAY_MS
    ensures Day(day * DAY_MS + rest) == day && TimeWithinDay(day * DAY_MS + rest) == rest
  {
  }

  // --------------------------------------------------- what contract months are

  /** The day number of contract month `k`'s first day. */
  function ContractDay(start: int, k: int): int {
    var m := MonthNumber(start) + k;
    MonthStart(m) + Min(DateOfMonth(start), MonthLength(m)) - 1
  }

  lemma ContractMonthIs(start: int, k: int)
    requires var year := (MonthNumber(start) + k) / 12; MakeFullYear(year) == year
    ensures AddContractMonths(start, k) == ContractDay(start, k) * DAY_MS + TimeWithinDay(start)
    ensures MonthNumber(AddContractMonths(start, k)) == MonthNumber(start) + k
  {
    hide MonthStart, DateOfMonth, DaysInMonth, MakeDay, Month, Year, MakeTime, Hours, Minutes, Seconds, Milliseconds;
    var total := Month(start) + k;
    var year, month := Year(start) + total / 12, total % 12;
    assert 12 * year + month == MonthNumber(start) + k;
    MonthSplits(year, month);
    DaysInMonthIs(year, month);
    MakeDayIs(year, month, Min(DateOfMonth(start), DaysInMonth(year, month)));
    ClockOfDay(start);
    var t := AddContractMonths(start, k);
    assert t == ContractDay(start, k) * DAY_MS + TimeWithinDay(start);
    assert Day(t) == ContractDay(start, k);
    InItsMonth(start);
    MonthLengths(MonthNumber(start) + k);
    MonthIsUnique(t, MonthNumber(start) + k);
  }

  /** A month in the years 0 to 99 lands in the 1900s. */
  lemma ShortMonthMoves(start: int, k: int)
    requires 0 <= (MonthNumber(start) + k) / 12 <= 99
    ensures AddContractMonths(start, k) >= MonthStart(MonthNumber(start) + k + 12 * 1900) * DAY_MS
  {
    hide MonthStart, DateOfMonth, DaysInMonth, MakeDay, Month, Year, MakeTime, Hours, Minutes, Seconds, Milliseconds;
    var total := Month(start) + k;
    var year, month := Year(start) + total / 12, total % 12;
    assert 12 * year + month == MonthNumber(start) + k;
    MonthSplits(year, month);
    DaysInMonthPositive(year, month);
    var day := Min(DateOfMonth(start), DaysInMonth(year, month));
    MakeDayIs(1900 + year, month, day);
    ClockOfDay(start);
    InItsMonth(start);
    assert AddContractMonths(start, k) == MakeDay(1900 + year, month, day) * DAY_MS + TimeWithinDay(start);
  }

  lemma ShortYearMoves(start: int)
    requires 0 <= Year(start) <= 99
    ensures AddContractMonths(start, 0) > start
  {
    hide MonthStart, DateOfMonth, Month, Year, AddContractMonths;
    ShortMonthMoves(start, 0);
    InItsMonth(start);
    MonthStartsGrow(MonthNumber(start) + 1, MonthNumber(start) + 12 * 1900);
  }

  /** Contract month 0 starts at the start exactly when Date.UTC reads its year
      as written; a start in the years 0 to 99 moves to the 1900s. */
  lemma MonthZeroIsTheStart(start: int)
    ensures AddContractMonths(start, 0) == start <==> !(0 <= Year(start) <= 99)
  {
    hide DayFromYear, FirstOf, LeapYear, DateOfMonth, DaysInMonth;
    MonthSplits(Year(start), Month(start));
    if 0 <= Year(start) <= 99 {
      ShortYearMoves(start);
    } else {
      InItsMonth(start);
      ContractMonthIs(start, 0);
    }
  }

  /** Contract months grow by a day or more, from every start of year 100 on and across
      every clamp. */
  lemma {:induction false} ContractMonthsGrow(start: int, j: int, k: int)
    requires Dated(start) && 0 <= j < k
    ensures AddContractMonths(start, j) + DAY_MS * (k - j) <= AddContractMonths(start, k)
    decreases k - j
  {
    hide Year, Month, MonthStart, AddContractMonths, DateOfMonth, MonthNumber;
    DatedMonths(start, j);
    DatedMonths(start, k);
    ContractMonthIs(start, j);
    InItsMonth(start);
    if j + 1 < k {
      ContractMonthsGrow(start, j + 1, k);
      ContractMonthsGrow(start, j, j + 1);
    } else {
      ContractMonthIs(start, k);
      MonthLengths(MonthNumber(start) + j);
      MonthLengths(MonthNumber(start) + k);
    }
  }

  lemma DatedMonths(start: int, k: int)
    requires Dated(start) && 0 <= k
    ensures MonthNumber(start) >= 1200
    ensures var year := (MonthNumber(start) + k) / 12; MakeFullYear(year) == year
  {
    hide Year, Month;
  }

  lemma StartsAtTheStart(start: int)
    requires Dated(start)
    ensures AddContractMonths(start, 0) == start
  {
    hide AddContractMonths, Year;
    MonthZeroIsTheStart(start);
  }

  function MonthStarts(start: int): nat -> int {
    hide AddContractMonths;
    (k: nat) => AddContractMonths(start, k)
  }

  lemma MonthStartsIncrease(start: int)
    requires Dated(start)
    ensures Increasing(MonthStarts(start))
  {
    hide AddContractMonths, Dated;
    forall j: nat, k: nat | j < k ensures MonthStarts(start)(j) < MonthStarts(start)(k) {
      ContractMonthsGrow(start, j, k);
    }
  }

  /** December of year 99 is billed after January of year 100. */
  lemma ShortYearsFallBack(start: int)
    requires !Dated(start)
    ensures !Increasing(MonthStarts(start))
  {
    hide AddContractMonths, DateOfMonth, MonthStart, Month, Year;
    var k: nat := 12 * 99 + 11 - MonthNumber(start);
    ShortMonthMoves(start, k);
    ContractMonthIs(start, k + 1);
    InItsMonth(start);
    MonthLengths(1200);
    MonthStartsGrow(1201, 12 * 1999 + 11);
    assert MonthStarts(start)(k) > MonthStarts(start)(k + 1);
  }

  /** The month starts grow exactly from a start that Date.UTC reads as written. */
  lemma MonthStartsIncreaseIff(start: int)
    ensures Increasing(MonthStarts(start)) <==> Dated(start)
  {
    hide Increasing, MonthStarts, Dated;
    if Dated(start) { MonthStartsIncrease(start); } else { ShortYearsFallBack(start); }
  }

  /** The contract calendar of a start: one contract month after another. */
  function MonthsOf(start: int): Contract
    requires Dated(start)
  {
    hide AddContractMonths, Dated, MonthStarts;
    MonthStartsIncrease(start);
    MonthStarts(start)
  }

  lemma MonthOf(start: int, k: nat)
    requires Dated(start)
    ensures MonthsOf(start)(k) == AddContractMonths(start, k)
    ensures MonthsOf(start)(0) == start
  {
    hide AddContractMonths, Dated;
    StartsAtTheStart(start);
  }

  // -------------------------------------------------------------- month index

  /** Months between the two dates' calendar months, the days ignored. */
  function CalendarEstimate(start: int, now: int): int {
    (Year(now) - Year(start)) * 12 + (Month(now) - Month(start))
  }

  lemma EstimateInMonths(start: int, now: int)
    ensures CalendarEstimate(start, now) == MonthNumber(now) - MonthNumber(start)
  {
    hide Year, Month;
  }

  lemma MonthNumbersGrow(t: int, u: int)
    requires t <= u
    ensures MonthNumber(t) <= MonthNumber(u)
  {
    hide MonthStart, MonthNumber, DateOfMonth;
    InItsMonth(t);
    InItsMonth(u);
    if MonthNumber(u) < MonthNumber(t) { MonthStartsGrow(MonthNumber(u) + 1, MonthNumber(t)); }
  }

  lemma CalendarMonthOf(start: int, k: nat, now: int)
    requires Dated(start)
    requires AddContractMonths(start, k) <= now < AddContractMonths(start, k + 1)
    ensures MonthNumber(start) + k <= MonthNumber(now) <= MonthNumber(start) + k + 1
  {
    hide AddContractMonths, Dated, MonthNumber, ContractDay, TimeWithinDay, MakeFullYear;
    DatedMonths(start, k);
    DatedMonths(start, k + 1);
    ContractMonthIs(start, k);
    ContractMonthIs(start, k + 1);
    MonthNumbersGrow(AddContractMonths(start, k), now);
    MonthNumbersGrow(now, AddContractMonths(start, k + 1));
  }

  /** An instant of contract month `k` is in its calendar month or the next. */
  lemma MonthOfContractMonth(start: int, now: int)
    requires Dated(start) && start <= now
    ensures var k := Index(MonthsOf(start), now);
            MonthNumber(start) + k <= MonthNumber(now) <= MonthNumber(start) + k + 1
  {
    hide AddContractMonths, Dated, MonthNumber, MonthsOf;
    var k := Index(MonthsOf(start), now);
    MonthOf(start, k);
    MonthOf(start, k + 1);
    CalendarMonthOf(start, k, now);
  }

  /** The estimate is right, or one month late. It is never early: the source's
      first loop steps at most once, its second never. */
  lemma EstimateIsOffByAtMostOne(start: int, now: int)
    requires Dated(start) && start <= now
    ensures var k, e := Index(MonthsOf(start), now), CalendarEstimate(start, now);
            && e - 1 <= k <= e
            && (k == e <==> AddContractMonths(start, e) <= now)
  {
    hide AddContractMonths, Dated, MonthNumber, Index, Year, Month, CalendarEstimate, MonthsOf;
    var M, e := MonthsOf(start), CalendarEstimate(start, now);
    EstimateInMonths(start, now);
    MonthOfContractMonth(start, now);
    MonthOf(start, e);
    IndexAtMost(M, now, e);
    if e > 0 { IndexAtMost(M, now, e - 1); }
  }

  /** The loops the source runs, and the month they find. */
  method ContractMonthIndex(start: int, now: int) returns (k: nat)
    requires Dated(start)
    ensures k == Index(MonthsOf(start), now)
  {
    hide AddContractMonths, Dated, CalendarEstimate, Index, MonthsOf;
    ghost var M := MonthsOf(start);
    MonthOf(start, 0);
    if now <= start {
      IndexAtMost(M, now, 0);
      return 0;
    }
    assert CalendarEstimate(start, now) >= 0 by { EstimateIsOffByAtMostOne(start, now); }
    var i := CalendarEstimate(start, now);
    while i > 0 && AddContractMonths(start, i) > now
      invariant 0 <= i
      decreases i
    {
      i := i - 1;
    }
    MonthOf(start, i);
    NotPastTheIndex(M, now, i);
    while AddContractMonths(start, i + 1) <= now
      invariant 0 <= i <= Index(M, now)
      decreases Index(M, now) - i
    {
      i := i + 1;
      MonthOf(start, i);
      NotPastTheIndex(M, now, i);
    }
    MonthOf(start, i + 1);
    IndexAtMost(M, now, i);
    k := i;
  }

  lemma NotPastTheIndex(M: Contract, now: int, i: nat)
    requires M(0) <= now && M(i) <= now
    ensures i <= Index(M, now)
  {
    if i > 0 { IndexAtMost(M, now, i - 1); }
  }

  /** Thirteen months on from any instant, the contract has reached its next
      quarter's end: what the next invoice needs of its horizon. */
  lemma ThirteenMonthsReach(start: int, now: int)
    requires Dated(start)
    ensures var M := MonthsOf(start);
            M(Index(M, now) + 3) <= AddContractMonths(Max(now, start), 13)
  {
    hide AddContractMonths, Dated, MonthNumber, Index, Year, MonthsOf, ContractDay, TimeWithinDay, MakeFullYear;
    var M, from := MonthsOf(start), Max(now, start);
    assert Dated(from) by { LaterIsDated(start, from); }
    assert MonthNumber(start) + Index(M, now) <= MonthNumber(from) by {
      MonthOf(start, 0);
      if now >= start { MonthOfContractMonth(start, now); }
    }
    var k := Index(M, now) + 3;
    MonthOf(start, 0);
    MonthOf(start, k);
    DatedMonths(start, k);
    DatedMonths(from, 13);
    ContractMonthIs(start, k);
    ContractMonthIs(from, 13);
    if M(k) > AddContractMonths(from, 13) { MonthNumbersGrow(AddContractMonths(from, 13), M(k)); }
  }

  lemma LaterIsDated(t: int, u: int)
    requires Dated(t) && t <= u
    ensures Dated(u)
  {
    hide Year, Month;
    MonthNumbersGrow(t, u);
  }
}
