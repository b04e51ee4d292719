/** What the ledger holds of an account: the charges of a prefix of its periods, in
    issue order, each with the amount that any later reading of the history gives. */
module Ledger {
  import opened Basics
  import opened History
  import opened Months
  import opened Billing
  import opened Charges
  import Settled
  import opened Stripe

  /** A signed standard account: its contract calendar, every change of N in order,
      and the rows of them in the order they are read. */
  datatype Account = Account(plan: Plan, months: Contract, log: seq<SeatChange>, rows: seq<SeatChange>)

  ghost predicate SoundAccount(a: Account) {
    Chain(a.log) && RowsOf(a.log, a.rows) && (a.plan == Yearly ==> Rising(a.log))
  }

  function PeriodOf(a: Account, i: nat): Period { Nth(a.plan, a.months, i) }

  function Charge(a: Account, i: nat): Option<int> { PeriodCharge(a.plan, a.months, a.rows, PeriodOf(a, i)) }

  function KeyOf(id: nat, a: Account, i: nat): Key { Key(id, PeriodOf(a, i).id) }

  /** Where a period is in issue order. */
  function Place(id: PeriodId): nat {
    match id
    case MonthId(k) => if k == 0 then 0 else k - 1
    case YearId(y) => 5 * y
    case QuarterId(y, q) => 5 * y + 1 + q
  }

  lemma PlaceOfPeriod(id: nat, a: Account, i: nat)
    ensures Place(KeyOf(id, a, i).period) == i
  {
    assert i == i / 5 * 5 + i % 5;
  }

  /** The period has a row exactly when it bills something, and for that much. */
  ghost predicate Booked(ledger: map<Key, Row>, id: nat, a: Account, i: nat) {
    var k, c := KeyOf(id, a, i), Charge(a, i);
    (k in ledger <==> c.Some?) && (c.Some? ==> ledger[k].amount == c.value)
  }

  /** The rows of an account are those of its first `n` periods, and no others. */
  ghost predicate Prefix(ledger: map<Key, Row>, id: nat, a: Account, n: nat) {
    && (forall i: nat :: i < n ==> Booked(ledger, id, a, i))
    && (forall k :: k in ledger && k.account == id ==> IsOneOf(k, id, a, n))
  }

  ghost predicate IsOneOf(k: Key, id: nat, a: Account, n: nat) {
    Place(k.period) < n && KeyOf(id, a, Place(k.period)) == k
  }

  // ----------------------------------------------------------------------- claims

  lemma NotClaimedYet(ledger: map<Key, Row>, id: nat, a: Account, n: nat)
    requires Prefix(ledger, id, a, n)
    ensures KeyOf(id, a, n) !in ledger
  {
    hide KeyOf, Place, Booked;
    PlaceOfPeriod(id, a, n);
    var k := KeyOf(id, a, n);
    assert k.account == id by { KeysAccount(id, a, n); }
    assert !IsOneOf(k, id, a, n);
  }

  lemma KeysAccount(id: nat, a: Account, i: nat)
    ensures KeyOf(id, a, i).account == id
  {
  }

  /** A claim of the next period, or no claim when it bills nothing, is the next prefix. */
  lemma ClaimIsNext(ledger: map<Key, Row>, ledger': map<Key, Row>, id: nat, a: Account, n: nat)
    requires Prefix(ledger, id, a, n)
    requires Charge(a, n).None? ==> ledger' == ledger
    requires Charge(a, n).Some? ==> ledger' == ledger[KeyOf(id, a, n) := Row(Charge(a, n).value, Claimed, None)]
    ensures Prefix(ledger', id, a, n + 1)
  {
    hide KeyOf, Place, Charge;
    NotClaimedYet(ledger, id, a, n);
    PlaceOfPeriod(id, a, n);
    forall i: nat | i < n + 1 ensures Booked(ledger', id, a, i) {
      PlaceOfPeriod(id, a, i);
      if i < n { assert Booked(ledger, id, a, i); }
    }
    forall k | k in ledger' && k.account == id ensures IsOneOf(k, id, a, n + 1) {
      if k in ledger { assert IsOneOf(k, id, a, n); }
    }
  }

  /** The rows of an account and their amounts are the same in both. */
  ghost predicate SameAccount(ledger: map<Key, Row>, ledger': map<Key, Row>, id: nat) {
    && (forall k: Key :: k.account == id ==> (k in ledger' <==> k in ledger))
    && (forall k: Key :: k.account == id && k in ledger && k in ledger' ==> ledger'[k].amount == ledger[k].amount)
  }

  lemma PrefixStays(ledger: map<Key, Row>, ledger': map<Key, Row>, id: nat, a: Account, n: nat)
    requires Prefix(ledger, id, a, n) && SameAccount(ledger, ledger', id)
    ensures Prefix(ledger', id, a, n)
  {
    hide KeyOf, Place, Charge;
    forall i: nat | i < n ensures Booked(ledger', id, a, i) {
      KeysAccount(id, a, i);
      assert Booked(ledger, id, a, i);
    }
    forall k | k in ledger' && k.account == id ensures IsOneOf(k, id, a, n) { assert k in ledger; }
  }

  /** Of an account whose rows begin by a period's start and never set N to nothing: a
      month or a year has its row, and a row is of more than nothing. */
  lemma BookedIsPositive(ledger: map<Key, Row>, id: nat, a: Account, i: nat)
    requires Booked(ledger, id, a, i)
    requires exists j :: 0 <= j < |a.rows| && a.rows[j].at <= PeriodOf(a, i).start
    requires forall c :: c in a.rows ==> c.to > 0
    ensures !PeriodOf(a, i).id.QuarterId? ==> KeyOf(id, a, i) in ledger
    ensures KeyOf(id, a, i) in ledger ==> ledger[KeyOf(id, a, i)].amount > 0
  {
    hide PeriodCharge, Nth;
    Settled.ChargeIsPositive(a.plan, a.months, a.rows, i);
  }

  // ----------------------------------------------------------------- later changes

  /** The account after one more change of N, read at position `at` of its rows. */
  function Changed(a: Account, c: SeatChange, at: nat): Account
    requires at <= |a.rows|
  {
    a.(log := a.log + [c], rows := a.rows[..at] + [c] + a.rows[at..])
  }

  lemma ChangedRows(a: Account, c: SeatChange, at: nat, t: int)
    requires at <= |a.rows| && c.at > t
    ensures UpTo(Changed(a, c, at).rows, t) == UpTo(a.rows, t)
    ensures RowsOf(a.log, a.rows) ==> RowsOf(a.log + [c], Changed(a, c, at).rows)
  {
    var before, after := a.rows[..at], a.rows[at..];
    assert a.rows == before + after;
    Settled.UpToConcat(before, after, t);
    Settled.UpToConcat(before + [c], after, t);
    Settled.UpToConcat(before, [c], t);
  }

  /** A change made after the periods of the prefix were issued leaves it a prefix. */
  lemma LaterChangeKeepsPrefix(ledger: map<Key, Row>, id: nat, a: Account, n: nat, c: SeatChange, at: nat, t: int)
    requires Prefix(ledger, id, a, n) && at <= |a.rows|
    requires n <= CountUntil(a.plan, a.months, t) && c.at > t
    ensures Prefix(ledger, id, Changed(a, c, at), n)
  {
    hide Nth, CountUntil, PeriodCharge, Place, UpTo;
    var b := Changed(a, c, at);
    ChangedRows(a, c, at, t);
    forall i: nat | i < n ensures Booked(ledger, id, b, i) {
      assert Booked(ledger, id, a, i);
      IssuedBy(a.plan, a.months, t, i);
      Settled.LaterChangesNeverMatter(a.plan, a.months, a.rows, b.rows, i, t);
    }
    forall k | k in ledger && k.account == id ensures IsOneOf(k, id, b, n) { assert IsOneOf(k, id, a, n); }
  }

  // ---------------------------------------------------------------- a year's ledger

  function Entered(ledger: map<Key, Row>, k: Key): int { if k in ledger then ledger[k].amount else 0 }

  /** The amounts of the rows of periods i to i + count. */
  function EnteredFrom(ledger: map<Key, Row>, id: nat, a: Account, i: nat, count: nat): int {
    if count == 0 then 0 else EnteredFrom(ledger, id, a, i, count - 1) + Entered(ledger, KeyOf(id, a, i + count - 1))
  }

  lemma EnteredIsCharge(ledger: map<Key, Row>, id: nat, a: Account, n: nat, i: nat)
    requires Prefix(ledger, id, a, n) && i < n
    ensures Entered(ledger, KeyOf(id, a, i)) == Cents(Charge(a, i))
  {
    hide KeyOf, Charge;
    assert Booked(ledger, id, a, i);
  }

  lemma {:induction false} QuartersEntered(ledger: map<Key, Row>, id: nat, a: Account, n: nat, y: nat, quarters: nat)
    requires Prefix(ledger, id, a, n) && a.plan == Yearly && quarters <= 4 && 5 * y + 1 + quarters <= n
    ensures EnteredFrom(ledger, id, a, 5 * y, 1 + quarters)
            == Cents(PeriodCharge(Yearly, a.months, a.rows, YearPeriod(a.months, y))) + QuartersTotal(a.months, a.rows, y, quarters)
  {
    hide Nth, PeriodCharge, Prefix, YearPeriod, QuarterPeriod, Entered;
    NthOfYear(a.months, y);
    EnteredIsCharge(ledger, id, a, n, 5 * y + quarters);
    if quarters == 0 {
      assert EnteredFrom(ledger, id, a, 5 * y, 1) == EnteredFrom(ledger, id, a, 5 * y, 0) + Entered(ledger, KeyOf(id, a, 5 * y));
    } else {
      QuartersEntered(ledger, id, a, n, y, quarters - 1);
      var q: nat := quarters - 1;
      assert Nth(Yearly, a.months, 5 * y + 1 + q) == QuarterPeriod(a.months, y, q);
    }
  }

  /** What lands in the ledger: once a yearly account's prefix reaches the end of a
      contract year, the year's rows come to $20 for each of its seat-months. */
  lemma YearInLedger(ledger: map<Key, Row>, id: nat, a: Account, n: nat, y: nat)
    requires SoundAccount(a) && a.plan == Yearly && Prefix(ledger, id, a, n) && 5 * y + 5 <= n
    ensures EnteredFrom(ledger, id, a, 5 * y, 5) == 2000 * SeatMonths(a.months, a.log, FirstPaid(y), 12 * y + 12)
  {
    hide Prefix, PeriodCharge;
    QuartersEntered(ledger, id, a, n, y, 4);
    YearIsSeatMonths(a.months, a.log, a.rows, y);
  }

  /** And a monthly account's months: each that the prefix holds has its row, for $25 for
      each of the most seats of the month. */
  lemma MonthInLedger(ledger: map<Key, Row>, id: nat, a: Account, n: nat, k: nat)
    requires SoundAccount(a) && a.plan == Monthly && Prefix(ledger, id, a, n) && 1 <= k <= n
    requires OneAtATime(a.log)
    ensures Key(id, MonthId(k)) in ledger
    ensures ledger[Key(id, MonthId(k))].amount == 2500 * MostIn(a.log, a.months(k), a.months(k + 1))
  {
    hide PeriodCharge, OneAtATime;
    assert PeriodOf(a, k - 1) == MonthPeriod(a.months, k);
    assert Booked(ledger, id, a, k - 1);
    MonthBillsTheMost(a.months, a.log, a.rows, k);
  }

  // ---------------------------------------------------------------- what was invoiced

  /** The row's own invoice was finalized and is not void. */
  predicate Stands(w: World, k: Key) {
    && k in w.ledger && w.ledger[k].invoice.Some? && w.ledger[k].invoice.value < |w.invoices|
    && w.invoices[w.ledger[k].invoice.value].WasFinalized() && w.invoices[w.ledger[k].invoice.value].Live()
  }

  /** What the row's invoice charges. */
  function Invoiced(w: World, k: Key): int {
    if Stands(w, k) then Subtotal(w.invoices[w.ledger[k].invoice.value].lines) else 0
  }

  function InvoicedFrom(w: World, id: nat, a: Account, i: nat, count: nat): int {
    if count == 0 then 0 else InvoicedFrom(w, id, a, i, count - 1) + Invoiced(w, KeyOf(id, a, i + count - 1))
  }

  ghost predicate AllDelivered(w: World, id: nat, a: Account, i: nat, count: nat) {
    forall j: nat :: i <= j < i + count ==> Delivered(w, KeyOf(id, a, j))
  }

  ghost predicate Delivered(w: World, k: Key) {
    k in w.ledger ==> (w.ledger[k].state == Finalized || w.ledger[k].state == Sent) && Stands(w, k)
  }

  lemma DeliveredInFull(w: World, k: Key)
    requires Inv(w) && Delivered(w, k)
    ensures Invoiced(w, k) == Entered(w.ledger, k)
  {
    hide Subtotal, OurLines;
    if k in w.ledger {
      assert Backed(w, k);
      assert Placed(w, w.ledger[k].invoice.value);
    }
  }

  lemma {:induction false} AllInFull(w: World, id: nat, a: Account, i: nat, count: nat)
    requires Inv(w) && AllDelivered(w, id, a, i, count)
    ensures InvoicedFrom(w, id, a, i, count) == EnteredFrom(w.ledger, id, a, i, count)
  {
    hide Inv, KeyOf, Delivered, Invoiced, Entered;
    if count > 0 {
      AllInFull(w, id, a, i, count - 1);
      assert Delivered(w, KeyOf(id, a, i + count - 1));
      DeliveredInFull(w, KeyOf(id, a, i + count - 1));
    }
  }

  /** And what was invoiced: when all of the year's rows are finalized or sent, and no
      invoice of theirs was voided, what the invoices charge comes to that same sum. */
  lemma YearInvoiced(w: World, id: nat, a: Account, n: nat, y: nat)
    requires Inv(w) && SoundAccount(a) && a.plan == Yearly && Prefix(w.ledger, id, a, n) && 5 * y + 5 <= n
    requires AllDelivered(w, id, a, 5 * y, 5)
    ensures InvoicedFrom(w, id, a, 5 * y, 5) == 2000 * SeatMonths(a.months, a.log, FirstPaid(y), 12 * y + 12)
  {
    hide Inv, Prefix, SoundAccount, AllDelivered, InvoicedFrom, EnteredFrom;
    YearInLedger(w.ledger, id, a, n, y);
    AllInFull(w, id, a, 5 * y, 5);
  }
}
