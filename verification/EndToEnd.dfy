/** The seat store and the invoice pass together: what every account is billed, from its
    first call on. */
module EndToEnd {
  import opened Basics
  import opened History
  import opened Billing
  import opened Charges
  import opened Months
  import Calendar
  import Seats
  import opened Stripe
  import opened Calls
  import opened Ledger
  import opened Passes

  /** The pass bills signed standard accounts. */
  predicate Bills(a: Seats.Account) { a.kind == Seats.Standard && a.contractStart.Some? }

  /** What it reads of one: its contract calendar, and its changes in some order. */
  function Billed(a: Seats.Account, rows: seq<SeatChange>): Account
    requires a.contractStart.Some? && Calendar.Dated(a.contractStart.value)
  {
    Account(a.plan, Calendar.MonthsOf(a.contractStart.value), a.changes, rows)
  }

  lemma BilledIsSound(a: Seats.Account, clock: int, rows: seq<SeatChange>)
    requires Seats.Sound(a, clock) && Bills(a) && Calendar.Dated(a.contractStart.value) && RowsOf(a.changes, rows)
    ensures SoundAccount(Billed(a, rows))
  {
  }

  /** An account's rows begin by its contract, and never set N to nothing. */
  lemma PositiveWhenBooked(ledger: map<Key, Row>, a: Seats.Account, clock: int, i: nat, rows: seq<SeatChange>, n: nat)
    requires Seats.Sound(a, clock) && Bills(a) && Calendar.Dated(a.contractStart.value)
    requires RowsOf(a.changes, rows) && Booked(ledger, i, Billed(a, rows), n)
    ensures var b := Billed(a, rows); var k := KeyOf(i, b, n);
            (!PeriodOf(b, n).id.QuarterId? ==> k in ledger) && (k in ledger ==> ledger[k].amount > 0)
  {
    hide Calendar.Dated, Calendar.MonthsOf, Calendar.AddContractMonths, Nth, Seats.Sound, Booked, KeyOf;
    var b, start := Billed(a, rows), a.contractStart.value;
    Calendar.MonthOf(start, 0);
    StartsLater(b.plan, b.months, n);
    RowsBegin(a, clock, rows);
    var j :| 0 <= j < |rows| && rows[j].at <= start;
    assert rows[j].at <= PeriodOf(b, n).start;
    BookedIsPositive(ledger, i, b, n);
  }

  lemma SoundRows(a: Account)
    requires SoundAccount(a)
    ensures RowsOf(a.log, a.rows)
  {
  }

  lemma RowsBegin(a: Seats.Account, clock: int, rows: seq<SeatChange>)
    requires Seats.Sound(a, clock) && Bills(a) && RowsOf(a.changes, rows)
    ensures forall c :: c in rows ==> c.to > 0
    ensures exists i :: 0 <= i < |rows| && rows[i].at <= a.contractStart.value
  {
    forall c | c in rows ensures c.to > 0 {
      assert c in multiset(rows) && c in multiset(a.changes);
    }
    assert a.changes[0] in multiset(a.changes) && a.changes[0] in rows;
    var j :| 0 <= j < |rows| && rows[j] == a.changes[0];
  }

  lemma StartsLater(plan: Plan, M: Contract, n: nat)
    ensures M(0) <= Nth(plan, M, n).start
  {
  }

  // --------------------------------------------------- what a call does to an account

  /** The account that a call is about. */
  function Target(op: Seats.Op): Option<nat> {
    match op
    case RecordSeats(secret, _) => if secret.Malformed? then None else Some(secret.account)
    case _ => Some(op.account)
  }

  /** The account goes on: its plan and its contract stay, it is signed once, at the time
      of the call, and its history stays or grows by one change that continues it. */
  ghost predicate GoesOn(a: Seats.Account, b: Seats.Account, now: int) {
    && b.plan == a.plan && b.kind == a.kind
    && (Bills(a) ==> b.contractStart == a.contractStart)
    && (!Bills(a) && Bills(b) ==> b.contractStart == Some(now) && b.changes == a.changes)
    && (a.kind == Seats.Standard && !Bills(a) ==> b.changes == a.changes)
    && (b.changes == a.changes
        || (b.changes == a.changes + [SeatChange(now, a.seats, b.seats)]
            && a.seats != b.seats && (a.plan == Yearly ==> a.seats < b.seats)))
  }

  /** Every account goes on, only the target moves, and a new one is not billed yet. */
  ghost predicate OnlyMoves(accounts: Seats.Accounts, after: Seats.Accounts, target: Option<nat>, now: int) {
    && (forall id :: id in accounts ==> id in after && GoesOn(accounts[id], after[id], now))
    && (forall id :: id in accounts && Some(id) != target ==> after[id] == accounts[id])
    && (forall id :: id in after && id !in accounts ==> Some(id) == target && !Bills(after[id]))
  }

  lemma ApplyGoesOn(accounts: Seats.Accounts, op: Seats.Op, clock: int, now: int)
    requires Seats.AllSound(accounts, clock) && clock <= now
    ensures OnlyMoves(accounts, Seats.Apply(accounts, op, now).0, Target(op), now)
  {
    hide Seats.ChangeIn, Seats.RecordIn, Seats.OfficeIn, Seats.Sound, GoesOn;
    forall id | id in accounts ensures GoesOn(accounts[id], accounts[id], now) { Stays(accounts[id], now); }
    forall id | id in accounts ensures Seats.Sound(accounts[id], now) { Seats.SoundLater(accounts[id], clock, now); }
    match op
    case Create(id, plan, seats) => OpenedDoesNotBill(plan, Seats.Standard, if seats >= 0 then seats else 0, None, now);
    case CreateNegotiated(id, plan, seats, start) =>
      OpenedDoesNotBill(plan, Seats.Negotiated, if seats >= 0 then seats else 0, Some(start), now);
    case Sign(id) => if id in accounts { SignGoesOn(accounts[id], now, clock); }
    case ChangeSeats(id, from, to) => if id in accounts && to >= 0 { ChangeGoesOn(accounts[id], from, to, now); }
    case RecordSeats(secret, call) =>
      if secret.Names? && secret.account in accounts && call.members >= 0 {
        RecordGoesOn(accounts[secret.account], call.office, call.members, call.add, now);
      }
    case RenameOffice(id, office, name) => if id in accounts { OfficeGoesOn(accounts[id], office, Seats.Renamed(name), now); }
    case RemoveOffice(id, office) => if id in accounts { OfficeGoesOn(accounts[id], office, Seats.Removed(now), now); }
    case RenewSecret(id) => if id in accounts { SecretGoesOn(accounts[id], now); }
  }

  lemma Stays(a: Seats.Account, now: int)
    ensures GoesOn(a, a, now)
  {
  }

  lemma OpenedDoesNotBill(plan: Plan, kind: Seats.Kind, seats: nat, start: Option<int>, now: int)
    requires kind == Seats.Standard ==> start == None
    ensures !Bills(Seats.Opened(plan, kind, seats, start, now))
  {
  }

  lemma SignGoesOn(a: Seats.Account, now: int, clock: int)
    requires Seats.Sound(a, clock)
    ensures a.kind == Seats.Standard && a.signedAt.None? ==>
              GoesOn(a, a.(signedAt := Some(now), contractStart := Some(now)), now)
  {
  }

  lemma SecretGoesOn(a: Seats.Account, now: int)
    ensures GoesOn(a, a.(generation := a.generation + 1), now)
  {
  }

  /** N of an account that is not signed does not move. */
  lemma ChangeGoesOn(a: Seats.Account, from: int, to: nat, now: int)
    requires Seats.Sound(a, now)
    ensures GoesOn(a, Seats.ChangeIn(a, from, to, now).0, now)
  {
    hide Seats.InUse;
  }

  lemma RecordGoesOn(a: Seats.Account, office: nat, members: nat, add: bool, now: int)
    requires Seats.Sound(a, now)
    ensures GoesOn(a, Seats.RecordIn(a, office, members, add, now).0, now)
  {
    hide Seats.OtherMembers, Seats.OtherOffices, Seats.Upsert, Seats.IsActive, Seats.Find;
  }

  lemma OfficeGoesOn(a: Seats.Account, office: nat, edit: Seats.Office -> Seats.Office, now: int)
    ensures GoesOn(a, Seats.OfficeIn(a, office, edit).0, now)
  {
    hide Seats.IsActive, Seats.Find;
  }

  lemma GrownIsNext(a: Seats.Account, b: Seats.Account, rows: seq<SeatChange>, clock: int, now: int)
    requires Seats.Sound(a, clock) && clock <= now && GoesOn(a, b, now) && b.changes != a.changes
    requires Bills(a) && Calendar.Dated(a.contractStart.value)
    ensures b.changes == a.changes + [SeatChange(now, a.seats, b.seats)]
    ensures NextFor(Billed(a, rows), SeatChange(now, a.seats, b.seats))
  {
  }

  /** The end of a contract year. */
  function YearEnd(a: Seats.Account, y: nat): int
    requires Bills(a) && Calendar.Dated(a.contractStart.value)
  {
    Calendar.MonthsOf(a.contractStart.value)(12 * y + 12)
  }

  /** $20 for each seat-month of a contract year, by the account's own history. */
  ghost function YearsCents(a: Seats.Account, y: nat): int
    requires Bills(a) && Calendar.Dated(a.contractStart.value)
  {
    2000 * SeatMonths(Calendar.MonthsOf(a.contractStart.value), a.changes, FirstPaid(y), 12 * y + 12)
  }

  // ------------------------------------------------------------ the store and the pass

  /** Slot by slot, the pass has the accounts that are to be billed, as the store has
      them. */
  ghost predicate InStep(accounts: Seats.Accounts, slots: map<nat, nat>, billed: seq<Account>) {
    && (forall id :: id in slots <==> id in accounts && Bills(accounts[id]))
    && (forall id :: id in slots ==> Follows(accounts[id], slots[id], billed))
    && (forall a, b :: a in slots && b in slots && slots[a] == slots[b] ==> a == b)
  }

  ghost predicate Follows(a: Seats.Account, i: nat, billed: seq<Account>)
    requires Bills(a)
  {
    i < |billed| && Calendar.Dated(a.contractStart.value) && billed[i] == Billed(a, billed[i].rows)
  }

  /** An account that the call leaves with its history, still in its place. */
  lemma StillFollows(a: Seats.Account, b: Seats.Account, now: int, i: nat, billed: seq<Account>, next: seq<Account>)
    requires Bills(a) && Follows(a, i, billed) && GoesOn(a, b, now) && b.changes == a.changes
    requires i < |next| && next[i] == billed[i]
    ensures Bills(b) && Follows(b, i, next)
  {
    hide Calendar.Dated, Calendar.MonthsOf;
  }

  /** The store after a call that neither signs its account nor changes N of a signed
      one. */
  lemma InStepStays(accounts: Seats.Accounts, after: Seats.Accounts, slots: map<nat, nat>, billed: seq<Account>, target: Option<nat>, now: int)
    requires InStep(accounts, slots, billed) && OnlyMoves(accounts, after, target, now)
    requires target.Some? && target.value in accounts ==>
               Bills(after[target.value]) ==>
                 Bills(accounts[target.value]) && after[target.value].changes == accounts[target.value].changes
    ensures InStep(after, slots, billed)
  {
    hide Follows, GoesOn;
    forall id | id in slots ensures Bills(after[id]) && Follows(after[id], slots[id], billed) {
      HasPlace(accounts[id], slots[id], billed);
      StaysBilled(accounts[id], after[id], now);
      StillFollows(accounts[id], after[id], now, slots[id], billed, billed);
    }
  }

  lemma StaysBilled(a: Seats.Account, b: Seats.Account, now: int)
    requires GoesOn(a, b, now) && Bills(a)
    ensures Bills(b) && b.contractStart == a.contractStart
  {
  }

  lemma InStepChanged(accounts: Seats.Accounts, after: Seats.Accounts, slots: map<nat, nat>, billed: seq<Account>, id: nat, now: int, at: nat)
    requires InStep(accounts, slots, billed) && OnlyMoves(accounts, after, Some(id), now)
    requires id in slots && after[id].changes != accounts[id].changes && at <= |billed[slots[id]].rows|
    ensures InStep(after, slots, billed[slots[id] := Changed(billed[slots[id]], SeatChange(now, accounts[id].seats, after[id].seats), at)])
  {
    hide Calendar.Dated, Calendar.MonthsOf;
    var next := billed[slots[id] := Changed(billed[slots[id]], SeatChange(now, accounts[id].seats, after[id].seats), at)];
    forall j | j in slots ensures Follows(after[j], slots[j], next) {
      assert GoesOn(accounts[j], after[j], now) && Follows(accounts[j], slots[j], billed);
    }
  }

  lemma InStepSigned(accounts: Seats.Accounts, after: Seats.Accounts, slots: map<nat, nat>, billed: seq<Account>, id: nat, now: int)
    requires InStep(accounts, slots, billed) && OnlyMoves(accounts, after, Some(id), now)
    requires id in accounts && !Bills(accounts[id]) && Bills(after[id]) && Calendar.Dated(now)
    ensures after[id].contractStart == Some(now)
    ensures InStep(after, slots[id := |billed|], billed + [Billed(after[id], after[id].changes)])
  {
    hide Calendar.Dated, Calendar.MonthsOf, Follows, GoesOn;
    SignedNow(accounts[id], after[id], now);
    var next := billed + [Billed(after[id], after[id].changes)];
    LastFollows(after[id], billed);
    forall j | j in slots ensures j != id && slots[j] < |billed| && Follows(after[j], slots[j], next) {
      HasPlace(accounts[j], slots[j], billed);
      StillFollows(accounts[j], after[j], now, slots[j], billed, next);
    }
  }

  lemma HasPlace(a: Seats.Account, i: nat, billed: seq<Account>)
    requires Bills(a) && Follows(a, i, billed)
    ensures i < |billed|
  {
  }

  lemma LastFollows(a: Seats.Account, billed: seq<Account>)
    requires Bills(a) && Calendar.Dated(a.contractStart.value)
    ensures Follows(a, |billed|, billed + [Billed(a, a.changes)])
  {
    hide Calendar.Dated, Calendar.MonthsOf;
  }

  lemma SignedNow(a: Seats.Account, b: Seats.Account, now: int)
    requires GoesOn(a, b, now) && !Bills(a) && Bills(b)
    ensures b.contractStart == Some(now)
  {
  }

  /** What an account's ended years come to in the ledger. */
  ghost predicate YearsAreIn(ledger: map<Key, Row>, a: Seats.Account, i: nat, billed: seq<Account>, now: int)
    requires Bills(a)
  {
    && Follows(a, i, billed)
    && forall y: nat :: YearEnd(a, y) + INVOICE_GRACE_MS <= now ==> EnteredFrom(ledger, i, billed[i], 5 * y, 5) == YearsCents(a, y)
  }

  class Service {
    const watch: Watch
    var accounts: Seats.Accounts
    /** The time of the last call, and where the pass has each account. */
    var clock: int
    var slots: map<nat, nat>

    ghost predicate Valid()
      reads this, watch, watch.prov
    {
      watch.Valid() && Seats.AllSound(accounts, clock) && InStep(accounts, slots, watch.accounts)
    }

    constructor (now: int)
      ensures Valid() && fresh(watch) && fresh(watch.prov) && accounts == map[] && watch.clock == clock == now
    {
      watch := new Watch(now);
      accounts, clock, slots := map[], now, map[];
    }

    /** A seat call: given its time, it commits less than the grace time later. The pass
        reads its change at position `at` of the account's rows. */
    method Call(op: Seats.Op, given: int, now: int, at: nat) returns (r: Seats.Outcome)
      requires Valid() && clock <= given <= now && watch.clock <= now && now - INVOICE_GRACE_MS < given
      requires Calendar.Dated(given)
      modifies this`accounts, this`clock, this`slots, watch`accounts, watch`covered, watch`clock
      ensures Valid() && clock == given && (accounts, r) == Seats.Apply(old(accounts), op, given)
    {
      hide Books, Legal, Inv, Seats.Apply, Seats.AllSound, InStep, OnlyMoves, NextFor, SoundAccount, Calendar.Dated, Changed;
      var (after, outcome) := Seats.Apply(accounts, op, given);
      ApplyGoesOn(accounts, op, clock, given);
      Seats.ApplyIsSound(accounts, op, clock, given);
      var target := Target(op);
      if target.Some? && target.value in accounts {
        var id := target.value;
        TargetMoves(accounts, after, slots, watch.accounts, id, clock, given);
        if Bills(accounts[id]) && |after[id].changes| > |accounts[id].changes| {
          var i := slots[id];
          var place := Min(at, |watch.accounts[i].rows|);
          InStepChanged(accounts, after, slots, watch.accounts, id, given, place);
          watch.ChangeSeats(i, SeatChange(given, accounts[id].seats, after[id].seats), place, now);
        } else if !Bills(accounts[id]) && Bills(after[id]) {
          InStepSigned(accounts, after, slots, watch.accounts, id, given);
          watch.SignUp(Billed(after[id], after[id].changes));
          slots := slots[id := |watch.accounts| - 1];
        } else {
          InStepStays(accounts, after, slots, watch.accounts, target, given);
        }
      } else {
        InStepStays(accounts, after, slots, watch.accounts, target, given);
      }
      accounts, clock, r := after, given, outcome;
    }

    /** At every point of every run: a year of a yearly account that the passes have covered
        is in the ledger for exactly $20 for each seat-month of the account's own history;
        and once delivered it is invoiced so. */
    lemma YearIsBilled(id: nat, y: nat)
      requires Valid() && id in slots && accounts[id].plan == Yearly && 5 * y + 5 <= watch.covered[slots[id]]
      ensures var a, i := watch.accounts[slots[id]], slots[id];
              var exact := YearsCents(accounts[id], y);
              && EnteredFrom(watch.prov.w.ledger, i, a, 5 * y, 5) == exact
              && (AllDelivered(watch.prov.w, i, a, 5 * y, 5) ==> InvoicedFrom(watch.prov.w, i, a, 5 * y, 5) == exact)
    {
      hide Legal, Inv, Seats.AllSound, Calendar.Dated, Calendar.MonthsOf, EnteredFrom, InvoicedFrom, AllDelivered, SeatMonths;
      assert Follows(accounts[id], slots[id], watch.accounts);
      watch.YearIsExact(slots[id], y);
    }

    /** And so is a month of a monthly account, for $25 for each of the most seats at any
        instant of it, when no millisecond holds two of its changes. */
    lemma MonthIsBilled(id: nat, k: nat)
      requires Valid() && id in slots && accounts[id].plan == Monthly && 1 <= k <= watch.covered[slots[id]]
      requires OneAtATime(accounts[id].changes)
      ensures var start, row := Calendar.MonthsOf(accounts[id].contractStart.value), Key(slots[id], MonthId(k));
              row in watch.prov.w.ledger
              && watch.prov.w.ledger[row].amount == 2500 * MostIn(accounts[id].changes, start(k), start(k + 1))
    {
      hide Legal, Inv, Seats.AllSound, Calendar.Dated, Calendar.MonthsOf, OneAtATime, Prefix, SoundAccount;
      assert Follows(accounts[id], slots[id], watch.accounts);
      var i := slots[id];
      assert AccountBooks(watch.prov.w.ledger, i, watch.accounts[i], watch.covered[i], watch.clock);
      MonthInLedger(watch.prov.w.ledger, i, watch.accounts[i], watch.covered[i], k);
    }

    /** The ledger's amount column demands more than nothing, and an account never asks it
        for less: so does every row that it has, and every month and year that the passes
        have covered has one. */
    lemma RowsArePositive(id: nat, n: nat)
      requires Valid() && id in slots && n < watch.covered[slots[id]]
      ensures var a, i := watch.accounts[slots[id]], slots[id];
              var k := KeyOf(i, a, n);
              && (!PeriodOf(a, n).id.QuarterId? ==> k in watch.prov.w.ledger)
              && (k in watch.prov.w.ledger ==> watch.prov.w.ledger[k].amount > 0)
              && (forall j :: j in watch.prov.w.ledger && j.account == i ==> watch.prov.w.ledger[j].amount > 0)
    {
      hide Legal, Inv, Calendar.Dated, Calendar.MonthsOf, Charge, PeriodOf, SoundAccount, Booked, Seats.Sound;
      var a, i := watch.accounts[slots[id]], slots[id];
      assert Follows(accounts[id], i, watch.accounts) && Seats.Sound(accounts[id], clock);
      assert AccountBooks(watch.prov.w.ledger, i, a, watch.covered[i], watch.clock);
      assert RowsOf(a.log, a.rows) by { SoundRows(a); }
      PositiveWhenBooked(watch.prov.w.ledger, accounts[id], clock, i, a.rows, n);
      forall j | j in watch.prov.w.ledger && j.account == i ensures watch.prov.w.ledger[j].amount > 0 {
        assert IsOneOf(j, i, a, watch.covered[i]);
        PositiveWhenBooked(watch.prov.w.ledger, accounts[id], clock, i, a.rows, Place(j.period));
      }
    }

    /** One pass. Left alone, it puts every ended year of every yearly account into the
        ledger, for exactly that. */
    method Pass(now: int, turns: seq<Turn>) returns (r: Step<()>)
      requires Valid() && watch.clock <= now
      modifies watch`clock, watch`covered, watch`summary, watch.prov
      ensures Valid() && watch.clock == now
      ensures turns == [] ==>
                r.Ok? && forall id :: id in slots && accounts[id].plan == Yearly ==>
                           YearsAreIn(watch.prov.w.ledger, accounts[id], slots[id], watch.accounts, now)
    {
      hide Books, Legal, Inv, Seats.AllSound, CaughtUp, Tallied, YearsAreIn;
      r := watch.Pass(now, turns);
      if turns == [] {
        forall id | id in slots && accounts[id].plan == Yearly
          ensures YearsAreIn(watch.prov.w.ledger, accounts[id], slots[id], watch.accounts, now)
        {
          CaughtUpYears(id, now);
        }
      }
    }

    lemma CaughtUpYears(id: nat, now: int)
      requires Valid() && id in slots && accounts[id].plan == Yearly && slots[id] < |watch.accounts|
      requires CaughtUp(watch.prov.w, slots[id], watch.accounts[slots[id]], watch.covered[slots[id]], now)
      ensures YearsAreIn(watch.prov.w.ledger, accounts[id], slots[id], watch.accounts, now)
    {
      hide Legal, Inv, Seats.AllSound, EnteredFrom, InvoicedFrom, AllDelivered, YearsCents, CountUntil, Calendar.Dated, Calendar.MonthsOf;
      var i := slots[id];
      assert Follows(accounts[id], i, watch.accounts);
      forall y: nat | YearEnd(accounts[id], y) + INVOICE_GRACE_MS <= now
        ensures EnteredFrom(watch.prov.w.ledger, i, watch.accounts[i], 5 * y, 5) == YearsCents(accounts[id], y)
      {
        YearIsDue(watch.accounts[i].months, y, now);
        YearIsBilled(id, y);
      }
    }

    /** What others do in between. */
    method Meanwhile(o: Outside)
      requires Valid()
      modifies watch.prov
      ensures Valid() && watch.prov.w == Other(old(watch.prov.w), o)
    {
      hide Books, Legal, Inv, Seats.AllSound, Other, InStep;
      watch.Meanwhile(o);
    }

    method PersonEdits(i: nat, cents: int)
      requires Valid()
      modifies watch.prov
      ensures Valid() && watch.prov.w == PersonAdds(old(watch.prov.w), i, cents)
    {
      hide Books, Legal, Inv, Seats.AllSound, InStep;
      watch.PersonEdits(i, cents);
    }
  }

  /** What a call makes of its account, for the pass. */
  lemma TargetMoves(accounts: Seats.Accounts, after: Seats.Accounts, slots: map<nat, nat>, billed: seq<Account>, id: nat, clock: int, now: int)
    requires Seats.AllSound(accounts, clock) && Seats.AllSound(after, now) && clock <= now
    requires InStep(accounts, slots, billed) && OnlyMoves(accounts, after, Some(id), now) && id in accounts
    ensures id in after
    ensures |after[id].changes| <= |accounts[id].changes| ==> after[id].changes == accounts[id].changes
    ensures Bills(accounts[id]) && |after[id].changes| > |accounts[id].changes| ==>
              && id in slots && slots[id] < |billed|
              && NextFor(billed[slots[id]], SeatChange(now, accounts[id].seats, after[id].seats))
    ensures Bills(accounts[id]) ==> Bills(after[id])
    ensures !Bills(accounts[id]) && Bills(after[id]) && Calendar.Dated(now) ==>
              after[id].contractStart == Some(now) && SoundAccount(Billed(after[id], after[id].changes))
    ensures !Bills(accounts[id]) ==> after[id].changes == accounts[id].changes || !Bills(after[id])
  {
    hide Calendar.Dated, Calendar.MonthsOf, Seats.Sound;
    assert GoesOn(accounts[id], after[id], now) && Seats.Sound(accounts[id], clock) && Seats.Sound(after[id], now);
    if Bills(accounts[id]) {
      assert Follows(accounts[id], slots[id], billed);
      if after[id].changes != accounts[id].changes {
        GrownIsNext(accounts[id], after[id], billed[slots[id]].rows, clock, now);
      }
    } else if Bills(after[id]) && Calendar.Dated(now) {
      BilledIsSound(after[id], now, after[id].changes);
    }
  }
}
