/** The pass over every account, the seat changes and sign-ups between passes, and
    what all of it keeps. */
module Passes {
  import opened Basics
  import opened History
  import opened Months
  import opened Billing
  import opened Charges
  import opened Stripe
  import opened Calls
  import opened Ledger
  import opened Invoices

  /** A failed step is tried again after this long. */
  const RETRY_MS := 900_000

  // --------------------------------------------------------- beside the own account

  /** The rows of other accounts stay with their amounts, and wholly when nobody else
      is at work. */
  ghost predicate Aside(v: World, w: World, id: nat, quiet: bool) {
    && (quiet ==> w.wakes == v.wakes)
    && (forall k: Key :: k.account != id ==> (k in w.ledger <==> k in v.ledger))
    && (forall k: Key :: k.account != id && k in v.ledger && k in w.ledger ==>
          w.ledger[k].amount == v.ledger[k].amount && (quiet ==> w.ledger[k] == v.ledger[k]))
  }

  lemma AsideTrans(u: World, v: World, w: World, id: nat, first: bool, second: bool)
    requires Aside(u, v, id, first) && Aside(v, w, id, second) && (first ==> second)
    ensures Aside(u, w, id, first)
  {
  }

  lemma AsideSelf(w: World, id: nat, quiet: bool)
    ensures Aside(w, w, id, quiet)
  {
  }

  lemma BesideIsAside(v: World, w: World, k: Key, quiet: bool)
    requires Beside(v, w, k, quiet)
    ensures Aside(v, w, k.account, quiet)
    ensures SameAccount(v.ledger, w.ledger, k.account)
  {
  }

  lemma AsideIsSame(v: World, w: World, id: nat, quiet: bool, other: nat)
    requires Aside(v, w, id, quiet) && other != id
    ensures SameAccount(v.ledger, w.ledger, other)
  {
  }

  /** One new row, claimed. */
  ghost predicate Adds(v: World, w: World, k: Key, amount: int, quiet: bool) {
    && (quiet ==> w.wakes == v.wakes)
    && k !in v.ledger && w.ledger.Keys == v.ledger.Keys + {k}
    && w.ledger[k] == Row(amount, Claimed, None)
    && (forall j :: j in v.ledger ==> w.ledger[j].amount == v.ledger[j].amount && (quiet || v.ledger[j].state != Held ==> w.ledger[j] == v.ledger[j]))
  }

  lemma AddsIsAside(v: World, w: World, k: Key, amount: int, quiet: bool)
    requires Adds(v, w, k, amount, quiet)
    ensures Aside(v, w, k.account, quiet)
    ensures SameAccount(v.ledger[k := Row(amount, Claimed, None)], w.ledger, k.account)
  {
  }

  /** The row did not change, unless others took it out of held. */
  ghost predicate RowIs(v: World, w: World, k: Key, quiet: bool) {
    k in v.ledger && (quiet || v.ledger[k].state != Held) ==> k in w.ledger && w.ledger[k] == v.ledger[k]
  }

  lemma RowStaysOrHeld(v: World, w: World, k: Key, quiet: bool)
    requires Around(v, w) && (quiet ==> w == v)
    ensures RowIs(v, w, k, quiet)
  {
  }

  lemma ClaimedOrNot(v: World, at: World, w: World, k: Key, amount: int, quiet: bool)
    requires k !in v.ledger && Around(v, at) && (quiet ==> at == v)
    requires w == at || w == Effect(at, ClaimRow(k, amount)).value.0
    ensures if k in w.ledger then Adds(v, w, k, amount, quiet) else w == at
    ensures k in Effect(at, ClaimRow(k, amount)).value.0.ledger
  {
  }

  /** The row of a period that the pass did not come to: it is there exactly if it was, and
      as it was, unless others took it out of held. */
  ghost predicate Untaken(v: World, w: World, k: Key) {
    (k in w.ledger <==> k in v.ledger) && (k in v.ledger && k in w.ledger && v.ledger[k].state != Held ==> w.ledger[k] == v.ledger[k])
  }

  ghost predicate OnlyRow(v: World, w: World, k: Key) { forall j: Key :: j != k ==> Untaken(v, w, j) }

  lemma OnlyRowTrans(u: World, v: World, w: World, k: Key)
    requires OnlyRow(u, v, k) && OnlyRow(v, w, k)
    ensures OnlyRow(u, w, k)
  {
    forall j: Key | j != k ensures Untaken(u, w, j) { assert Untaken(u, v, j) && Untaken(v, w, j); }
  }

  lemma BesideIsOnly(v: World, w: World, k: Key, quiet: bool)
    requires Beside(v, w, k, quiet)
    ensures OnlyRow(v, w, k)
  {
  }

  lemma AddsIsOnly(v: World, w: World, k: Key, amount: int, quiet: bool)
    requires Adds(v, w, k, amount, quiet)
    ensures OnlyRow(v, w, k)
  {
  }

  /** The periods from `i` on are not come to. */
  ghost predicate Later(v: World, w: World, id: nat, a: Account, i: nat) {
    forall j: nat :: i <= j ==> Untaken(v, w, KeyOf(id, a, j))
  }

  lemma LaterStays(u: World, v: World, w: World, id: nat, a: Account, i: nat)
    requires Later(u, v, id, a, i) && OnlyRow(v, w, KeyOf(id, a, i))
    ensures Later(u, w, id, a, i + 1)
  {
    hide KeyOf;
    PlaceOfPeriod(id, a, i);
    forall j: nat | i + 1 <= j ensures Untaken(u, w, KeyOf(id, a, j)) {
      PlaceOfPeriod(id, a, j);
      assert Untaken(u, v, KeyOf(id, a, j)) && Untaken(v, w, KeyOf(id, a, j));
    }
  }

  lemma AllLater(v: World, w: World, id: nat, a: Account)
    requires Around(v, w)
    ensures Later(v, w, id, a, 0)
  {
    hide KeyOf;
  }

  /** The pass stopped at period `i`, which waits to be tried again, and came to no later
      one. */
  ghost predicate StoppedAt(v: World, w: World, id: nat, a: Account, i: nat) {
    && Later(v, w, id, a, i + 1)
    && KeyOf(id, a, i) in w.ledger && w.ledger[KeyOf(id, a, i)].state in {Claimed, Finalized}
  }

  /** Nothing left to do for the period now. */
  predicate Finished(ledger: map<Key, Row>, k: Key) {
    k in ledger ==> ledger[k].state == Sent || ledger[k].state == Held || ledger[k].state == Manual
  }

  ghost predicate AllFinished(ledger: map<Key, Row>, id: nat, a: Account, n: nat) {
    forall i: nat :: i < n ==> Finished(ledger, KeyOf(id, a, i))
  }

  lemma KeepsFinished(v: World, w: World, id: nat, a: Account, i: nat, amount: int)
    requires AllFinished(v.ledger, id, a, i)
    requires Beside(v, w, KeyOf(id, a, i), true) || Adds(v, w, KeyOf(id, a, i), amount, true)
    ensures AllFinished(w.ledger, id, a, i)
  {
    hide KeyOf, Place;
    PlaceOfPeriod(id, a, i);
    forall j: nat | j < i ensures Finished(w.ledger, KeyOf(id, a, j)) {
      PlaceOfPeriod(id, a, j);
      assert Finished(v.ledger, KeyOf(id, a, j));
    }
  }

  lemma StillFinished(v: World, w: World, id: nat, other: nat, a: Account, n: nat)
    requires Aside(v, w, id, true) && other != id && AllFinished(v.ledger, other, a, n)
    ensures AllFinished(w.ledger, other, a, n)
  {
    hide PeriodOf;
    forall j: nat | j < n ensures Finished(w.ledger, KeyOf(other, a, j)) {
      assert Finished(v.ledger, KeyOf(other, a, j));
    }
  }

  /** What a claim of period `i` leaves: the same prefix, or one longer. */
  lemma AfterClaim(v: World, w: World, id: nat, a: Account, i: nat, n: nat, quiet: bool) returns (m: nat)
    requires Prefix(v.ledger, id, a, n) && i <= n
    requires var k, c := KeyOf(id, a, i), Charge(a, i);
             if k !in v.ledger && c.Some? && k in w.ledger then Adds(v, w, k, c.value, quiet) else Beside(v, w, k, quiet)
    ensures n <= m <= n + 1 && (m == n + 1 ==> i == n) && Prefix(w.ledger, id, a, m)
    ensures (Charge(a, i).Some? ==> KeyOf(id, a, i) in w.ledger) ==> m > i
    ensures Aside(v, w, id, quiet)
  {
    hide Nth, PeriodCharge, Prefix, SameAccount, Adds, Beside, Aside;
    var k, c := KeyOf(id, a, i), Charge(a, i);
    m := n;
    if k !in v.ledger && c.Some? && k in w.ledger {
      AddsIsAside(v, w, k, c.value, quiet);
      if i < n { PrefixBooks(v.ledger, id, a, n, i); }
      ClaimIsNext(v.ledger, v.ledger[k := Row(c.value, Claimed, None)], id, a, n);
      m := n + 1;
      PrefixStays(v.ledger[k := Row(c.value, Claimed, None)], w.ledger, id, a, m);
    } else {
      BesideIsAside(v, w, k, quiet);
      if i == n {
        NotClaimedYet(v.ledger, id, a, n);
        if c.None? {
          ClaimIsNext(v.ledger, v.ledger, id, a, n);
          m := n + 1;
        }
      }
      PrefixStays(v.ledger, w.ledger, id, a, m);
      assert k in w.ledger ==> k in v.ledger by { BesideKeys(v, w, k, quiet); }
    }
  }

  lemma BesideKeys(v: World, w: World, k: Key, quiet: bool)
    requires Beside(v, w, k, quiet)
    ensures w.ledger.Keys == v.ledger.Keys && |w.ledger| == |v.ledger|
  {
    assert |w.ledger| == |w.ledger.Keys| && |v.ledger| == |v.ledger.Keys|;
  }

  lemma AddsKeys(v: World, w: World, k: Key, amount: int, quiet: bool)
    requires Adds(v, w, k, amount, quiet)
    ensures |w.ledger| == |v.ledger| + 1
  {
    assert |w.ledger| == |w.ledger.Keys| && |v.ledger| == |v.ledger.Keys|;
  }

  lemma PrefixBooks(ledger: map<Key, Row>, id: nat, a: Account, n: nat, i: nat)
    requires Prefix(ledger, id, a, n) && i < n
    ensures KeyOf(id, a, i) in ledger <==> Charge(a, i).Some?
  {
    hide KeyOf, Charge;
    assert Booked(ledger, id, a, i);
  }

  // ---------------------------------------------------------------- the whole watch

  ghost predicate AccountBooks(ledger: map<Key, Row>, id: nat, a: Account, n: nat, clock: int) {
    && SoundAccount(a) && Prefix(ledger, id, a, n)
    && n <= CountUntil(a.plan, a.months, clock - INVOICE_GRACE_MS)
  }

  ghost predicate Books(ledger: map<Key, Row>, accounts: seq<Account>, covered: seq<nat>, clock: int) {
    && |covered| == |accounts|
    && (forall id :: 0 <= id < |accounts| ==> AccountBooks(ledger, id, accounts[id], covered[id], clock))
    && (forall k :: k in ledger ==> k.account < |accounts|)
  }

  lemma BooksLater(ledger: map<Key, Row>, accounts: seq<Account>, covered: seq<nat>, clock: int, now: int)
    requires Books(ledger, accounts, covered, clock) && clock <= now
    ensures Books(ledger, accounts, covered, now)
  {
    hide Prefix, SoundAccount, CountUntil;
    forall id | 0 <= id < |accounts| ensures AccountBooks(ledger, id, accounts[id], covered[id], now) {
      assert AccountBooks(ledger, id, accounts[id], covered[id], clock);
      CountsGrow(accounts[id].plan, accounts[id].months, clock - INVOICE_GRACE_MS, now - INVOICE_GRACE_MS);
    }
  }

  lemma BooksAside(v: World, w: World, accounts: seq<Account>, covered: seq<nat>, clock: int, id: nat, n: nat, quiet: bool)
    requires Books(v.ledger, accounts, covered, clock) && id < |accounts| && Aside(v, w, id, quiet)
    requires AccountBooks(w.ledger, id, accounts[id], n, clock)
    ensures Books(w.ledger, accounts, covered[id := n], clock)
  {
    hide Prefix, SoundAccount, CountUntil, SameAccount;
    forall b | 0 <= b < |accounts| ensures AccountBooks(w.ledger, b, accounts[b], covered[id := n][b], clock) {
      if b != id {
        assert AccountBooks(v.ledger, b, accounts[b], covered[b], clock);
        AsideIsSame(v, w, id, quiet, b);
        PrefixStays(v.ledger, w.ledger, b, accounts[b], covered[b]);
      }
    }
  }

  lemma BooksAfter(v: World, w: World, accounts: seq<Account>, covered: seq<nat>, clock: int, id: nat, n: nat, quiet: bool)
    requires Books(v.ledger, accounts, covered, clock) && id < |accounts| && Aside(v, w, id, quiet)
    requires Prefix(w.ledger, id, accounts[id], n)
    requires n <= CountUntil(accounts[id].plan, accounts[id].months, clock - INVOICE_GRACE_MS)
    ensures Books(w.ledger, accounts, covered[id := n], clock)
    ensures Aside(v, w.(wakes := v.wakes), id, quiet) && (quiet ==> w.wakes == v.wakes)
  {
    hide Prefix, SoundAccount, CountUntil, Aside;
    assert AccountBooks(v.ledger, id, accounts[id], covered[id], clock);
    BooksAside(v, w, accounts, covered, clock, id, n, quiet);
    AsideWakes(v, w, id, quiet);
  }

  /** Every due period claimed and finished, and the wake-up at the next one's due time. */
  ghost predicate CaughtUp(w: World, id: nat, a: Account, n: nat, now: int) {
    && n == CountUntil(a.plan, a.months, now - INVOICE_GRACE_MS)
    && AllFinished(w.ledger, id, a, n)
    && id in w.wakes && w.wakes[id] == Settled.NextPass(a.plan, a.months, now)
  }

  lemma NowCaughtUp(w: World, id: nat, a: Account, n: nat, now: int)
    requires n == CountUntil(a.plan, a.months, now - INVOICE_GRACE_MS) && AllFinished(w.ledger, id, a, n)
    requires id in w.wakes && w.wakes[id] == Settled.NextPass(a.plan, a.months, now)
    ensures CaughtUp(w, id, a, n, now)
  {
  }

  /** The turn of another account leaves it so. */
  lemma CaughtUpStays(v: World, w: World, id: nat, other: nat, a: Account, n: nat, now: int)
    requires Aside(v, w.(wakes := v.wakes), id, true) && other != id && CaughtUp(v, other, a, n, now)
    requires id in w.wakes && w.wakes == v.wakes[id := w.wakes[id]]
    ensures CaughtUp(w, other, a, n, now)
  {
    hide Aside, AllFinished, CountUntil;
    StillFinished(v, w.(wakes := v.wakes), id, other, a, n);
  }

  /** The change continues the account's history; a yearly one only rises. */
  ghost predicate NextFor(a: Account, c: SeatChange) {
    && c.from == CountBefore(a.log, |a.log|) && c.from != c.to
    && (forall i :: 0 <= i < |a.log| ==> a.log[i].at <= c.at)
    && (a.plan == Yearly ==> c.from < c.to)
  }

  lemma ChangedIsSound(a: Account, c: SeatChange, at: nat)
    requires SoundAccount(a) && NextFor(a, c) && at <= |a.rows|
    ensures SoundAccount(Changed(a, c, at))
  {
    hide Nth, UpTo;
    ChangedRows(a, c, at, c.at - 1);
    ChainGrows(a.log, c);
  }

  lemma SamePlan(a: Account, c: SeatChange, at: nat)
    requires at <= |a.rows|
    ensures Changed(a, c, at).plan == a.plan && Changed(a, c, at).months == a.months
  {
  }

  lemma NothingClaimed(ledger: map<Key, Row>, id: nat, a: Account)
    requires forall k :: k in ledger ==> k.account < id
    ensures Prefix(ledger, id, a, 0)
  {
    hide KeyOf, Place;
  }

  /** A year's five periods are due from the grace time after its end on. */
  lemma YearIsDue(M: Contract, y: nat, now: int)
    ensures 5 * y + 5 <= CountUntil(Yearly, M, now - INVOICE_GRACE_MS) <==> M(12 * y + 12) + INVOICE_GRACE_MS <= now
  {
    hide Nth, CountUntil;
    NthOfYear(M, y);
    assert Nth(Yearly, M, 5 * y + 1 + 3) == QuarterPeriod(M, y, 3);
    IssuedBy(Yearly, M, now - INVOICE_GRACE_MS, 5 * y + 4);
  }

  // -------------------------------------------------------------------- what it counts

  datatype Summary = Summary(claimed: nat, sent: nat, held: nat, failed: nat)

  function InState(ledger: map<Key, Row>, state: RowState): set<Key> {
    set k | k in ledger && ledger[k].state == state
  }

  /** From world `v` and count `s` to `w` and `t`: no more is counted than happened, and
      just that when nobody else is at work and every call is answered. */
  ghost predicate Tallied(v: World, s: Summary, w: World, t: Summary, quiet: bool) {
    && |v.ledger| + t.claimed <= |w.ledger| + s.claimed
    && |InState(v.ledger, Sent)| + t.sent <= |InState(w.ledger, Sent)| + s.sent
    && (quiet ==>
          && |v.ledger| + t.claimed == |w.ledger| + s.claimed
          && |InState(v.ledger, Sent)| + t.sent == |InState(w.ledger, Sent)| + s.sent
          && |InState(v.ledger, Held)| + t.held == |InState(w.ledger, Held)| + s.held
          && t.failed == s.failed)
  }

  lemma TalliedOn(u: World, r: Summary, v: World, s: Summary, w: World, t: Summary, quiet: bool, alone: bool)
    requires Tallied(u, r, v, s, quiet) && Tallied(v, s, w, t, alone) && (quiet ==> alone)
    ensures Tallied(u, r, w, t, quiet)
  {
    hide InState;
  }

  lemma NoFewer<T>(a: set<T>, b: set<T>)
    requires a <= b
    ensures |a| <= |b|
  {
    assert b == a + (b - a);
  }

  /** Others, while the pass only reads, or writes no row. */
  lemma OthersTallied(v: World, w: World, s: Summary, quiet: bool)
    requires Around(v, w) && (quiet ==> w.ledger == v.ledger)
    ensures Tallied(v, s, w, s, quiet)
  {
    assert |w.ledger| == |w.ledger.Keys| && |v.ledger| == |v.ledger.Keys|;
    NoFewer(InState(v.ledger, Sent), InState(w.ledger, Sent));
  }

  lemma AddedTallied(v: World, w: World, k: Key, amount: int, s: Summary, t: Summary, quiet: bool)
    requires Adds(v, w, k, amount, quiet)
    requires t == s || t == s.(claimed := s.claimed + 1)
    requires quiet ==> t != s
    ensures Tallied(v, s, w, t, quiet)
  {
    AddsKeys(v, w, k, amount, quiet);
    hide InState;
    AddedInState(v.ledger, w.ledger, k, Sent, quiet);
    AddedInState(v.ledger, w.ledger, k, Held, quiet);
  }

  lemma AddedInState(ledger: map<Key, Row>, ledger': map<Key, Row>, k: Key, state: RowState, quiet: bool)
    requires state == Sent || state == Held
    requires k !in ledger && ledger'.Keys == ledger.Keys + {k} && ledger'[k].state == Claimed
    requires forall j :: j in ledger && (quiet || ledger[j].state != Held) ==> ledger'[j] == ledger[j]
    ensures state == Sent ==> |InState(ledger, Sent)| <= |InState(ledger', Sent)|
    ensures quiet ==> |InState(ledger, state)| == |InState(ledger', state)|
  {
    if state == Sent { NoFewer(InState(ledger, Sent), InState(ledger', Sent)); }
    if quiet { assert InState(ledger', state) == InState(ledger, state); }
  }

  lemma NotAddedTallied(v: World, w: World, k: Key, s: Summary, quiet: bool)
    requires Beside(v, w, k, quiet) && RowIs(v, w, k, quiet)
    ensures Tallied(v, s, w, s, quiet)
  {
    BesideKeys(v, w, k, quiet);
    NoFewer(InState(v.ledger, Sent), InState(w.ledger, Sent));
    if quiet {
      assert w.ledger == v.ledger;
    }
  }

  lemma WorkTallied(v: World, w: World, k: Key, o: Step<Outcome>, s: Summary, t: Summary, quiet: bool)
    requires Beside(v, w, k, quiet) && k in v.ledger && (v.ledger[k].state == Claimed || v.ledger[k].state == Finalized)
    requires o.Ok? ==> End(w, k, o.value)
    requires t == Counts(s, o)
    requires quiet ==> o.Ok? && o.value != WasFailed
    ensures Tallied(v, s, w, t, quiet)
  {
    hide InState, Beside;
    BesideKeys(v, w, k, quiet);
    RowMoved(v, w, k, quiet);
  }

  lemma RowMoved(v: World, w: World, k: Key, quiet: bool)
    requires Beside(v, w, k, quiet) && k in v.ledger && (v.ledger[k].state == Claimed || v.ledger[k].state == Finalized)
    ensures k in w.ledger
    ensures |InState(v.ledger, Sent)| + (if w.ledger[k].state == Sent then 1 else 0) <= |InState(w.ledger, Sent)|
    ensures quiet ==> |InState(v.ledger, Sent)| + (if w.ledger[k].state == Sent then 1 else 0) == |InState(w.ledger, Sent)|
    ensures quiet ==> |InState(v.ledger, Held)| + (if w.ledger[k].state == Held then 1 else 0) == |InState(w.ledger, Held)|
  {
    hide InState;
    if quiet {
      assert w.ledger == v.ledger[k := w.ledger[k]];
      OneMoved(v.ledger, k, w.ledger[k], Sent);
      OneMoved(v.ledger, k, w.ledger[k], Held);
    } else {
      SentGrows(v.ledger, w.ledger, k);
    }
  }

  lemma SentGrows(ledger: map<Key, Row>, ledger': map<Key, Row>, k: Key)
    requires k in ledger && ledger[k].state != Sent && k in ledger'
    requires forall j :: j in ledger && ledger[j].state == Sent ==> j in ledger' && ledger'[j].state == Sent
    ensures |InState(ledger, Sent)| + (if ledger'[k].state == Sent then 1 else 0) <= |InState(ledger', Sent)|
  {
    NoFewer(InState(ledger, Sent) + if ledger'[k].state == Sent then {k} else {}, InState(ledger', Sent));
  }

  lemma OneMoved(ledger: map<Key, Row>, k: Key, row: Row, state: RowState)
    requires k in ledger && ledger[k].state != state
    ensures |InState(ledger[k := row], state)| == |InState(ledger, state)| + if row.state == state then 1 else 0
  {
    assert InState(ledger[k := row], state) == InState(ledger, state) + if row.state == state then {k} else {};
  }

  function Counts(s: Summary, o: Step<Outcome>): Summary {
    match o
    case Ok(WasSent) => s.(sent := s.sent + 1)
    case Ok(WasHeld) => s.(held := s.held + 1)
    case Ok(WasFailed) => s.(failed := s.failed + 1)
    case _ => s
  }

  /** The last call sets the account's wake-up. */
  predicate Woken(calls: seq<Call>, first: nat, id: nat, ok: bool) {
    && first < |calls| && calls[|calls| - 1].op.WakeAt? && calls[|calls| - 1].op.account == id
    && (ok ==> calls[|calls| - 1].reply.Ok?)
  }

  /** One of the calls has set it. */
  ghost predicate WakeSet(calls: seq<Call>, first: nat, id: nat) {
    exists n: nat :: first <= n < |calls| && calls[n].op.WakeAt? && calls[n].op.account == id && calls[n].reply.Ok?
  }

  lemma WakesStay(calls: seq<Call>, more: seq<Call>, begun: nat, first: nat, id: nat)
    requires calls <= more && begun <= first == |calls|
    requires Woken(more, first, id, true) && forall j: nat :: j < id ==> WakeSet(calls, begun, j)
    ensures forall j: nat :: j <= id ==> WakeSet(more, begun, j)
  {
    forall j: nat | j <= id ensures WakeSet(more, begun, j) {
      if j == id { assert more[|more| - 1].reply.Ok?; } else {
        assert WakeSet(calls, begun, j);
        var n: nat :| begun <= n < |calls| && calls[n].op.WakeAt? && calls[n].op.account == j && calls[n].reply.Ok?;
        assert more[n] == calls[n];
      }
    }
  }

  class Watch {
    const prov: Provisioner
    var accounts: seq<Account>
    var clock: int
    var summary: Summary
    ghost var covered: seq<nat>

    ghost predicate Valid()
      reads this, prov
    {
      prov.Sane() && Books(prov.w.ledger, accounts, covered, clock)
    }

    constructor (now: int)
      ensures Valid() && fresh(prov) && accounts == [] && clock == now
    {
      prov := new Provisioner();
      accounts, clock, summary, covered := [], now, Summary(0, 0, 0, 0), [];
    }

    /** The ledger row of a due period: the one there is, or a new one, or none when the
        period bills nothing. */
    method Claim(id: nat, a: Account, i: nat) returns (r: Step<Option<Row>>, claimed: bool)
      requires prov.Sane()
      modifies prov
      ensures prov.Sane() && old(prov.trail) <= prov.trail && old(prov.calls) <= prov.calls
      ensures var k, c, quiet := KeyOf(id, a, i), Charge(a, i), old(prov.script) == [];
              && (r.Ok? ==> (r.value.Some? <==> k in prov.w.ledger) && (r.value.Some? ==> r.value.value == prov.w.ledger[k]))
              && (if k !in old(prov.w).ledger && c.Some? && k in prov.w.ledger
                  then Adds(old(prov.w), prov.w, k, c.value, quiet)
                  else Beside(old(prov.w), prov.w, k, quiet) && RowIs(old(prov.w), prov.w, k, quiet)
                       && (r.Ok? && c.Some? ==> k in prov.w.ledger))
              && (r.Ok? ==> (claimed <==> k !in old(prov.w).ledger && c.Some?))
      ensures !r.Failed? && (claimed ==> r.Ok?)
      ensures old(prov.script) == [] ==> prov.script == [] && r.Ok?
    {
      hide Inv, LegalStep, Legal, Effect, Around, Allowed, PeriodCharge, Nth;
      claimed := false;
      ghost var before := prov.w;
      var k := KeyOf(id, a, i);
      LookFits(prov.w);
      var look, at := prov.Save(Look);
      LookReads(at, prov.w);
      AroundBeside(before, prov.w, k, old(prov.script) == []);
      RowStaysOrHeld(before, prov.w, k, old(prov.script) == []);
      if look.Crashed? { return Crashed, false; }
      if look.Threw? { return Threw, false; }
      if k in prov.w.ledger { return Ok(Some(prov.w.ledger[k])), false; }
      var charge := ChargeOf(a.plan, a.months, a.rows, PeriodOf(a, i));
      if charge.None? { return Ok(None), false; }
      ClaimFits(prov.w, k, charge.value);
      AroundSelf(before);
      ghost var prior := prov.w;
      var made, reached := prov.Save(ClaimRow(k, charge.value));
      AroundTrans(before, prior, reached);
      AroundBeside(before, reached, k, old(prov.script) == []);
      RowStaysOrHeld(before, reached, k, old(prov.script) == []);
      ClaimedOrNot(before, reached, prov.w, k, charge.value, old(prov.script) == []);
      if made.Crashed? { return Crashed, false; }
      if made.Threw? { return Threw, false; }
      r, claimed := Ok(Some(prov.w.ledger[k])), true;
    }

    /** One due period: claimed, and taken on as far as it goes. */
    method OnePeriod(id: nat, a: Account, i: nat, ghost n: nat) returns (r: Step<bool>, ghost m: nat)
      requires prov.Sane() && Prefix(prov.w.ledger, id, a, n) && i <= n
      modifies prov, this`summary
      ensures prov.Sane() && old(prov.trail) <= prov.trail && old(prov.calls) <= prov.calls
      ensures n <= m <= n + 1 && (m == n + 1 ==> i == n) && Prefix(prov.w.ledger, id, a, m)
      ensures Aside(old(prov.w), prov.w, id, old(prov.script) == []) && OnlyRow(old(prov.w), prov.w, KeyOf(id, a, i))
      ensures r == Ok(true) ==> KeyOf(id, a, i) in prov.w.ledger && prov.w.ledger[KeyOf(id, a, i)].state in {Claimed, Finalized}
      ensures !r.Failed? && (r.Ok? ==> m > i)
      ensures summary.failed == old(summary.failed) + if r == Ok(true) then 1 else 0
      ensures r.Ok? ==> summary.claimed + |old(prov.w).ledger| == old(summary.claimed) + |prov.w.ledger|
      ensures Tallied(old(prov.w), old(summary), prov.w, summary, old(prov.script) == [])
      ensures old(prov.script) == [] ==> prov.script == [] && r == Ok(false)
      ensures old(prov.script) == [] && r.Ok? && AllFinished(old(prov.w).ledger, id, a, i) ==>
                AllFinished(prov.w.ledger, id, a, i + 1)
    {
      hide Inv, LegalStep, Legal, Prefix, KeyOf, Charge, Beside, Aside, AllFinished, SameAccount, Finished, Tallied, OnlyRow;
      ghost var before, first, quiet := prov.w, summary, prov.script == [];
      var got;
      got, m := ClaimNext(id, a, i, n);
      OneMore(prov.w.ledger, id, a, i);
      match got
      case Threw => return Threw, m;
      case Crashed => return Crashed, m;
      case Ok(claim) =>
        IsFinished(prov.w.ledger, KeyOf(id, a, i));
        if claim.None? { return Ok(false), m; }
        var row := claim.value;
        if row.state != Claimed && row.state != Finalized { return Ok(false), m; }
        ghost var prior, counted, alone := prov.w, summary, prov.script == [];
        r := Work(id, a, i, row, m);
        AsideTrans(before, prior, prov.w, id, quiet, alone);
        TalliedOn(before, first, prior, counted, prov.w, summary, quiet, alone);
        OnlyRowTrans(before, prior, prov.w, KeyOf(id, a, i));
    }

    /** The claim, counted, and the prefix it leaves. */
    method ClaimNext(id: nat, a: Account, i: nat, ghost n: nat) returns (r: Step<Option<Row>>, ghost m: nat)
      requires prov.Sane() && Prefix(prov.w.ledger, id, a, n) && i <= n
      modifies prov, this`summary
      ensures prov.Sane() && old(prov.trail) <= prov.trail && old(prov.calls) <= prov.calls
      ensures n <= m <= n + 1 && (m == n + 1 ==> i == n) && Prefix(prov.w.ledger, id, a, m)
      ensures Aside(old(prov.w), prov.w, id, old(prov.script) == []) && OnlyRow(old(prov.w), prov.w, KeyOf(id, a, i))
      ensures !r.Failed? && (r.Ok? ==> m > i)
      ensures r.Ok? ==> (r.value.Some? <==> KeyOf(id, a, i) in prov.w.ledger)
      ensures r.Ok? && r.value.Some? ==> r.value.value == prov.w.ledger[KeyOf(id, a, i)]
      ensures summary.failed == old(summary.failed)
      ensures r.Ok? ==> summary.claimed + |old(prov.w).ledger| == old(summary.claimed) + |prov.w.ledger|
      ensures Tallied(old(prov.w), old(summary), prov.w, summary, old(prov.script) == [])
      ensures old(prov.script) == [] ==>
                prov.script == [] && r.Ok? && (AllFinished(old(prov.w).ledger, id, a, i) ==> AllFinished(prov.w.ledger, id, a, i))
    {
      hide Inv, LegalStep, Legal, Prefix, KeyOf, Charge, Adds, Beside, Aside, AllFinished, SameAccount, Tallied, RowIs, OnlyRow;
      ghost var before, first, quiet, k, c := prov.w, summary, prov.script == [], KeyOf(id, a, i), Charge(a, i);
      var claimed;
      r, claimed := Claim(id, a, i);
      m := AfterClaim(before, prov.w, id, a, i, n, quiet);
      ghost var added := k !in before.ledger && c.Some? && k in prov.w.ledger;
      if added {
        AddsKeys(before, prov.w, k, c.value, quiet);
        AddsIsOnly(before, prov.w, k, c.value, quiet);
      } else {
        BesideKeys(before, prov.w, k, quiet);
        BesideIsOnly(before, prov.w, k, quiet);
      }
      if quiet && AllFinished(before.ledger, id, a, i) {
        KeepsFinished(before, prov.w, id, a, i, if c.Some? then c.value else 0);
      }
      if claimed { summary := summary.(claimed := summary.claimed + 1); }
      if added { AddedTallied(before, prov.w, k, c.value, first, summary, quiet); } else { NotAddedTallied(before, prov.w, k, summary, quiet); }
    }

    method Work(id: nat, a: Account, i: nat, row: Row, ghost m: nat) returns (r: Step<bool>)
      requires prov.Sane() && Prefix(prov.w.ledger, id, a, m)
      requires KeyOf(id, a, i) in prov.w.ledger && prov.w.ledger[KeyOf(id, a, i)] == row
      requires row.state == Claimed || row.state == Finalized
      modifies prov, this`summary
      ensures prov.Sane() && old(prov.trail) <= prov.trail && old(prov.calls) <= prov.calls
      ensures Prefix(prov.w.ledger, id, a, m)
      ensures Aside(old(prov.w), prov.w, id, old(prov.script) == []) && OnlyRow(old(prov.w), prov.w, KeyOf(id, a, i))
      ensures r == Ok(true) ==> KeyOf(id, a, i) in prov.w.ledger && prov.w.ledger[KeyOf(id, a, i)].state in {Claimed, Finalized}
      ensures !r.Failed?
      ensures summary.failed == old(summary.failed) + if r == Ok(true) then 1 else 0
      ensures summary.claimed == old(summary.claimed) && |prov.w.ledger| == |old(prov.w).ledger|
      ensures Tallied(old(prov.w), old(summary), prov.w, summary, old(prov.script) == [])
      ensures old(prov.script) == [] ==> prov.script == [] && r == Ok(false)
      ensures old(prov.script) == [] && r.Ok? && AllFinished(old(prov.w).ledger, id, a, i) ==>
                AllFinished(prov.w.ledger, id, a, i + 1)
    {
      hide Inv, LegalStep, Legal, Prefix, KeyOf, Charge, Beside, Aside, AllFinished, SameAccount, Untouched, Tallied, OnlyRow;
      ghost var prior, first, quiet := prov.w, summary, prov.script == [];
      var k := KeyOf(id, a, i);
      var outcome := prov.Advance(k, row);
      KeysAccount(id, a, i);
      BesideIsAside(prior, prov.w, k, quiet);
      BesideIsOnly(prior, prov.w, k, quiet);
      BesideKeys(prior, prov.w, k, quiet);
      PrefixStays(prior.ledger, prov.w.ledger, id, a, m);
      if quiet && AllFinished(prior.ledger, id, a, i) { KeepsFinished(prior, prov.w, id, a, i, 0); }
      OneMore(prov.w.ledger, id, a, i);
      r := Counted(outcome);
      WorkTallied(prior, prov.w, k, outcome, first, summary, quiet);
    }

    method Counted(outcome: Step<Outcome>) returns (r: Step<bool>)
      requires !outcome.Failed?
      modifies this`summary
      ensures summary == Counts(old(summary), outcome) && !r.Failed?
      ensures summary.failed == old(summary.failed) + if r == Ok(true) then 1 else 0
      ensures r == match outcome case Ok(o) => Ok(o == WasFailed) case Threw => Threw
                                 case Crashed => Crashed
    {
      match outcome
      case Ok(o) =>
        match o {
          case WasSent => summary := summary.(sent := summary.sent + 1);
          case WasHeld => summary := summary.(held := summary.held + 1);
          case WasFailed => summary := summary.(failed := summary.failed + 1);
        }
        r := Ok(o == WasFailed);
      case Threw => r := Threw;
      case Crashed => r := Crashed;
    }

    /** The due periods, oldest first; one that failed keeps the later ones waiting. */
    method WorkOff(id: nat, a: Account, periods: seq<Period>, ghost n: nat) returns (r: Step<bool>, ghost m: nat)
      requires prov.Sane() && Prefix(prov.w.ledger, id, a, n) && n <= |periods|
      requires forall i :: 0 <= i < |periods| ==> periods[i] == PeriodOf(a, i)
      modifies prov, this`summary
      ensures prov.Sane() && old(prov.trail) <= prov.trail && old(prov.calls) <= prov.calls
      ensures n <= m <= |periods| && Prefix(prov.w.ledger, id, a, m)
      ensures Aside(old(prov.w), prov.w, id, old(prov.script) == [])
      ensures !r.Failed? && (r == Ok(false) ==> m == |periods|)
      ensures r == Ok(true) ==> exists i: nat :: i < |periods| && StoppedAt(old(prov.w), prov.w, id, a, i)
      ensures summary.failed == old(summary.failed) + if r == Ok(true) then 1 else 0
      ensures r.Ok? ==> summary.claimed + |old(prov.w).ledger| == old(summary.claimed) + |prov.w.ledger|
      ensures Tallied(old(prov.w), old(summary), prov.w, summary, old(prov.script) == [])
      ensures old(prov.script) == [] ==>
                && prov.script == [] && r == Ok(false)
                && (r.Ok? ==> AllFinished(prov.w.ledger, id, a, |periods|))
    {
      hide Inv, LegalStep, Legal, Prefix, KeyOf, Charge, Aside, PeriodOf, Tallied, Around, Later, OnlyRow;
      ghost var before, first, quiet := prov.w, summary, prov.script == [];
      m := n;
      AsideSelf(before, id, quiet);
      AroundSelf(before);
      if |periods| > 0 {
        LookFits(prov.w);
        var read, at := prov.Save(Look);
        LookReads(at, prov.w);
        ReadIsAside(before, prov.w, id, a, n, quiet);
        AllLater(before, prov.w, id, a);
        OthersTallied(before, prov.w, first, quiet);
        if read.Crashed? { return Crashed, m; }
        if read.Threw? { return Threw, m; }
      } else {
        AllLater(before, prov.w, id, a);
        OthersTallied(before, prov.w, first, quiet);
      }
      for i := 0 to |periods|
        invariant prov.Sane() && old(prov.trail) <= prov.trail && old(prov.calls) <= prov.calls
        invariant n <= m <= |periods| && i <= m && Prefix(prov.w.ledger, id, a, m)
        invariant Aside(before, prov.w, id, quiet) && Later(before, prov.w, id, a, i)
        invariant summary.failed == old(summary.failed) && Tallied(before, first, prov.w, summary, quiet)
        invariant summary.claimed + |before.ledger| == old(summary.claimed) + |prov.w.ledger|
        invariant quiet ==> prov.script == [] && AllFinished(prov.w.ledger, id, a, i)
      {
        ghost var prior, counted, alone := prov.w, summary, prov.script == [];
        r, m := OnePeriod(id, a, i, m);
        AsideTrans(before, prior, prov.w, id, quiet, alone);
        TalliedOn(before, first, prior, counted, prov.w, summary, quiet, alone);
        LaterStays(before, prior, prov.w, id, a, i);
        if r != Ok(false) {
          assert r == Ok(true) ==> StoppedAt(before, prov.w, id, a, i);
          return;
        }
      }
      r := Ok(false);
    }

    /** One account: its due periods, and when to wake for it next. An exception in them
        is one more failure; only the last write's ends the pass. */
    method AccountPass(id: nat) returns (r: Step<bool>)
      requires Valid() && id < |accounts|
      modifies this`covered, this`summary, prov
      ensures Valid() && old(prov.trail) <= prov.trail && old(prov.calls) <= prov.calls && covered == old(covered)[id := covered[id]]
      ensures Aside(old(prov.w), prov.w.(wakes := old(prov.w).wakes), id, old(prov.script) == [])
      ensures !r.Failed? && Tallied(old(prov.w), old(summary), prov.w, summary, old(prov.script) == [])
      ensures r.Ok? || r.Threw? ==> Woken(prov.calls, |old(prov.calls)|, id, r.Ok?)
      ensures r.Ok? ==> summary.failed == old(summary.failed) + if r.value then 1 else 0
      ensures r.Ok? ==>
                var a := accounts[id];
                && id in prov.w.wakes
                && prov.w.wakes[id] == (if r.value then clock + RETRY_MS else Settled.NextPass(a.plan, a.months, clock))
                && (!r.value ==> covered[id] == CountUntil(a.plan, a.months, clock - INVOICE_GRACE_MS))
      ensures old(prov.script) == [] ==>
                var a := accounts[id];
                && prov.script == [] && r == Ok(false)
                && (r.Ok? ==> AllFinished(prov.w.ledger, id, a, covered[id]) && prov.w.wakes == old(prov.w).wakes[id := prov.w.wakes[id]])
    {
      hide Inv, LegalStep, Legal, Prefix, Aside, SoundAccount, CountUntil, Nth, AllFinished, Index, Around, Effect, Allowed, Tallied;
      var a := accounts[id];
      assert AccountBooks(prov.w.ledger, id, a, covered[id], clock);
      var periods := PeriodsUntil(a.plan, a.months, clock - INVOICE_GRACE_MS);
      ghost var before, first, quiet := prov.w, summary, prov.script == [];
      ghost var m;
      r, m := WorkOff(id, a, periods, covered[id]);
      BooksAfter(before, prov.w, accounts, covered, clock, id, m, quiet);
      covered := covered[id := m];
      if r.Crashed? { return; }
      if r.Threw? {
        OneFailed(before, first, prov.w, summary);
        summary := summary.(failed := summary.failed + 1);
      }
      var retry := r.Threw? || r.value;
      var next := NextWake(a, retry);
      ghost var prior, alone := prov.w, prov.script == [];
      r := SetWake(id, next, retry);
      AsideLater(before, prior, prov.w, id, quiet, alone);
      TalliedOn(before, first, prior, summary, prov.w, summary, quiet, alone);
    }

    method NextWake(a: Account, retry: bool) returns (next: int)
      ensures next == if retry then clock + RETRY_MS else Settled.NextPass(a.plan, a.months, clock)
    {
      hide Nth, CountUntil;
      next := clock + RETRY_MS;
      if !retry {
        var since := clock - INVOICE_GRACE_MS;
        var period, amount := Settled.NextInvoice(a.plan, a.months, [], since, a.months(Index(a.months, since) + 3));
        next := period.issuedAt + INVOICE_GRACE_MS;
      }
    }

    method SetWake(id: nat, next: int, retry: bool) returns (r: Step<bool>)
      requires Valid() && id < |accounts|
      modifies prov
      ensures Valid() && old(prov.trail) <= prov.trail && old(prov.calls) <= prov.calls 
      ensures |prov.calls| == |old(prov.calls)| + 1 && prov.calls[|old(prov.calls)|].op == WakeAt(id, next)
      ensures r.Ok? ==> prov.calls[|old(prov.calls)|].reply.Ok?
      ensures Aside(old(prov.w), prov.w.(wakes := old(prov.w).wakes), id, old(prov.script) == [])
      ensures !r.Failed? && Tallied(old(prov.w), summary, prov.w, summary, old(prov.script) == [])
      ensures r.Ok? ==> r.value == retry && id in prov.w.wakes && prov.w.wakes[id] == next
      ensures old(prov.script) == [] ==>
                prov.script == [] && r.Ok? && prov.w == old(prov.w).(wakes := old(prov.w).wakes[id := next])
    {
      hide Inv, LegalStep, Legal, Books, Aside, Effect, Allowed, Around, Tallied;
      ghost var prior, alone := prov.w, prov.script == [];
      WakeFits(prov.w, id, next);
      var saved, at := prov.Save(WakeAt(id, next));
      WakeIs(at, prov.w, id, next);
      WakeIsAside(prior, at, prov.w, id, alone);
      BooksRead(prior, at, accounts, covered, clock);
      OthersTallied(prior, at, summary, alone);
      SameTally(prior, at, prov.w, summary, alone);
      r := if saved.Ok? then Ok(retry) else if saved.Crashed? then Crashed else Threw;
    }

    /** One pass over every account. Left alone, it finishes every due period of every
        account, and wakes next when the first further one is due. */
    method Pass(now: int, turns: seq<Turn>) returns (r: Step<()>)
      requires Valid() && clock <= now
      modifies this`clock, this`covered, this`summary, prov
      ensures Valid() && clock == now && old(prov.trail) <= prov.trail && old(prov.calls) <= prov.calls
      ensures !r.Failed? && Tallied(old(prov.w), Summary(0, 0, 0, 0), prov.w, summary, turns == [])
      ensures r.Ok? ==> forall id: nat :: id < |accounts| ==> WakeSet(prov.calls, |old(prov.calls)|, id)
      ensures r.Threw? ==> prov.calls != [] && prov.calls[|prov.calls| - 1].op.WakeAt?
      ensures turns == [] ==> r.Ok?
      ensures turns == [] && r.Ok? ==>
                forall id :: 0 <= id < |accounts| ==> CaughtUp(prov.w, id, accounts[id], covered[id], now)
    {
      hide Inv, LegalStep, Legal, Aside, AccountBooks, Charge, PeriodOf, Tallied, Around, CaughtUp, WakeSet;
      ghost var first := prov.w;
      BooksLater(prov.w.ledger, accounts, covered, clock, now);
      clock, summary, prov.script := now, Summary(0, 0, 0, 0), turns;
      AroundSelf(first);
      OthersTallied(first, prov.w, summary, turns == []);
      ghost var begun := |prov.calls|;
      for id := 0 to |accounts|
        invariant forall j: nat :: j < id ==> WakeSet(prov.calls, begun, j)
        invariant Valid() && clock == now && old(prov.trail) <= prov.trail && old(prov.calls) <= prov.calls
        invariant turns == [] ==> prov.script == []
        invariant Tallied(first, Summary(0, 0, 0, 0), prov.w, summary, turns == [])
        invariant turns == [] ==> forall j :: 0 <= j < id ==> CaughtUp(prov.w, j, accounts[j], covered[j], now)
      {
        ghost var prior, before, counted, alone, tried := prov.w, covered, summary, prov.script == [], prov.calls;
        var done := AccountPass(id);
        TalliedOn(first, Summary(0, 0, 0, 0), prior, counted, prov.w, summary, turns == [], alone);
        if done.Threw? { return Threw; }
        if done.Crashed? { return Crashed; }
        WakesStay(tried, prov.calls, begun, |tried|, id);
        if turns == [] {
          NowCaughtUp(prov.w, id, accounts[id], covered[id], now);
          forall j | 0 <= j < id ensures CaughtUp(prov.w, j, accounts[j], covered[j], now) {
            CaughtUpStays(prior, prov.w, id, j, accounts[j], covered[j], now);
          }
        }
      }
      r := Ok(());
    }

    /** A seat change commits, less than the grace time after the time it is given. */
    method ChangeSeats(id: nat, c: SeatChange, at: nat, now: int)
      requires Valid() && id < |accounts| && at <= |accounts[id].rows|
      requires clock <= now && now - INVOICE_GRACE_MS < c.at <= now
      requires NextFor(accounts[id], c)
      modifies this`accounts, this`clock
      ensures Valid() && clock == now && accounts == old(accounts)[id := Changed(old(accounts)[id], c, at)]
    {
      hide Prefix, CountUntil, SoundAccount, Changed, Charge, PeriodOf, RowsOf, NextFor;
      BooksLater(prov.w.ledger, accounts, covered, clock, now);
      var a := accounts[id];
      assert AccountBooks(prov.w.ledger, id, a, covered[id], now);
      LaterChangeKeepsPrefix(prov.w.ledger, id, a, covered[id], c, at, now - INVOICE_GRACE_MS);
      ChangedIsSound(a, c, at);
      SamePlan(a, c, at);
      accounts, clock := accounts[id := Changed(a, c, at)], now;
      forall b | 0 <= b < |accounts| ensures AccountBooks(prov.w.ledger, b, accounts[b], covered[b], clock) {
        if b != id { assert AccountBooks(prov.w.ledger, b, old(accounts)[b], covered[b], now); }
      }
    }

    /** An account is signed. */
    method SignUp(a: Account)
      requires Valid() && SoundAccount(a)
      modifies this`accounts, this`covered
      ensures Valid() && accounts == old(accounts) + [a] && covered == old(covered) + [0]
    {
      hide SoundAccount, CountUntil, Charge;
      NothingClaimed(prov.w.ledger, |accounts|, a);
      accounts, covered := accounts + [a], covered + [0];
      forall b | 0 <= b < |accounts| ensures AccountBooks(prov.w.ledger, b, accounts[b], covered[b], clock) {
        if b < |accounts| - 1 { assert AccountBooks(prov.w.ledger, b, old(accounts)[b], old(covered)[b], clock); }
      }
    }

    /** Others, between passes; a person may edit a draft's lines then too. */
    method Meanwhile(o: Outside)
      requires Valid()
      modifies prov
      ensures Valid() && prov.w == Other(old(prov.w), o) && prov.trail == old(prov.trail) + [prov.w]
    {
      hide Inv, LegalStep, OneLive, Legal, Other, Around, Books;
      prov.SaneWorld();
      OtherKeeps(prov.w, o);
      if OneLive(prov.w) { OtherKeepsOne(prov.w, o); }
      BooksRead(prov.w, Other(prov.w, o), accounts, covered, clock);
      prov.Write(Other(prov.w, o));
    }

    method PersonEdits(i: nat, cents: int)
      requires Valid()
      modifies prov
      ensures Valid() && prov.w == PersonAdds(old(prov.w), i, cents) && prov.trail == old(prov.trail) + [prov.w]
    {
      hide Inv, LegalStep, OneLive, Legal, Books;
      prov.SaneWorld();
      PersonAddsKeeps(prov.w, i, cents);
      if OneLive(prov.w) { NoneRevived(prov.w, PersonAdds(prov.w, i, cents)); }
      prov.Write(PersonAdds(prov.w, i, cents));
    }

    /** At every point of every run: a yearly account's year, once its last quarter has
        been passed over, is in the ledger for $20 a seat-month; and once its rows are
        finalized or sent, so much was invoiced. */
    lemma YearIsExact(id: nat, y: nat)
      requires Valid() && id < |accounts| && accounts[id].plan == Yearly && 5 * y + 5 <= covered[id]
      ensures var a := accounts[id];
              var exact := 2000 * SeatMonths(a.months, a.log, FirstPaid(y), 12 * y + 12);
              && EnteredFrom(prov.w.ledger, id, a, 5 * y, 5) == exact
              && (AllDelivered(prov.w, id, a, 5 * y, 5) ==> InvoicedFrom(prov.w, id, a, 5 * y, 5) == exact)
    {
      hide Inv, Legal, LegalStep, Prefix, SoundAccount, AllDelivered, InvoicedFrom, EnteredFrom;
      var a := accounts[id];
      assert AccountBooks(prov.w.ledger, id, a, covered[id], clock);
      YearInLedger(prov.w.ledger, id, a, covered[id], y);
      prov.SaneWorld();
      if AllDelivered(prov.w, id, a, 5 * y, 5) { YearInvoiced(prov.w, id, a, covered[id], y); }
    }
  }

  lemma OneFailed(v: World, s: Summary, w: World, t: Summary)
    requires Tallied(v, s, w, t, false)
    ensures Tallied(v, s, w, t.(failed := t.failed + 1), false)
  {
  }

  lemma SameTally(v: World, at: World, w: World, s: Summary, quiet: bool)
    requires Tallied(v, s, at, s, quiet) && w.ledger == at.ledger
    ensures Tallied(v, s, w, s, quiet)
  {
  }

  lemma IsFinished(ledger: map<Key, Row>, k: Key)
    ensures k !in ledger || (ledger[k].state != Claimed && ledger[k].state != Finalized) ==> Finished(ledger, k)
  {
  }

  lemma OneMore(ledger: map<Key, Row>, id: nat, a: Account, i: nat)
    ensures AllFinished(ledger, id, a, i) && Finished(ledger, KeyOf(id, a, i)) ==> AllFinished(ledger, id, a, i + 1)
  {
  }

  lemma ReadIsAside(v: World, w: World, id: nat, a: Account, n: nat, quiet: bool)
    requires Around(v, w) && (quiet ==> w == v) && Prefix(v.ledger, id, a, n)
    ensures Aside(v, w, id, quiet) && Prefix(w.ledger, id, a, n) && |w.ledger| == |v.ledger|
  {
    hide Prefix;
    PrefixStays(v.ledger, w.ledger, id, a, n);
    assert |w.ledger| == |w.ledger.Keys| && |v.ledger| == |v.ledger.Keys|;
  }

  lemma AsideWakes(v: World, w: World, id: nat, quiet: bool)
    requires Aside(v, w, id, quiet)
    ensures Aside(v, w.(wakes := v.wakes), id, quiet)
    ensures quiet ==> w.wakes == v.wakes
  {
  }

  lemma WakeFits(w: World, id: nat, at: int)
    ensures Allowed(w, WakeAt(id, at))
  {
  }

  lemma WakeIs(at: World, w: World, id: nat, next: int)
    requires w == at || (Effect(at, WakeAt(id, next)).Some? && w == Effect(at, WakeAt(id, next)).value.0)
    ensures w == at.(wakes := w.wakes)
    ensures Effect(at, WakeAt(id, next)).Some?
    ensures w == Effect(at, WakeAt(id, next)).value.0 ==> w.wakes == at.wakes[id := next]
  {
  }

  lemma WakeIsAside(v: World, at: World, w: World, id: nat, alone: bool)
    requires Around(v, at) && (alone ==> at == v) && w == at.(wakes := w.wakes)
    ensures Aside(v, w.(wakes := v.wakes), id, alone)
  {
  }

  lemma AsideLater(u: World, v: World, w: World, id: nat, quiet: bool, alone: bool)
    requires Aside(u, v, id, quiet) && Aside(v, w.(wakes := v.wakes), id, alone) && (quiet ==> alone)
    ensures Aside(u, w.(wakes := u.wakes), id, quiet)
  {
  }

  lemma BooksRead(v: World, w: World, accounts: seq<Account>, covered: seq<nat>, clock: int)
    requires Books(v.ledger, accounts, covered, clock) && Around(v, w)
    ensures Books(w.ledger, accounts, covered, clock)
  {
    hide Prefix, SoundAccount, CountUntil;
    forall id | 0 <= id < |accounts| ensures AccountBooks(w.ledger, id, accounts[id], covered[id], clock) {
      assert AccountBooks(v.ledger, id, accounts[id], covered[id], clock);
      PrefixStays(v.ledger, w.ledger, id, accounts[id], covered[id]);
    }
  }

  lemma ClaimFits(w: World, k: Key, amount: int)
    ensures Allowed(w, ClaimRow(k, amount))
  {
  }
}
