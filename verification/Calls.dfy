/** The calls of the invoice pass, each one atomic write, and how a call can end. */
module Calls {
  import opened Basics
  import opened Stripe

  /** How a call ended: with its answer, refused or to be tried again, an exception
      out of the database, or the end of the process. */
  datatype Step<T> = Ok(value: T) | Failed(refused: bool) | Threw | Crashed

  /** Applied or not, answered or not; refused for good; and a crash on either side. */
  datatype Answer = Answered | Lost | Dropped | Refused | CrashBefore | CrashAfter

  /** What others do before a call, and how the call goes. */
  datatype Turn = Turn(before: seq<Outside>, answer: Answer)

  datatype Op =
    | Look
    | NewCustomer(account: nat)
    | KeepCustomer(account: nat, customer: nat)
    | NewInvoice(key: Key, customer: nat)
    | KeepInvoice(key: Key, i: nat)
    | NewItem(key: Key, i: nat, amount: int)
    | FinalizeIt(key: Key, i: nat)
    | SendIt(i: nat)
    | ClaimRow(key: Key, amount: int)
    | MoveRow(key: Key, state: RowState)
    | WakeAt(account: nat, at: int)

  /** A call that was tried, and what came of it. */
  datatype Call = Call(op: Op, reply: Step<nat>)

  /** A call names rows and invoices that are there. */
  predicate Fits(w: World, op: Op) {
    match op
    case KeepInvoice(k, i) => k in w.ledger
    case NewItem(k, i, amount) => i < |w.invoices|
    case FinalizeIt(k, i) => i < |w.invoices|
    case MoveRow(k, state) => k in w.ledger
    case _ => true
  }

  /** What keeps the invariant, of each call. */
  ghost predicate Allowed(w: World, op: Op) {
    && Fits(w, op)
    && match op
    case NewInvoice(k, customer) =>
      && k in w.ledger && w.ledger[k].invoice == None
      && k.account in w.customers && customer == w.customers[k.account]
    case KeepInvoice(k, i) => k in w.ledger && i < |w.invoices| && w.invoices[i].key == Some(k)
    case NewItem(k, i, amount) =>
      && IsStored(w, k, i) && amount == w.ledger[k].amount
      && (w.invoices[i].status == Draft ==> OurLines(w.invoices[i].lines) == 0)
    case FinalizeIt(k, i) =>
      && IsStored(w, k, i) && (w.invoices[i].status == Draft ==> Subtotal(w.invoices[i].lines) == w.ledger[k].amount)
    case MoveRow(k, state) =>
      && k in w.ledger && w.ledger[k].state != Held && Moves(w.ledger[k].state, state)
      && (state == Finalized || state == Sent ==>
            w.ledger[k].invoice.Some? && w.ledger[k].invoice.value < |w.invoices|
            && w.invoices[w.ledger[k].invoice.value].WasFinalized())
      && (state == Sent ==>
            w.ledger[k].invoice.value in w.emailed || w.invoices[w.ledger[k].invoice.value].status == Paid)
    case SendIt(i) => i < |w.invoices| && w.invoices[i].WasFinalized()
    case _ => true
  }

  /** The world after the call, and the id it answers; None when Stripe refuses. */
  function Effect(w: World, op: Op): Option<(World, nat)>
    requires Fits(w, op)
  {
    match op
    case Look => Some((w, 0))
    case NewCustomer(account) => Some(MakeCustomer(w, account))
    case KeepCustomer(account, customer) => Some((SetCustomer(w, account, customer), 0))
    case NewInvoice(k, customer) => Some(MakeInvoice(w, k, customer))
    case KeepInvoice(k, i) => Some((SetInvoice(w, k, i), 0))
    case NewItem(k, i, amount) =>
      var added := AddItem(w, k, i, amount);
      if added.Some? then Some((added.value, 0)) else None
    case FinalizeIt(k, i) =>
      var done := Finalize(w, k, i);
      if done.Some? then Some((done.value, 0)) else None
    case SendIt(i) => Some((Email(w, i), 0))
    case ClaimRow(k, amount) => Some((InsertRow(w, k, amount), 0))
    case MoveRow(k, state) => Some((SetState(w, k, state), 0))
    case WakeAt(account, at) => Some((w.(wakes := w.wakes[account := at]), 0))
  }

  /** The script's next turn; once it is used up, nobody interferes. */
  function NextTurn(script: seq<Turn>): Turn { if script == [] then Turn([], Answered) else script[0] }

  function Rest(script: seq<Turn>): seq<Turn> { if script == [] then [] else script[1..] }

  /** What a call that reaches world `at` leaves, and what it says. */
  function Left(at: World, op: Op, answer: Answer): World
    requires Fits(at, op)
  {
    if answer in {Dropped, Refused, CrashBefore} || Effect(at, op).None? then at else Effect(at, op).value.0
  }

  function Reply(at: World, op: Op, answer: Answer): Step<nat>
    requires Fits(at, op)
  {
    match answer
    case Answered => if Effect(at, op).Some? then Ok(Effect(at, op).value.1) else Failed(true)
    case Refused => Failed(true)
    case Lost => Failed(false)
    case Dropped => Failed(false)
    case CrashBefore => Crashed
    case CrashAfter => Crashed
  }

  /** Others do not stand in a call's way. */
  lemma AllowedStays(v: World, w: World, op: Op)
    requires Around(v, w) && Allowed(v, op)
    ensures Allowed(w, op)
  {
    hide Subtotal, OurLines;
  }

  lemma EffectKeeps(w: World, op: Op)
    requires Inv(w) && Allowed(w, op)
    ensures Effect(w, op).Some? ==> Inv(Effect(w, op).value.0) && LegalStep(w, Effect(w, op).value.0)
  {
    hide Subtotal, OurLines, Placed, Backed, Kept, MakeCustomer, SetCustomer, MakeInvoice, SetInvoice,
         AddItem, Finalize, InsertRow, SetState, Email, LegalStep;
    match op
    case Look => SameIsLegal(w);
    case NewCustomer(account) => MakeCustomerKeeps(w, account);
    case KeepCustomer(account, customer) => SetCustomerKeeps(w, account, customer);
    case NewInvoice(k, customer) => MakeInvoiceKeeps(w, k, customer);
    case KeepInvoice(k, i) => SetInvoiceKeeps(w, k, i);
    case NewItem(k, i, amount) => AddItemKeeps(w, k, i, amount);
    case FinalizeIt(k, i) => FinalizeKeeps(w, k, i);
    case SendIt(i) => EmailKeeps(w, i);
    case ClaimRow(k, amount) => InsertRowKeeps(w, k, amount);
    case MoveRow(k, state) => SetStateKeeps(w, k, state);
    case WakeAt(account, at) => WakesKeep(w, w.wakes[account := at]);
  }

  lemma SameIsLegal(w: World)
    ensures LegalStep(w, w)
  {
  }

  // ------------------------------------------------------------ a period's one invoice

  /** A write changes no invoice but its lines, its status or its email, and makes no
      dead one live, unless it is a create. */
  lemma OnlyACreateAdds(w: World, op: Op)
    requires Fits(w, op) && !op.NewInvoice? && Effect(w, op).Some? && OneLive(w)
    ensures OneLive(Effect(w, op).value.0)
  {
    hide OneLive, Subtotal, OurLines;
    NoneRevived(w, Effect(w, op).value.0);
  }

  /** The list showed none of the period's live invoices: they are all off its page. */
  ghost predicate Unlisted(w: World, k: Key) {
    forall i :: 0 <= i < |w.invoices| && w.invoices[i].key == Some(k) && w.invoices[i].Live() ==> IsOffThePage(w, i)
  }

  /** Which create it was: of `k`, after a list read at point `m` of the run that did
      not show draft `i`. */
  datatype Cause = Cause(m: nat, k: Key, customer: nat, i: nat)

  /** The step from the run's last world to `v` is a create of a period whose first
      draft is live, was off the page when the list was read, and whose key is gone. */
  ghost predicate IsSecond(trail: seq<World>, v: World, c: Cause) {
    && c.m < |trail|
    && (var was, now := trail[c.m], trail[|trail| - 1];
        && InvoiceKey(c.k) !in now.keys && v == MakeInvoice(now, c.k, c.customer).0
        && c.i < |was.invoices| && was.invoices[c.i].key == Some(c.k) && IsOffThePage(was, c.i)
        && c.i < |now.invoices| && now.invoices[c.i].Live())
  }

  ghost predicate Misled(trail: seq<World>, v: World) { exists c :: IsSecond(trail, v, c) }

  /** A create after such a list leaves one live invoice for each period, or it is such
      a second one. */
  lemma CreateIsOneOrSecond(trail: seq<World>, m: nat, k: Key, customer: nat)
    requires m < |trail| && Unlisted(trail[m], k) && Around(trail[m], trail[|trail| - 1])
    requires OneLive(trail[|trail| - 1])
    ensures var v := MakeInvoice(trail[|trail| - 1], k, customer).0;
            OneLive(v) || Misled(trail, v)
  {
    hide Subtotal, OurLines, Newer, IsOffThePage;
    var was, now := trail[m], trail[|trail| - 1];
    var v := MakeInvoice(now, k, customer).0;
    if InvoiceKey(k) !in now.keys {
      if i :| 0 <= i < |now.invoices| && now.invoices[i].key == Some(k) && now.invoices[i].Live() {
        assert i < |was.invoices| && was.invoices[i].Live();
        assert IsSecond(trail, v, Cause(m, k, customer, i));
      }
    }
  }

  // ------------------------------------------------------------------- a run's worlds

  /** A step that a run may take: a legal one, and of a period that had one live
      invoice it leaves one, unless it is a create that the list misled. */
  ghost predicate Goes(trail: seq<World>, v: World)
    requires trail != []
  {
    var w := trail[|trail| - 1];
    && LegalStep(w, v)
    && (OneLive(w) ==> OneLive(v) || Misled(trail, v))
  }

  /** Every world of a run keeps the invariant, one such step after another. */
  ghost predicate Legal(trail: seq<World>) {
    trail == [] ||
    (var n := |trail| - 1;
     && Inv(trail[n]) && Legal(trail[..n]) && (n > 0 ==> Goes(trail[..n], trail[n])))
  }

  lemma LegalGrows(trail: seq<World>, w: World)
    requires trail != [] && Legal(trail) && Inv(w) && Goes(trail, w)
    ensures Legal(trail + [w])
  {
    hide Inv, Goes;
    assert (trail + [w])[..|trail|] == trail;
  }

  lemma {:induction false} LegalAt(trail: seq<World>, i: nat)
    requires Legal(trail) && i < |trail|
    ensures Inv(trail[i]) && (i > 0 ==> Goes(trail[..i], trail[i]) && LegalStep(trail[i - 1], trail[i]))
  {
    hide Inv, LegalStep, OneLive, Misled;
    if i < |trail| - 1 {
      LegalAt(trail[..|trail| - 1], i);
      assert trail[..|trail| - 1][..i] == trail[..i];
    }
  }

  /** Where a row can be after any number of moves. */
  predicate Reaches(a: RowState, b: RowState) {
    a == b || (a != Sent && a != Manual)
  }

  /** Over any stretch of any run: a claimed row never goes away, its amount never
      changes, nor its invoice once it has one; sent and manual are final; and a held
      row can only have become claimed or manual first. */
  lemma {:induction false} RowsOnlyMove(trail: seq<World>, i: nat, j: nat, k: Key)
    requires Legal(trail) && i <= j < |trail| && k in trail[i].ledger
    ensures k in trail[j].ledger
    ensures trail[j].ledger[k].amount == trail[i].ledger[k].amount
    ensures trail[i].ledger[k].invoice.Some? ==> trail[j].ledger[k].invoice == trail[i].ledger[k].invoice
    ensures Reaches(trail[i].ledger[k].state, trail[j].ledger[k].state)
    ensures i + 1 == j && trail[i].ledger[k].state == Held ==> trail[j].ledger[k].state in {Held, Claimed, Manual}
    decreases j
  {
    hide Inv, Goes;
    if i < j {
      RowsOnlyMove(trail, i, j - 1, k);
      LegalAt(trail, j);
    }
  }

  /** At every point of every run: a period has one invoice that was ever finalized, the
      one its row stores; it has the claimed amount, and no other one has the item. */
  lemma NeverTwoInvoices(trail: seq<World>, n: nat, k: Key, i: nat)
    requires Legal(trail) && n < |trail| && i < |trail[n].invoices| && trail[n].invoices[i].key == Some(k)
    ensures k in trail[n].ledger && OurLines(trail[n].invoices[i].lines) <= 1
    ensures trail[n].invoices[i].WasFinalized() ==>
              trail[n].ledger[k].invoice == Some(i) && Subtotal(trail[n].invoices[i].lines) == trail[n].ledger[k].amount
    ensures OurLines(trail[n].invoices[i].lines) > 0 ==> trail[n].ledger[k].invoice == Some(i)
    ensures forall j :: 0 <= j < |trail[n].invoices| && trail[n].invoices[j].key == Some(k) && j != i && trail[n].invoices[i].WasFinalized() ==>
              !trail[n].invoices[j].WasFinalized() && OurLines(trail[n].invoices[j].lines) == 0
  {
    hide Subtotal, OurLines, Goes, LegalStep, Legal;
    LegalAt(trail, n);
    assert Placed(trail[n], i);
    forall j | 0 <= j < |trail[n].invoices| && trail[n].invoices[j].key == Some(k) && j != i && trail[n].invoices[i].WasFinalized()
      ensures !trail[n].invoices[j].WasFinalized() && OurLines(trail[n].invoices[j].lines) == 0
    {
      assert Placed(trail[n], j);
    }
  }

  /** The run's next step after point `m` was the first to give a period a second one. */
  ghost predicate SecondAt(trail: seq<World>, m: nat) {
    m + 1 < |trail| && OneLive(trail[m]) && Misled(trail[..m + 1], trail[m + 1])
  }

  /** A run that starts with one live invoice for each period has so at its end, or some
      step of it was a create whose key had expired and whose first draft the list, with
      a full page of newer ones, did not show. */
  lemma {:induction false} OneLiveOrSecond(trail: seq<World>, n: nat)
    requires Legal(trail) && n < |trail| && OneLive(trail[0])
    ensures OneLive(trail[n]) || exists m: nat :: m < n && SecondAt(trail, m)
  {
    hide Inv, LegalStep, OneLive, Misled;
    if n > 0 {
      OneLiveOrSecond(trail, n - 1);
      LegalAt(trail, n);
      if OneLive(trail[n - 1]) && !OneLive(trail[n]) {
        assert trail[..n][n - 1] == trail[n - 1];
        assert SecondAt(trail, n - 1);
      }
    }
  }

  /** And a row that says sent has its finalized invoice, which Stripe emailed unless it
      was paid first. */
  lemma SentMeansSent(trail: seq<World>, n: nat, k: Key)
    requires Legal(trail) && n < |trail| && k in trail[n].ledger && trail[n].ledger[k].state == Sent
    ensures var w, invoice := trail[n], trail[n].ledger[k].invoice;
            && invoice.Some? && invoice.value < |w.invoices| && w.invoices[invoice.value].key == Some(k)
            && w.invoices[invoice.value].WasFinalized() && Subtotal(w.invoices[invoice.value].lines) == w.ledger[k].amount
            && (invoice.value in w.emailed || w.invoices[invoice.value].status == Paid)
  {
    LegalAt(trail, n);
    assert Backed(trail[n], k);
    assert Placed(trail[n], trail[n].ledger[k].invoice.value);
  }

  // ------------------------------------------------------------------ what a read says

  /** What the pass reads of an invoice. */
  datatype View = View(id: nat, status: Status, subtotal: int, lineCount: nat)

  function ViewOf(w: World, i: nat): View
    requires i < |w.invoices|
  {
    View(i, w.invoices[i].status, Subtotal(w.invoices[i].lines), |w.invoices[i].lines|)
  }

  /** A draft's view is still right: nobody edits its lines during a pass. */
  ghost predicate Current(w: World, v: View) {
    && v.id < |w.invoices|
    && (v.status != Draft ==> w.invoices[v.id].WasFinalized())
    && (v.status == Paid ==> w.invoices[v.id].status == Paid)
    && (w.invoices[v.id].status == Draft ==>
          v.subtotal == Subtotal(w.invoices[v.id].lines) && v.lineCount == |w.invoices[v.id].lines|)
  }

  /** A create answers, and answers again under its key, with an empty draft. */
  ghost predicate AsMade(w: World, v: View) {
    && v.id < |w.invoices|
    && v.status == Draft && v.subtotal == 0 && v.lineCount == 0
    && (w.invoices[v.id].status == Draft ==> OurLines(w.invoices[v.id].lines) == 0)
  }

  lemma ViewStays(v: World, w: World, view: View)
    requires Around(v, w)
    ensures Current(v, view) ==> Current(w, view)
    ensures AsMade(v, view) ==> AsMade(w, view)
  {
    hide Subtotal, OurLines;
  }

  lemma ViewIsFresh(w: World, i: nat)
    requires i < |w.invoices| && w.invoices[i].status != Deleted
    ensures Current(w, ViewOf(w, i))
  {
  }

  /** What a create answers is a draft of the period without its item. */
  lemma NewInvoiceIs(w: World, k: Key, customer: nat)
    requires Inv(w) && Allowed(w, NewInvoice(k, customer))
    ensures var (w', i) := MakeInvoice(w, k, customer);
            && i < |w'.invoices| && w'.invoices[i].key == Some(k)
            && AsMade(w', View(i, Draft, 0, 0))
            && (InvoiceKey(k) !in w.keys ==> w'.invoices[i] == Invoice(Some(k), customer, Draft, []))
  {
    KeyIsKept(w, InvoiceKey(k));
    var i := MakeInvoice(w, k, customer).1;
    if InvoiceKey(k) in w.keys { assert Placed(w, i); }
  }

  // ------------------------------------------------------------------ the other rows

  /** No row is added or changes its amount, and none beside `k` changes, nor a wake-up
      time, unless others were at work: they can take a row out of held. */
  ghost predicate Beside(v: World, w: World, k: Key, quiet: bool) {
    && (quiet ==> w.wakes == v.wakes)
    && w.ledger.Keys == v.ledger.Keys
    && (forall j :: j in v.ledger ==> w.ledger[j].amount == v.ledger[j].amount)
    && (forall j :: j in v.ledger && j != k && (quiet || v.ledger[j].state != Held) ==> w.ledger[j] == v.ledger[j])
  }

  lemma BesideTrans(u: World, v: World, w: World, k: Key, first: bool, second: bool)
    requires Beside(u, v, k, first) && Beside(v, w, k, second) && (first ==> second)
    ensures Beside(u, w, k, first)
  {
  }

  lemma AroundBeside(v: World, w: World, k: Key, quiet: bool)
    requires Around(v, w) && (quiet ==> w.ledger == v.ledger && w.wakes == v.wakes)
    ensures Beside(v, w, k, quiet)
  {
  }

  lemma RowStays(v: World, w: World, k: Key)
    requires Around(v, w) && k in v.ledger && v.ledger[k].state != Held
    ensures k in w.ledger && w.ledger[k] == v.ledger[k]
  {
  }

  /** A customer made or stored, or a read, leaves what a call relies on. */
  lemma CustomerAround(s: World, t: World, at: World, w: World, op: Op)
    requires op.Look? || op.NewCustomer? || op.KeepCustomer?
    requires Around(s, t) && Around(t, at) && (w == at || (Effect(at, op).Some? && w == Effect(at, op).value.0))
    ensures Around(s, w) && w.ledger == at.ledger && w.invoices == at.invoices && w.wakes == at.wakes
  {
    AroundTrans(s, t, at);
  }

  lemma CustomerStays(v: World, w: World, account: nat)
    requires Around(v, w) && account in v.customers
    ensures account in w.customers && w.customers[account] == v.customers[account]
  {
  }

  // ---------------------------------------------------------------- a period's invoice

  /** The row is as it was read, and this is its invoice. */
  ghost predicate Mine(w: World, k: Key, row: Row, i: nat) {
    IsStored(w, k, i) && w.ledger[k].state == row.state && w.ledger[k].amount == row.amount
  }

  lemma MineStays(v: World, w: World, k: Key, row: Row, i: nat)
    requires Around(v, w) && Mine(v, k, row, i) && row.state != Held
    ensures Mine(w, k, row, i)
  {
  }

  lemma KeyIsKept(w: World, key: Idempotency)
    requires Inv(w)
    ensures key in w.keys ==> Kept(w, key)
  {
  }

  lemma StoredOnce(w: World, k: Key, row: Row)
    requires Inv(w) && k in w.ledger && w.ledger[k] == row
    ensures row.invoice.Some? ==> Mine(w, k, row, row.invoice.value) && row.invoice.value < |w.invoices|
  {
    assert Backed(w, k);
  }

  /** What the list shows of a period with no stored invoice: a draft of it, or that
      every live one it has is off the page. */
  lemma ListShows(w: World, k: Key, customer: nat)
    requires Inv(w) && k in w.ledger && w.ledger[k].invoice == None
    requires k.account in w.customers && customer == w.customers[k.account]
    ensures var found := Adoptable(w, k, customer, |w.invoices|);
            && (found.Some? ==>
                  && found.value < |w.invoices| && w.invoices[found.value].status == Draft
                  && Current(w, ViewOf(w, found.value)) && Allowed(w, KeepInvoice(k, found.value)))
            && (found.None? ==> Allowed(w, NewInvoice(k, customer)) && Unlisted(w, k))
  {
    hide Subtotal, OurLines, Placed, Adoptable, Newer;
    AdoptableIs(w, k, customer, |w.invoices|);
    var found := Adoptable(w, k, customer, |w.invoices|);
    if found.Some? {
      UnstoredIsDraft(w, k, found.value);
    } else {
      forall i | 0 <= i < |w.invoices| && w.invoices[i].key == Some(k) && w.invoices[i].Live() ensures IsOffThePage(w, i) {
        UnstoredIsDraft(w, k, i);
      }
    }
  }

  lemma MadeIsKept(at: World, w: World, k: Key, customer: nat, i: nat)
    requires Inv(at) && Allowed(at, NewInvoice(k, customer)) && Effect(at, NewInvoice(k, customer)) == Some((w, i))
    ensures Allowed(w, KeepInvoice(k, i)) && AsMade(w, View(i, Draft, 0, 0))
    ensures w.ledger == at.ledger
  {
    NewInvoiceIs(at, k, customer);
  }

  lemma KeptIsMine(at: World, w: World, k: Key, row: Row, view: View)
    requires Allowed(at, KeepInvoice(k, view.id)) && Effect(at, KeepInvoice(k, view.id)).Some?
    requires w == Effect(at, KeepInvoice(k, view.id)).value.0
    requires k in at.ledger && at.ledger[k] == row && row.invoice == None
    ensures Mine(w, k, row, view.id) && Beside(at, w, k, true)
    ensures w.invoices == at.invoices && w.keys == at.keys
    ensures (Current(at, view) ==> Current(w, view)) && (AsMade(at, view) ==> AsMade(w, view))
  {
    hide Subtotal, OurLines;
  }

  // -------------------------------------------------- a period nobody has interfered with

  const MAX_INVOICE_CENTS := 99_999_999

  /** Nothing in Stripe but the pass's own work on the period, wherever it stopped, and
      a list that shows it. */
  ghost predicate Untouched(w: World, k: Key) {
    && k in w.ledger && w.ledger[k].amount <= MAX_INVOICE_CENTS
    && (forall i :: 0 <= i < |w.invoices| && w.invoices[i].key == Some(k) ==> OwnWork(w, k, i))
  }

  ghost predicate OwnWork(w: World, k: Key, i: nat)
    requires k in w.ledger && i < |w.invoices|
  {
    var inv := w.invoices[i];
    && (inv.status == Draft || inv.status == Open || (inv.status == Paid && w.ledger[k].state == Finalized))
    && (inv.lines == [] || inv.lines == [Line(true, w.ledger[k].amount)])
    && (w.ledger[k].invoice == None ==> Listed(w, inv.customer, i))
  }

  lemma UntouchedShows(w: World, k: Key, customer: nat)
    requires Inv(w) && Untouched(w, k) && w.ledger[k].invoice == None
    requires k.account in w.customers && customer == w.customers[k.account]
    requires Adoptable(w, k, customer, |w.invoices|).None?
    ensures forall i :: 0 <= i < |w.invoices| ==> w.invoices[i].key != Some(k)
    ensures InvoiceKey(k) !in w.keys
  {
    hide Subtotal, OurLines, Adoptable, Newer;
    AdoptableIs(w, k, customer, |w.invoices|);
    forall i | 0 <= i < |w.invoices| ensures w.invoices[i].key != Some(k) {
      if w.invoices[i].key == Some(k) {
        assert OwnWork(w, k, i);
        UnstoredIsDraft(w, k, i);
      }
    }
    KeyIsKept(w, InvoiceKey(k));
  }

  /** Such a period is sent by a pass that is left alone, wherever it stopped. */
  lemma UntouchedGoes(w: World, k: Key)
    requires Inv(w) && Untouched(w, k) && (w.ledger[k].state == Claimed || w.ledger[k].state == Finalized)
    ensures QuietOutcome(w, k) == WasSent
  {
    hide Adoptable, OurLines;
    var row := w.ledger[k];
    StoredOnce(w, k, row);
    if row.invoice.Some? {
      OwnWorkGoes(w, k, row.invoice.value);
    } else if k.account in w.customers {
      var found := Adoptable(w, k, w.customers[k.account], |w.invoices|);
      AdoptableIs(w, k, w.customers[k.account], |w.invoices|);
      if found.Some? { OwnWorkGoes(w, k, found.value); } else { UntouchedShows(w, k, w.customers[k.account]); }
    }
  }

  lemma OwnWorkGoes(w: World, k: Key, i: nat)
    requires Inv(w) && Untouched(w, k) && i < |w.invoices| && w.invoices[i].key == Some(k)
    ensures Verdict(w, k, i) == WasSent
  {
    assert OwnWork(w, k, i) && Placed(w, i);
    var lines := w.invoices[i].lines;
    if lines != [] {
      assert lines[1..] == [];
      assert Subtotal(lines) == lines[0].cents + Subtotal([]) == w.ledger[k].amount;
    }
  }

  // ------------------------------------------------------------ what a pass alone does

  /** How a period ends. */
  datatype Outcome = WasSent | WasHeld | WasFailed

  /** From the period's own invoice, as it is: a draft gets its item, unless it has lines,
      and goes on at the claimed amount; so does an open one; a paid one is done, if its
      row says finalized; anything else is for a person. */
  function Verdict(w: World, k: Key, i: nat): Outcome
    requires k in w.ledger && i < |w.invoices|
  {
    var inv := w.invoices[i];
    match inv.status
    case Draft => if inv.lines == [] || Subtotal(inv.lines) == w.ledger[k].amount then WasSent else WasHeld
    case Open => if Subtotal(inv.lines) == w.ledger[k].amount then WasSent else WasHeld
    case Paid => if w.ledger[k].state == Finalized then WasSent else WasHeld
    case Uncollectible => WasHeld
    case Void => WasHeld
    case Deleted => WasHeld
  }

  /** A create that answers again: its draft gets the item whatever it has. */
  function AgainVerdict(w: World, i: nat): Outcome {
    if i < |w.invoices| && w.invoices[i].status == Draft && Subtotal(w.invoices[i].lines) == 0 then WasSent else WasHeld
  }

  function WithCustomer(w: World, k: Key, customer: nat): Outcome
    requires k in w.ledger
  {
    var found := Adoptable(w, k, customer, |w.invoices|);
    if found.Some? then (if found.value < |w.invoices| then Verdict(w, k, found.value) else WasHeld)
    else if InvoiceKey(k) in w.keys then AgainVerdict(w, w.keys[InvoiceKey(k)])
    else WasSent
  }

  /** What becomes of a claimed or finalized period when every call is answered and nobody
      interferes. */
  function QuietOutcome(w: World, k: Key): Outcome
    requires k in w.ledger
  {
    var row := w.ledger[k];
    if row.amount > MAX_INVOICE_CENTS then WasHeld
    else if row.invoice.Some? then (if row.invoice.value < |w.invoices| then Verdict(w, k, row.invoice.value) else WasHeld)
    else if k.account !in w.customers then WasSent
    else WithCustomer(w, k, w.customers[k.account])
  }

  /** The same from where the account's customer is known. */
  function OnInvoice(w: World, k: Key, customer: nat): Outcome
    requires k in w.ledger
  {
    if w.ledger[k].invoice.None? then WithCustomer(w, k, customer)
    else if w.ledger[k].invoice.value < |w.invoices| then Verdict(w, k, w.ledger[k].invoice.value)
    else WasHeld
  }

  /** A period whose invoice is stored is sent exactly while that can still be finished, is
      open, or was paid after the pass had finalized it. */
  lemma SentIff(w: World, k: Key)
    requires Inv(w) && k in w.ledger && w.ledger[k].amount <= 99_999_999 && w.ledger[k].invoice.Some?
    ensures w.ledger[k].invoice.value < |w.invoices| && QuietOutcome(w, k) != WasFailed
    ensures var row, inv := w.ledger[k], w.invoices[w.ledger[k].invoice.value];
            QuietOutcome(w, k) == WasSent <==>
              || (inv.status == Draft && (inv.lines == [] || Subtotal(inv.lines) == row.amount))
              || inv.status == Open
              || (inv.status == Paid && row.state == Finalized)
  {
    hide Subtotal, OurLines;
    StoredOnce(w, k, w.ledger[k]);
    assert Placed(w, w.ledger[k].invoice.value);
  }

  /** What the pass does with an invoice that it reads so. */
  function FromView(w: World, k: Key, view: View): Outcome
    requires k in w.ledger && view.id < |w.invoices|
  {
    match view.status
    case Draft => if DraftGoes(w, k, view) then WasSent else WasHeld
    case Open => if view.subtotal == w.ledger[k].amount then WasSent else WasHeld
    case Paid => if w.ledger[k].state == Finalized then WasSent else WasHeld
    case _ => WasHeld
  }

  predicate DraftGoes(w: World, k: Key, view: View)
    requires k in w.ledger && view.id < |w.invoices|
  {
    var inv := w.invoices[view.id];
    inv.status == Draft && Subtotal(inv.lines) == if view.lineCount == 0 then 0 else w.ledger[k].amount
  }

  lemma ViewVerdict(w: World, k: Key, i: nat)
    requires k in w.ledger && i < |w.invoices|
    ensures FromView(w, k, ViewOf(w, i)) == Verdict(w, k, i)
  {
  }

  /** The period's invoice, when nobody interferes. */
  function InvoiceAlone(w: World, k: Key, customer: nat): (World, Step<View>)
    requires k in w.ledger && (w.ledger[k].invoice.Some? ==> w.ledger[k].invoice.value < |w.invoices|)
  {
    if w.ledger[k].invoice.Some? then
      var i := w.ledger[k].invoice.value;
      (w, if w.invoices[i].status == Deleted then Failed(true) else Ok(ViewOf(w, i)))
    else
      var found := Adoptable(w, k, customer, |w.invoices|);
      if found.Some? then (SetInvoice(w, k, found.value), if found.value < |w.invoices| then Ok(ViewOf(w, found.value)) else Failed(true))
      else
        var (made, i) := MakeInvoice(w, k, customer);
        (SetInvoice(made, k, i), Ok(View(i, Draft, 0, 0)))
  }

  lemma InvoiceAloneIs(w: World, k: Key, customer: nat)
    requires Inv(w) && k in w.ledger
    ensures w.ledger[k].invoice.Some? ==> w.ledger[k].invoice.value < |w.invoices|
    ensures var (v, r) := InvoiceAlone(w, k, customer);
            var outcome := OnInvoice(w, k, customer);
            && k in v.ledger && (r.Ok? ==> r.value.id < |v.invoices|)
            && (r.Ok? ==> FromView(v, k, r.value) == outcome) && (!r.Ok? ==> r == Failed(true) && outcome == WasHeld)
  {
    hide Adoptable, OurLines;
    StoredOnce(w, k, w.ledger[k]);
    AdoptableIs(w, k, customer, |w.invoices|);
    KeyIsKept(w, InvoiceKey(k));
  }

  /** The account's customer does not change it. */
  lemma CustomerAlone(v: World, w: World, k: Key, customer: nat)
    requires Inv(v) && k in v.ledger && w.ledger == v.ledger && w.invoices == v.invoices
    requires InvoiceKey(k) in w.keys <==> InvoiceKey(k) in v.keys
    requires InvoiceKey(k) in w.keys ==> w.keys[InvoiceKey(k)] == v.keys[InvoiceKey(k)]
    requires k.account in v.customers ==> customer == v.customers[k.account]
    requires v.ledger[k].amount <= MAX_INVOICE_CENTS
    ensures QuietOutcome(v, k) == OnInvoice(w, k, customer)
  {
    hide Adoptable, OurLines, Subtotal;
    AdoptableIs(w, k, customer, |w.invoices|);
    SameList(v, w, k, customer, |v.invoices|);
    if v.ledger[k].invoice.None? && k.account !in v.customers {
      forall i | 0 <= i < |v.invoices| ensures v.invoices[i].key != Some(k) { assert Placed(v, i); }
      KeyIsKept(v, InvoiceKey(k));
    }
  }

  lemma {:induction false} SameList(v: World, w: World, k: Key, customer: nat, from: nat)
    requires w.invoices == v.invoices && from <= |v.invoices|
    ensures Adoptable(w, k, customer, from) == Adoptable(v, k, customer, from)
  {
    if from > 0 { SameList(v, w, k, customer, from - 1); }
  }

  // ------------------------------------------------------------------- its single steps

  /** The invoice is there and was not finalized. */
  predicate Unfinal(w: World, i: nat) { i < |w.invoices| && !w.invoices[i].WasFinalized() }

  /** Of this period, and not yet taken from it. */
  predicate Sendable(w: World, k: Key, i: nat) {
    i < |w.invoices| && w.invoices[i].key == Some(k) && (w.invoices[i].status == Draft || w.invoices[i].status == Open)
  }

  /** At most invoice `i` was emailed meanwhile; and if so, then from point `from` of the
      run on it was once still a draft or open. */
  ghost predicate Mails(v: World, w: World, k: Key, i: nat, trail: seq<World>, from: nat) {
    w.emailed == v.emailed || (w.emailed == v.emailed + {i} && SeenSendable(k, i, trail, from))
  }

  ghost predicate SeenSendable(k: Key, i: nat, trail: seq<World>, from: nat) {
    exists n: nat :: from <= n < |trail| && Sendable(trail[n], k, i)
  }

  /** At most one was. */
  ghost predicate MailsOne(v: World, w: World, k: Key, trail: seq<World>, from: nat) {
    exists i: nat :: Mails(v, w, k, i, trail, from)
  }

  /** The row's invoice cannot go on: it is deleted, void or written off, paid before the row
      said finalized, or not of the claimed amount. */
  predicate Unfit(w: World, k: Key) {
    && k in w.ledger && w.ledger[k].invoice.Some? && w.ledger[k].invoice.value < |w.invoices|
    && var inv := w.invoices[w.ledger[k].invoice.value];
       match inv.status
       case Draft => Subtotal(inv.lines) != w.ledger[k].amount
       case Open => Subtotal(inv.lines) != w.ledger[k].amount
       case Paid => w.ledger[k].state != Finalized
       case _ => true
  }

  /** A failure is what the last call answered, or tells of an unfit invoice. */
  predicate Because<T>(r: Step<T>, w: World, k: Key, calls: seq<Call>, first: nat) {
    r.Failed? ==> first < |calls| && (calls[|calls| - 1].reply == Failed(r.refused) || (r.refused && Unfit(w, k)))
  }

  /** A row is held after a call that was refused for good, or over an invoice that at some
      point was seen unfit. */
  ghost predicate HeldWell(k: Key, trail: seq<World>, from: nat, calls: seq<Call>, first: nat) {
    || (first + 2 <= |calls| && calls[|calls| - 2].reply == Failed(true))
    || exists n: nat :: from <= n < |trail| && Unfit(trail[n], k)
  }

  /** And it waits after one that may be tried again. */
  predicate FailedWell(calls: seq<Call>, first: nat) {
    first < |calls| && calls[|calls| - 1].reply == Failed(false)
  }

  ghost predicate EndsWell(o: Step<Outcome>, k: Key, trail: seq<World>, from: nat, calls: seq<Call>, first: nat) {
    && (o == Ok(WasHeld) ==> HeldWell(k, trail, from, calls, first))
    && (o == Ok(WasFailed) ==> FailedWell(calls, first))
  }

  lemma FailEnds<T>(o: Step<Outcome>, r: Step<T>, k: Key, seen: seq<World>, trail: seq<World>, from: nat, tried: seq<Call>, calls: seq<Call>, first: nat)
    requires from < |seen| && seen <= trail && tried <= calls && Because(r, seen[|seen| - 1], k, tried, first)
    requires o == Ok(WasFailed) ==> r == Failed(false) && calls == tried
    requires o == Ok(WasHeld) ==> r == Failed(true) && |calls| == |tried| + 1
    ensures EndsWell(o, k, trail, from, calls, first)
  {
    assert trail[|seen| - 1] == seen[|seen| - 1];
  }

  lemma CallFailed<T>(r: Step<T>, w: World, k: Key, calls: seq<Call>, first: nat)
    requires r.Failed? ==> first < |calls| && calls[|calls| - 1].reply == Failed(r.refused)
    ensures Because(r, w, k, calls, first)
  {}

  lemma BecauseLater<T>(r: Step<T>, w: World, k: Key, calls: seq<Call>, first: nat, asked: nat)
    requires Because(r, w, k, calls, asked) && first <= asked
    ensures Because(r, w, k, calls, first)
  {}

  lemma UnfitEnds(o: Step<Outcome>, k: Key, trail: seq<World>, from: nat, calls: seq<Call>, first: nat)
    requires from < |trail| && Unfit(trail[from], k) && o != Ok(WasFailed)
    ensures EndsWell(o, k, trail, from, calls, first)
  {}

  lemma LaterEnds(o: Step<Outcome>, k: Key, trail: seq<World>, from: nat, begun: nat, calls: seq<Call>, first: nat, tried: nat)
    requires EndsWell(o, k, trail, begun, calls, tried) && from <= begun && first <= tried
    ensures EndsWell(o, k, trail, from, calls, first)
  {}

  lemma UnfinalStays(v: World, w: World, i: nat)
    requires Around(v, w) && Unfinal(v, i)
    ensures Unfinal(w, i)
  {
  }

  lemma ItemAlone(w: World, k: Key, row: Row, i: nat)
    requires Inv(w) && Mine(w, k, row, i) && Unfinal(w, i) && Allowed(w, NewItem(k, i, row.amount))
    ensures var e := Effect(w, NewItem(k, i, row.amount));
            if w.invoices[i].status == Draft
            then e.Some? && i < |e.value.0.invoices| && e.value.0.invoices[i].status == Draft
                 && Subtotal(e.value.0.invoices[i].lines) == Subtotal(w.invoices[i].lines) + row.amount
            else e.Some? ==> e.value.0 == w && w.invoices[i].status == Deleted
  {
    KeyIsKept(w, ItemKey(k));
    LinesAppend(w.invoices[i].lines, Line(true, row.amount));
    hide Subtotal, OurLines;
  }

  lemma ItemUnfinal(at: World, w: World, k: Key, i: nat, amount: int)
    requires Unfinal(at, i)
    requires w == at || (Effect(at, NewItem(k, i, amount)).Some? && w == Effect(at, NewItem(k, i, amount)).value.0)
    ensures Unfinal(w, i)
  {
  }

  lemma FinalizeAlone(w: World, k: Key, row: Row, i: nat)
    requires Inv(w) && Mine(w, k, row, i) && Unfinal(w, i)
    ensures Effect(w, FinalizeIt(k, i)).Some? <==> w.invoices[i].status == Draft
  {
    KeyIsKept(w, FinalizeKey(k));
  }

  lemma FinalizedIsMine(at: World, w: World, k: Key, row: Row, i: nat)
    requires Inv(at) && Allowed(at, FinalizeIt(k, i)) && Effect(at, FinalizeIt(k, i)).Some? && w == Effect(at, FinalizeIt(k, i)).value.0
    requires Mine(at, k, row, i) && Unfinal(at, i)
    ensures Mine(w, k, row, i) && Beside(at, w, k, true) && w.invoices[i].WasFinalized() && Sendable(at, k, i)
  {
    hide Subtotal, OurLines;
    KeyIsKept(at, FinalizeKey(k));
  }
}
