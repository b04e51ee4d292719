/** The invoice ledger and the part of Stripe it drives, as values: every single
    write either side makes, what each keeps, and the moves it may make. */
module Stripe {
  import opened Basics
  import Billing

  datatype Key = Key(account: nat, period: Billing.PeriodId)

  // ------------------------------------------------------------------- the ledger

  datatype RowState = Claimed | Finalized | Sent | Held | Manual

  datatype Row = Row(amount: int, state: RowState, invoice: Option<nat>)

  // --------------------------------------------------------------------- Stripe

  datatype Status = Draft | Open | Paid | Uncollectible | Void | Deleted

  /** A line is the pass's item, or one that a person added. */
  datatype Line = Line(ours: bool, cents: int)

  /** `key` is the metadata that the pass writes; an invoice made by hand has none. */
  datatype Invoice = Invoice(key: Option<Key>, customer: nat, status: Status, lines: seq<Line>) {
    /** It can still be paid, or was. */
    predicate Live() { status != Void && status != Deleted }

    predicate WasFinalized() { status != Draft && status != Deleted }
  }

  /** The calls with an idempotency key, by what the key is made of. */
  datatype Idempotency = CustomerKey(account: nat) | InvoiceKey(key: Key) | ItemKey(key: Key) | FinalizeKey(key: Key)

  /** Everything that outlives a process: the ledger, each account's stored customer
      and next wake-up, and Stripe. Invoice ids are positions, in creation order. A
      key maps to the id its call was about, until it expires. `emailed` are the
      invoices that Stripe sent to their customer. */
  datatype World = World(
    ledger: map<Key, Row>,
    customers: map<nat, nat>,
    wakes: map<nat, int>,
    invoices: seq<Invoice>,
    made: nat,
    keys: map<Idempotency, nat>,
    emailed: set<nat>)

  function Subtotal(lines: seq<Line>): int {
    if lines == [] then 0 else lines[0].cents + Subtotal(lines[1..])
  }

  function OurLines(lines: seq<Line>): nat {
    if lines == [] then 0 else (if lines[0].ours then 1 else 0) + OurLines(lines[1..])
  }

  // --------------------------------------------------------------- the invariant

  /** At most one live invoice for an account and period. */
  ghost predicate OneLive(w: World) {
    forall i, j :: 0 <= i < j < |w.invoices| && w.invoices[i].Live() && w.invoices[j].Live() && w.invoices[i].key.Some? ==>
      w.invoices[i].key != w.invoices[j].key
  }

  /** An invoice of a claimed period, under the account's one stored customer. Only the
      row's own invoice has the pass's item, once and for the claimed amount, and only
      it is ever finalized, at that amount. */
  ghost predicate Placed(w: World, i: nat)
    requires i < |w.invoices|
  {
    var inv := w.invoices[i];
    inv.key.Some? ==>
      var k := inv.key.value;
      && k in w.ledger
      && k.account in w.customers && inv.customer == w.customers[k.account]
      && OurLines(inv.lines) <= 1
      && (OurLines(inv.lines) > 0 ==> w.ledger[k].invoice == Some(i))
      && (forall l :: l in inv.lines && l.ours ==> l.cents == w.ledger[k].amount)
      && (inv.WasFinalized() ==> w.ledger[k].invoice == Some(i) && Subtotal(inv.lines) == w.ledger[k].amount)
  }

  /** A row's invoice is its own, a finalized or sent row's was finalized, and a sent
      row's was emailed, or paid before it could be. */
  ghost predicate Backed(w: World, k: Key)
    requires k in w.ledger
  {
    var row := w.ledger[k];
    && (row.invoice.Some? ==> row.invoice.value < |w.invoices| && w.invoices[row.invoice.value].key == Some(k))
    && (row.state == Finalized || row.state == Sent ==>
          row.invoice.Some? && w.invoices[row.invoice.value].WasFinalized())
    && (row.state == Sent ==> row.invoice.value in w.emailed || w.invoices[row.invoice.value].status == Paid)
  }

  ghost predicate Kept(w: World, key: Idempotency)
    requires key in w.keys
  {
    var i := w.keys[key];
    match key
    case CustomerKey(a) => i < w.made
    case InvoiceKey(k) => i < |w.invoices| && w.invoices[i].key == Some(k)
    case ItemKey(k) => IsStored(w, k, i) && OurLines(w.invoices[i].lines) == 1
    case FinalizeKey(k) => IsStored(w, k, i) && w.invoices[i].WasFinalized()
  }

  predicate IsStored(w: World, k: Key, i: nat) {
    k in w.ledger && w.ledger[k].invoice == Some(i) && i < |w.invoices| && w.invoices[i].key == Some(k)
  }

  ghost predicate Inv(w: World) {
    && (forall i :: 0 <= i < |w.invoices| ==> Placed(w, i))
    && (forall k :: k in w.ledger ==> Backed(w, k))
    && (forall key :: key in w.keys ==> Kept(w, key))
  }

  /** The moves of a row's state. */
  predicate Moves(a: RowState, b: RowState) {
    || a == b
    || (a == Claimed && b == Finalized)
    || (a == Finalized && b == Sent)
    || ((a == Claimed || a == Finalized) && b == Held)
    || (a == Held && (b == Claimed || b == Manual))
  }

  /** One write, by anyone: rows stay, with their amounts and invoices; states move;
      a new row is claimed; a finalize is of the claimed amount. */
  ghost predicate LegalStep(v: World, w: World) {
    && (forall k :: k in v.ledger ==>
          && k in w.ledger
          && w.ledger[k].amount == v.ledger[k].amount
          && Moves(v.ledger[k].state, w.ledger[k].state)
          && (v.ledger[k].invoice.Some? ==> w.ledger[k].invoice == v.ledger[k].invoice))
    && (forall k :: k in w.ledger && k !in v.ledger ==> w.ledger[k].state == Claimed && w.ledger[k].invoice == None)
    && |v.invoices| <= |w.invoices| <= |v.invoices| + 1
    && (forall i :: 0 <= i < |v.invoices| ==> w.invoices[i].key == v.invoices[i].key)
    && (forall i :: 0 <= i < |v.invoices| && v.invoices[i].status == Draft && w.invoices[i].WasFinalized() && v.invoices[i].key.Some? ==>
          && v.invoices[i].key.value in v.ledger
          && Subtotal(w.invoices[i].lines) == v.ledger[v.invoices[i].key.value].amount)
  }

  // ------------------------------------------------------------- the ledger's writes

  function InsertRow(w: World, k: Key, amount: int): World {
    if k in w.ledger then w else w.(ledger := w.ledger[k := Row(amount, Claimed, None)])
  }

  function SetState(w: World, k: Key, state: RowState): World
    requires k in w.ledger
  {
    w.(ledger := w.ledger[k := w.ledger[k].(state := state)])
  }

  function SetInvoice(w: World, k: Key, i: nat): World
    requires k in w.ledger
  {
    if w.ledger[k].invoice.None? then w.(ledger := w.ledger[k := w.ledger[k].(invoice := Some(i))]) else w
  }

  function SetCustomer(w: World, account: nat, customer: nat): World {
    if account in w.customers then w else w.(customers := w.customers[account := customer])
  }

  // ------------------------------------------------------------------- Stripe's own

  /** A create under a live key answers with what it made before. */
  function MakeCustomer(w: World, account: nat): (World, nat) {
    var key := CustomerKey(account);
    if key in w.keys then (w, w.keys[key])
    else (w.(made := w.made + 1, keys := w.keys[key := w.made]), w.made)
  }

  function MakeInvoice(w: World, k: Key, customer: nat): (World, nat) {
    var key := InvoiceKey(k);
    if key in w.keys then (w, w.keys[key])
    else (w.(invoices := w.invoices + [Invoice(Some(k), customer, Draft, [])], keys := w.keys[key := |w.invoices|]), |w.invoices|)
  }

  /** None when Stripe refuses: not a draft, or the key was used for another invoice. */
  function AddItem(w: World, k: Key, i: nat, amount: int): Option<World>
    requires i < |w.invoices|
  {
    var key, inv := ItemKey(k), w.invoices[i];
    if key in w.keys then (if w.keys[key] == i then Some(w) else None)
    else if inv.status != Draft then None
    else Some(w.(invoices := w.invoices[i := inv.(lines := inv.lines + [Line(true, amount)])], keys := w.keys[key := i]))
  }

  function Finalize(w: World, k: Key, i: nat): Option<World>
    requires i < |w.invoices|
  {
    var key, inv := FinalizeKey(k), w.invoices[i];
    if key in w.keys then (if w.keys[key] == i then Some(w) else None)
    else if inv.status != Draft then None
    else Some(w.(invoices := w.invoices[i := inv.(status := Open)], keys := w.keys[key := i]))
  }

  /** One more email of an invoice changes nothing else. */
  function Email(w: World, i: nat): World { w.(emailed := w.emailed + {i}) }

  // ---------------------------------------------------------------------- others

  /** What others do meanwhile: a customer pays, a person voids, deletes or writes
      off in Stripe, a key expires, an operator releases a held row or records it,
      the portal makes or stores the account's customer, an operator makes an invoice
      by hand. */
  datatype Outside =
    | Pay(i: nat) | WriteOff(i: nat) | VoidIt(i: nat) | DeleteDraft(i: nat)
    | Expire(key: Idempotency) | Release(k: Key) | RecordManual(k: Key)
    | PortalMakes(account: nat) | PortalStores(account: nat, customer: nat)
    | MakeByHand(customer: nat, status: Status)

  function WithStatus(w: World, i: nat, status: Status): World
    requires i < |w.invoices|
  {
    w.(invoices := w.invoices[i := w.invoices[i].(status := status)])
  }

  function ByHand(w: World, customer: nat, status: Status): World {
    w.(invoices := w.invoices + [Invoice(None, customer, status, [])])
  }

  function Other(w: World, o: Outside): World {
    match o
    case Pay(i) =>
      if i < |w.invoices| && (w.invoices[i].status == Open || w.invoices[i].status == Uncollectible) then WithStatus(w, i, Paid) else w
    case WriteOff(i) =>
      if i < |w.invoices| && w.invoices[i].status == Open then WithStatus(w, i, Uncollectible) else w
    case VoidIt(i) =>
      if i < |w.invoices| && (w.invoices[i].status == Open || w.invoices[i].status == Uncollectible) then WithStatus(w, i, Void) else w
    case DeleteDraft(i) =>
      if i < |w.invoices| && w.invoices[i].status == Draft then WithStatus(w, i, Deleted) else w
    case Expire(key) => w.(keys := w.keys - {key})
    case Release(k) =>
      if k in w.ledger && w.ledger[k].state == Held then SetState(w, k, Claimed).(wakes := w.wakes - {k.account}) else w
    case RecordManual(k) =>
      if k in w.ledger && w.ledger[k].state == Held then SetState(w, k, Manual) else w
    case PortalMakes(account) => MakeCustomer(w, account).0
    case PortalStores(account, customer) => SetCustomer(w, account, customer)
    case MakeByHand(customer, status) => ByHand(w, customer, status)
  }

  function Others(w: World, steps: seq<Outside>): World {
    if steps == [] then w else Other(Others(w, steps[..|steps| - 1]), steps[|steps| - 1])
  }

  /** A person adds a line to a draft, between passes. */
  function PersonAdds(w: World, i: nat, cents: int): World {
    if i < |w.invoices| && w.invoices[i].status == Draft
    then w.(invoices := w.invoices[i := w.invoices[i].(lines := w.invoices[i].lines + [Line(false, cents)])]) else w
  }

  /** What a call of the pass can rely on across the steps of others. */
  ghost predicate Around(v: World, w: World) {
    && w.ledger.Keys == v.ledger.Keys
    && (forall k :: k in v.ledger ==>
          && w.ledger[k].amount == v.ledger[k].amount && w.ledger[k].invoice == v.ledger[k].invoice
          && (v.ledger[k].state != Held ==> w.ledger[k].state == v.ledger[k].state))
    && (forall a :: a in v.customers ==> a in w.customers && w.customers[a] == v.customers[a])
    && v.emailed <= w.emailed
    && |v.invoices| <= |w.invoices|
    && (forall i :: |v.invoices| <= i < |w.invoices| ==> w.invoices[i].key == None)
    && (forall i :: 0 <= i < |v.invoices| ==>
          && w.invoices[i].key == v.invoices[i].key && w.invoices[i].customer == v.invoices[i].customer
          && w.invoices[i].lines == v.invoices[i].lines
          && (w.invoices[i].status == Draft ==> v.invoices[i].status == Draft)
          && (v.invoices[i].WasFinalized() <==> w.invoices[i].WasFinalized())
          && (v.invoices[i].status == Paid ==> w.invoices[i].status == Paid)
          && (w.invoices[i].Live() ==> v.invoices[i].Live()))
  }

  // ------------------------------------------------------ what every write keeps

  lemma InsertRowKeeps(w: World, k: Key, amount: int)
    requires Inv(w)
    ensures Inv(InsertRow(w, k, amount)) && LegalStep(w, InsertRow(w, k, amount))
  {
    hide Subtotal, OurLines;
    var w' := InsertRow(w, k, amount);
    if k !in w.ledger {
      assert forall j :: j in w'.ledger <==> j in w.ledger || j == k;
      assert forall j :: j in w.ledger ==> w'.ledger[j] == w.ledger[j];
      forall i | 0 <= i < |w'.invoices| ensures Placed(w', i) { assert Placed(w, i); }
      forall j | j in w'.ledger ensures Backed(w', j) { if j in w.ledger { assert Backed(w, j); } }
      forall key | key in w'.keys ensures Kept(w', key) { assert Kept(w, key); }
    }
  }

  /** A row may become finalized or sent only with a finalized invoice, and sent only
      when that was emailed or paid. */
  lemma SetStateKeeps(w: World, k: Key, state: RowState)
    requires Inv(w) && k in w.ledger && Moves(w.ledger[k].state, state)
    requires state == Finalized || state == Sent ==>
               w.ledger[k].invoice.Some? && w.invoices[w.ledger[k].invoice.value].WasFinalized()
    requires state == Sent ==> w.ledger[k].invoice.value in w.emailed || w.invoices[w.ledger[k].invoice.value].status == Paid
    ensures Inv(SetState(w, k, state)) && LegalStep(w, SetState(w, k, state))
  {
    hide Subtotal, OurLines;
    var w' := SetState(w, k, state);
    forall i | 0 <= i < |w'.invoices| ensures Placed(w', i) { assert Placed(w, i); }
    forall j | j in w'.ledger ensures Backed(w', j) { assert Backed(w, j); }
    forall key | key in w'.keys ensures Kept(w', key) { assert Kept(w, key); }
  }

  lemma EmailKeeps(w: World, i: nat)
    requires Inv(w)
    ensures Inv(Email(w, i)) && LegalStep(w, Email(w, i))
  {
    hide Subtotal, OurLines;
    var w' := Email(w, i);
    forall j | 0 <= j < |w'.invoices| ensures Placed(w', j) { assert Placed(w, j); }
    forall j | j in w'.ledger ensures Backed(w', j) { assert Backed(w, j); }
    forall key | key in w'.keys ensures Kept(w', key) { assert Kept(w, key); }
  }

  lemma WakesKeep(w: World, wakes: map<nat, int>)
    requires Inv(w)
    ensures Inv(w.(wakes := wakes)) && LegalStep(w, w.(wakes := wakes))
  {
    hide Subtotal, OurLines;
    var w' := w.(wakes := wakes);
    forall i | 0 <= i < |w'.invoices| ensures Placed(w', i) { assert Placed(w, i); }
    forall j | j in w'.ledger ensures Backed(w', j) { assert Backed(w, j); }
    forall key | key in w'.keys ensures Kept(w', key) { assert Kept(w, key); }
  }

  /** An invoice is stored once. */
  lemma SetInvoiceKeeps(w: World, k: Key, i: nat)
    requires Inv(w) && k in w.ledger && i < |w.invoices| && w.invoices[i].key == Some(k)
    ensures Inv(SetInvoice(w, k, i)) && LegalStep(w, SetInvoice(w, k, i))
  {
    hide Subtotal, OurLines;
    var w' := SetInvoice(w, k, i);
    if w.ledger[k].invoice.None? {
      assert forall j :: j in w'.ledger <==> j in w.ledger;
      assert forall j :: j in w.ledger && j != k ==> w'.ledger[j] == w.ledger[j];
      forall j | 0 <= j < |w'.invoices| ensures Placed(w', j) { assert Placed(w, j); }
      forall j | j in w'.ledger ensures Backed(w', j) { assert Backed(w, j); }
      forall key | key in w'.keys ensures Kept(w', key) { assert Kept(w, key); }
    }
  }

  lemma SetCustomerKeeps(w: World, account: nat, customer: nat)
    requires Inv(w)
    ensures Inv(SetCustomer(w, account, customer)) && LegalStep(w, SetCustomer(w, account, customer))
  {
    hide Subtotal, OurLines;
    var w' := SetCustomer(w, account, customer);
    forall i | 0 <= i < |w'.invoices| ensures Placed(w', i) { assert Placed(w, i); }
    forall j | j in w'.ledger ensures Backed(w', j) { assert Backed(w, j); }
    forall key | key in w'.keys ensures Kept(w', key) { assert Kept(w, key); }
  }

  lemma MakeCustomerKeeps(w: World, account: nat)
    requires Inv(w)
    ensures Inv(MakeCustomer(w, account).0) && LegalStep(w, MakeCustomer(w, account).0)
  {
    hide Subtotal, OurLines;
    var w' := MakeCustomer(w, account).0;
    if CustomerKey(account) in w.keys { assert Kept(w, CustomerKey(account)); }
    forall i | 0 <= i < |w'.invoices| ensures Placed(w', i) { assert Placed(w, i); }
    forall j | j in w'.ledger ensures Backed(w', j) { assert Backed(w, j); }
    forall key | key in w'.keys ensures Kept(w', key) { if key in w.keys { assert Kept(w, key); } }
  }

  lemma MakeInvoiceKeeps(w: World, k: Key, customer: nat)
    requires Inv(w) && k in w.ledger && w.ledger[k].invoice == None
    requires k.account in w.customers && customer == w.customers[k.account]
    ensures var (w', i) := MakeInvoice(w, k, customer);
            Inv(w') && LegalStep(w, w') && i < |w'.invoices| && w'.invoices[i].key == Some(k)
  {
    var (w', n) := MakeInvoice(w, k, customer);
    if InvoiceKey(k) in w.keys {
      assert Kept(w, InvoiceKey(k));
    } else {
      forall i | 0 <= i < |w'.invoices| ensures Placed(w', i) { if i < |w.invoices| { assert Placed(w, i); } }
      forall j | j in w'.ledger ensures Backed(w', j) { assert Backed(w, j); }
      forall key | key in w'.keys ensures Kept(w', key) { if key in w.keys { assert Kept(w, key); } }
    }
  }

  lemma {:induction false} LinesAppend(lines: seq<Line>, l: Line)
    ensures Subtotal(lines + [l]) == Subtotal(lines) + l.cents
    ensures OurLines(lines + [l]) == OurLines(lines) + if l.ours then 1 else 0
  {
    if lines != [] {
      assert (lines + [l])[1..] == lines[1..] + [l];
      LinesAppend(lines[1..], l);
    }
  }

  /** The item goes, for the claimed amount, on an invoice that does not have it. */
  lemma AddItemKeeps(w: World, k: Key, i: nat, amount: int)
    requires Inv(w) && IsStored(w, k, i) && amount == w.ledger[k].amount
    requires w.invoices[i].status == Draft ==> OurLines(w.invoices[i].lines) == 0 || ItemKey(k) in w.keys
    ensures AddItem(w, k, i, amount).Some? ==>
              Inv(AddItem(w, k, i, amount).value) && LegalStep(w, AddItem(w, k, i, amount).value)
  {
    var r := AddItem(w, k, i, amount);
    if r.Some? && r.value != w {
      var w' := r.value;
      LinesAppend(w.invoices[i].lines, Line(true, amount));
      hide Subtotal, OurLines;
      forall j | 0 <= j < |w'.invoices| ensures Placed(w', j) { assert Placed(w, j); }
      forall j | j in w'.ledger ensures Backed(w', j) { assert Backed(w, j); }
      forall key | key in w'.keys ensures Kept(w', key) { if key in w.keys { assert Kept(w, key); } }
    }
  }

  /** A draft is finalized at the claimed amount, as the row's stored invoice. */
  lemma FinalizeKeeps(w: World, k: Key, i: nat)
    requires Inv(w) && IsStored(w, k, i)
    requires w.invoices[i].status == Draft ==> Subtotal(w.invoices[i].lines) == w.ledger[k].amount
    ensures Finalize(w, k, i).Some? ==>
              var w' := Finalize(w, k, i).value; Inv(w') && LegalStep(w, w') && w'.invoices[i].WasFinalized()
  {
    hide Subtotal, OurLines;
    var r := Finalize(w, k, i);
    if FinalizeKey(k) in w.keys { assert Kept(w, FinalizeKey(k)); }
    if r.Some? && r.value != w {
      var w' := r.value;
      forall j | 0 <= j < |w'.invoices| ensures Placed(w', j) { assert Placed(w, j); }
      forall j | j in w'.ledger ensures Backed(w', j) { assert Backed(w, j); }
      forall key | key in w'.keys ensures Kept(w', key) { if key in w.keys { assert Kept(w, key); } }
    }
  }

  lemma StatusKeeps(w: World, i: nat, status: Status)
    requires Inv(w) && i < |w.invoices|
    requires w.invoices[i].WasFinalized() ==> status != Draft && status != Deleted
    requires !w.invoices[i].WasFinalized() ==> status == Deleted
    requires (status != Void && status != Deleted) ==> w.invoices[i].Live()
    requires w.invoices[i].status == Paid ==> status == Paid
    ensures Inv(WithStatus(w, i, status)) && LegalStep(w, WithStatus(w, i, status)) && Around(w, WithStatus(w, i, status))
  {
    hide Subtotal, OurLines;
    var w' := WithStatus(w, i, status);
    forall j | 0 <= j < |w'.invoices| ensures Placed(w', j) { assert Placed(w, j); }
    forall j | j in w'.ledger ensures Backed(w', j) { assert Backed(w, j); }
    forall key | key in w'.keys ensures Kept(w', key) { assert Kept(w, key); }
  }

  /** Nothing that others do breaks the invariant, or what a call relies on. */
  lemma OtherKeeps(w: World, o: Outside)
    requires Inv(w)
    ensures Inv(Other(w, o)) && LegalStep(w, Other(w, o)) && Around(w, Other(w, o))
  {
    hide Inv, LegalStep, Around, MakeCustomer, SetCustomer, SetState, ByHand;
    NothingDone(w);
    match o
    case Pay(i) => if Other(w, o) != w { StatusKeeps(w, i, Paid); }
    case WriteOff(i) => if Other(w, o) != w { StatusKeeps(w, i, Uncollectible); }
    case VoidIt(i) => if Other(w, o) != w { StatusKeeps(w, i, Void); }
    case DeleteDraft(i) => if Other(w, o) != w { StatusKeeps(w, i, Deleted); }
    case Expire(key) => ExpireKeeps(w, key);
    case Release(k) => if k in w.ledger && w.ledger[k].state == Held { ReleaseKeeps(w, k); }
    case RecordManual(k) => if k in w.ledger && w.ledger[k].state == Held { ManualKeeps(w, k); }
    case PortalMakes(account) =>
      MakeCustomerKeeps(w, account);
      MadeAround(w, account);
    case PortalStores(account, customer) =>
      SetCustomerKeeps(w, account, customer);
      StoredAround(w, account, customer);
    case MakeByHand(customer, status) => ByHandKeeps(w, customer, status);
  }

  /** What each act does where it can be done, and nothing else: an open invoice is paid,
      voided or written off, a draft deleted, a key dropped; a held row goes back to
      claimed, with its account due at once, or is recorded as invoiced by hand; the
      portal makes or stores a customer; an invoice is made by hand. */
  lemma OtherMeans(w: World, o: Outside)
    ensures var v := Other(w, o);
            match o
            case Pay(i) =>
              i < |w.invoices| && w.invoices[i].status in {Open, Uncollectible} ==> v == w.(invoices := w.invoices[i := w.invoices[i].(status := Paid)])
            case WriteOff(i) =>
              i < |w.invoices| && w.invoices[i].status == Open ==> v == w.(invoices := w.invoices[i := w.invoices[i].(status := Uncollectible)])
            case VoidIt(i) =>
              i < |w.invoices| && w.invoices[i].status in {Open, Uncollectible} ==> v == w.(invoices := w.invoices[i := w.invoices[i].(status := Void)])
            case DeleteDraft(i) =>
              i < |w.invoices| && w.invoices[i].status == Draft ==> v == w.(invoices := w.invoices[i := w.invoices[i].(status := Deleted)])
            case Expire(key) => v == w.(keys := w.keys - {key})
            case Release(k) =>
              k in w.ledger && w.ledger[k].state == Held ==>
                && k in v.ledger && v.ledger[k].state == Claimed && k.account !in v.wakes
                && v == w.(ledger := w.ledger[k := w.ledger[k].(state := Claimed)], wakes := w.wakes - {k.account})
            case RecordManual(k) =>
              k in w.ledger && w.ledger[k].state == Held ==> v == w.(ledger := w.ledger[k := w.ledger[k].(state := Manual)])
            case PortalMakes(account) =>
              CustomerKey(account) !in w.keys ==> v == w.(made := w.made + 1, keys := w.keys[CustomerKey(account) := w.made])
            case PortalStores(account, customer) =>
              account in v.customers && (account !in w.customers ==> v == w.(customers := w.customers[account := customer]))
            case MakeByHand(customer, status) => v == w.(invoices := w.invoices + [Invoice(None, customer, status, [])])
    ensures o.Release? || o.RecordManual? ==>
              (o.k !in w.ledger || w.ledger[o.k].state != Held ==> Other(w, o) == w)
  {
  }

  /** Nor do they have Stripe email anything. */
  lemma {:induction false} OthersNeverMail(w: World, steps: seq<Outside>)
    ensures Others(w, steps).emailed == w.emailed
  {
    hide Other;
    if steps != [] {
      OthersNeverMail(w, steps[..|steps| - 1]);
      OtherNeverMails(Others(w, steps[..|steps| - 1]), steps[|steps| - 1]);
    }
  }

  lemma OtherNeverMails(w: World, o: Outside)
    ensures Other(w, o).emailed == w.emailed
  {
  }

  lemma NothingDone(w: World)
    ensures LegalStep(w, w) && Around(w, w)
  {
  }

  lemma ManualKeeps(w: World, k: Key)
    requires Inv(w) && k in w.ledger && w.ledger[k].state == Held
    ensures var w' := SetState(w, k, Manual); Inv(w') && LegalStep(w, w') && Around(w, w')
  {
    hide Inv;
    SetStateKeeps(w, k, Manual);
  }

  /** Nor does anything they do give a period a second live invoice. */
  lemma OtherKeepsOne(w: World, o: Outside)
    requires Inv(w) && OneLive(w)
    ensures OneLive(Other(w, o))
  {
    hide Inv, Other;
    OtherKeeps(w, o);
    NoneRevived(w, Other(w, o));
  }

  lemma ByHandKeeps(w: World, customer: nat, status: Status)
    requires Inv(w)
    ensures Inv(ByHand(w, customer, status)) && LegalStep(w, ByHand(w, customer, status)) && Around(w, ByHand(w, customer, status))
  {
    hide Subtotal, OurLines;
    var w' := ByHand(w, customer, status);
    forall i | 0 <= i < |w'.invoices| ensures Placed(w', i) { if i < |w.invoices| { assert Placed(w, i); } }
    forall j | j in w'.ledger ensures Backed(w', j) { assert Backed(w, j); }
    forall key | key in w'.keys ensures Kept(w', key) { assert Kept(w, key); }
  }

  /** Others never give a period a second live invoice: a write that makes none of the
      dead ones live, and no new one of a period, does not. */
  lemma NoneRevived(v: World, w: World)
    requires OneLive(v) && |v.invoices| <= |w.invoices|
    requires forall i :: 0 <= i < |v.invoices| ==> w.invoices[i].key == v.invoices[i].key && (w.invoices[i].Live() ==> v.invoices[i].Live())
    requires forall i :: |v.invoices| <= i < |w.invoices| ==> w.invoices[i].key == None
    ensures OneLive(w)
  {
  }

  lemma ReleaseKeeps(w: World, k: Key)
    requires Inv(w) && k in w.ledger && w.ledger[k].state == Held
    ensures var w' := SetState(w, k, Claimed).(wakes := w.wakes - {k.account}); Inv(w') && LegalStep(w, w') && Around(w, w')
  {
    hide Inv;
    SetStateKeeps(w, k, Claimed);
    WakesKeep(SetState(w, k, Claimed), w.wakes - {k.account});
  }

  lemma ExpireKeeps(w: World, key: Idempotency)
    requires Inv(w)
    ensures var w' := w.(keys := w.keys - {key}); Inv(w') && LegalStep(w, w') && Around(w, w')
  {
    hide Subtotal, OurLines;
    var w' := w.(keys := w.keys - {key});
    forall i | 0 <= i < |w'.invoices| ensures Placed(w', i) { assert Placed(w, i); }
    forall j | j in w'.ledger ensures Backed(w', j) { assert Backed(w, j); }
    forall other | other in w'.keys ensures Kept(w', other) { assert Kept(w, other); }
  }

  lemma MadeAround(w: World, account: nat)
    ensures Around(w, MakeCustomer(w, account).0)
  {
  }

  lemma StoredAround(w: World, account: nat, customer: nat)
    ensures Around(w, SetCustomer(w, account, customer))
  {
  }

  lemma PersonAddsKeeps(w: World, i: nat, cents: int)
    requires Inv(w)
    ensures Inv(PersonAdds(w, i, cents)) && LegalStep(w, PersonAdds(w, i, cents))
  {
    var w' := PersonAdds(w, i, cents);
    if w' != w {
      LinesAppend(w.invoices[i].lines, Line(false, cents));
      hide Subtotal, OurLines;
      forall j | 0 <= j < |w'.invoices| ensures Placed(w', j) { assert Placed(w, j); }
      forall j | j in w'.ledger ensures Backed(w', j) { assert Backed(w, j); }
      forall key | key in w'.keys ensures Kept(w', key) { assert Kept(w, key); }
    }
  }

  lemma AroundTrans(u: World, v: World, w: World)
    requires Around(u, v) && Around(v, w)
    ensures Around(u, w)
  {
  }

  // ------------------------------------------------------------- the list's first page

  const PAGE := 100

  /** Invoices of a customer made after position `i` and not deleted since. */
  function Newer(invoices: seq<Invoice>, customer: nat, i: nat): nat
    requires i <= |invoices|
    decreases |invoices| - i
  {
    if i == |invoices| then 0
    else
      var inv := invoices[i];
      (if inv.customer == customer && inv.status != Deleted then 1 else 0) + Newer(invoices, customer, i + 1)
  }

  /** The invoice is on the first page of its customer's list, newest first. */
  predicate Listed(w: World, customer: nat, i: nat)
    requires i < |w.invoices|
  {
    w.invoices[i].customer == customer && w.invoices[i].status != Deleted && Newer(w.invoices, customer, i + 1) < PAGE
  }

  /** An invoice is listed exactly when it is the customer's, not deleted, and fewer than a
      hundred that are were made after it. */
  lemma ListedIff(w: World, customer: nat, i: nat)
    requires i < |w.invoices|
    ensures Listed(w, customer, i) <==>
            && w.invoices[i].customer == customer && w.invoices[i].status != Deleted
            && |set j | i < j < |w.invoices| && w.invoices[j].customer == customer && w.invoices[j].status != Deleted| < 100
  {
    NewerIs(w.invoices, customer, i + 1);
    assert (set j | i < j < |w.invoices| && w.invoices[j].customer == customer && w.invoices[j].status != Deleted)
           == (set j | i + 1 <= j < |w.invoices| && w.invoices[j].customer == customer && w.invoices[j].status != Deleted);
  }

  lemma {:induction false} NewerIs(invoices: seq<Invoice>, customer: nat, i: nat)
    requires i <= |invoices|
    ensures Newer(invoices, customer, i) == |set j | i <= j < |invoices| && invoices[j].customer == customer && invoices[j].status != Deleted|
    decreases |invoices| - i
  {
    var all := set j | i <= j < |invoices| && invoices[j].customer == customer && invoices[j].status != Deleted;
    if i == |invoices| {
      assert all == {};
    } else {
      NewerIs(invoices, customer, i + 1);
      var rest := set j | i + 1 <= j < |invoices| && invoices[j].customer == customer && invoices[j].status != Deleted;
      if invoices[i].customer == customer && invoices[i].status != Deleted { assert all == rest + {i}; } else { assert all == rest; }
    }
  }

  /** The first draft or open invoice of the period that the page shows. */
  function Adoptable(w: World, k: Key, customer: nat, from: nat): Option<nat>
    requires from <= |w.invoices|
    decreases from
  {
    if from == 0 then None
    else
      var inv := w.invoices[from - 1];
      if Listed(w, customer, from - 1) && (inv.status == Draft || inv.status == Open) && inv.key == Some(k) then Some(from - 1)
      else Adoptable(w, k, customer, from - 1)
  }

  lemma {:induction false} AdoptableIs(w: World, k: Key, customer: nat, from: nat)
    requires from <= |w.invoices|
    ensures var r := Adoptable(w, k, customer, from);
            && (r.Some? ==>
                  && r.value < from && w.invoices[r.value].key == Some(k) && Listed(w, customer, r.value)
                  && (w.invoices[r.value].status == Draft || w.invoices[r.value].status == Open))
            && (r.Some? ==> forall i :: r.value < i < from && w.invoices[i].key == Some(k) && Listed(w, customer, i) ==>
                  w.invoices[i].status != Draft && w.invoices[i].status != Open)
            && (r.None? ==> forall i :: 0 <= i < from && w.invoices[i].key == Some(k) && Listed(w, customer, i) ==>
                  w.invoices[i].status != Draft && w.invoices[i].status != Open)
  {
    if from > 0 { AdoptableIs(w, k, customer, from - 1); }
  }

  /** The live invoice of a period with none stored, if it has one, is a draft whose
      create lost its answer. */
  lemma UnstoredIsDraft(w: World, k: Key, i: nat)
    requires Inv(w) && k in w.ledger && w.ledger[k].invoice == None
    requires i < |w.invoices| && w.invoices[i].key == Some(k) && w.invoices[i].Live()
    ensures w.invoices[i].status == Draft && k.account in w.customers && w.invoices[i].customer == w.customers[k.account]
    ensures OurLines(w.invoices[i].lines) == 0
  {
    assert Placed(w, i);
  }

  /** A draft of a period whose row stores none, with a full page of newer invoices. */
  ghost predicate IsOffThePage(w: World, i: nat)
    requires i < |w.invoices|
  {
    var inv := w.invoices[i];
    && inv.status == Draft && inv.key.Some? && inv.key.value in w.ledger && w.ledger[inv.key.value].invoice == None
    && Newer(w.invoices, inv.customer, i + 1) >= PAGE
  }

  /** When the list shows nothing to adopt, a create makes a second live invoice if and
      only if its key has expired and a first one, a draft, is off the page. */
  lemma SecondInvoiceIff(w: World, k: Key, customer: nat)
    requires Inv(w) && OneLive(w) && k in w.ledger && w.ledger[k].invoice == None
    requires k.account in w.customers && customer == w.customers[k.account]
    requires Adoptable(w, k, customer, |w.invoices|).None?
    ensures !OneLive(MakeInvoice(w, k, customer).0) <==>
            InvoiceKey(k) !in w.keys
            && exists i :: 0 <= i < |w.invoices| && w.invoices[i].key == Some(k) && IsOffThePage(w, i)
  {
    var w' := MakeInvoice(w, k, customer).0;
    var n := |w.invoices|;
    AdoptableIs(w, k, customer, n);
    if InvoiceKey(k) !in w.keys {
      assert w'.invoices[n] == Invoice(Some(k), customer, Draft, []);
      forall i | 0 <= i < n ensures w'.invoices[i] == w.invoices[i] {}
      if i :| 0 <= i < n && w.invoices[i].key == Some(k) && w.invoices[i].Live() {
        UnstoredIsDraft(w, k, i);
        assert !Listed(w, customer, i);
        assert IsOffThePage(w, i);
        assert w'.invoices[i].Live() && w'.invoices[n].Live();
      }
    }
  }

  // ------------------------------------------------------------ a world where it does

  /** A claimed period whose first draft lost its answer and its key, and `n` invoices
      that an operator made by hand for the same customer since. */
  function Crowd(n: nat): World {
    World(map[Key(0, Billing.YearId(0)) := Row(22_000, Claimed, None)], map[0 := 0], map[],
          [Invoice(Some(Key(0, Billing.YearId(0))), 0, Draft, [])] + seq(n, (_: nat) => Invoice(None, 0, Open, [])),
          1, map[CustomerKey(0) := 0], {})
  }

  /** A full page of them. */
  function Crowded(): World { Crowd(PAGE) }

  /** The key expires, and the operator makes them. */
  function Crowding(n: nat): seq<Outside> {
    [Expire(InvoiceKey(Key(0, Billing.YearId(0))))] + seq(n, (_: nat) => MakeByHand(0, Open))
  }

  lemma {:induction false} CrowdComes(w: World, n: nat)
    requires w == Crowd(0).(keys := map[CustomerKey(0) := 0, InvoiceKey(Key(0, Billing.YearId(0))) := 0])
    ensures Others(w, Crowding(n)) == Crowd(n)
  {
    var steps := Crowding(n);
    if n == 0 {
      assert steps[..0] == [];
      assert w.keys - {InvoiceKey(Key(0, Billing.YearId(0)))} == map[CustomerKey(0) := 0];
    } else {
      assert steps[..|steps| - 1] == Crowding(n - 1);
      CrowdComes(w, n - 1);
      assert Crowd(n).invoices == Crowd(n - 1).invoices + [Invoice(None, 0, Open, [])];
    }
  }

  lemma {:induction false} CrowdIsNewer(n: nat)
    requires 1 <= n <= PAGE + 1
    ensures Newer(Crowded().invoices, 0, n) == PAGE + 1 - n
    decreases PAGE + 1 - n
  {
    if n <= PAGE {
      assert Crowded().invoices[n] == Invoice(None, 0, Open, []);
      CrowdIsNewer(n + 1);
    }
  }

  lemma {:induction false} NoneToAdopt(from: nat)
    requires from <= PAGE + 1
    ensures Adoptable(Crowded(), Key(0, Billing.YearId(0)), 0, from) == None
  {
    CrowdIsNewer(1);
    if from > 0 { NoneToAdopt(from - 1); }
  }

  /** There it does: the list shows nothing, and the create makes a second draft. */
  lemma SecondInvoiceHappens()
    ensures var w, k := Crowded(), Key(0, Billing.YearId(0));
            && Inv(w) && OneLive(w) && Adoptable(w, k, 0, |w.invoices|).None?
            && !OneLive(MakeInvoice(w, k, 0).0)
  {
    hide Newer, Adoptable;
    var w, k := Crowded(), Key(0, Billing.YearId(0));
    NoneToAdopt(PAGE + 1);
    CrowdIsNewer(1);
    assert w.invoices[0] == Invoice(Some(k), 0, Draft, []);
    forall i | 0 < i < |w.invoices| ensures w.invoices[i] == Invoice(None, 0, Open, []) {}
    forall i | 0 <= i < |w.invoices| ensures Placed(w, i) {}
    assert IsOffThePage(w, 0);
    SecondInvoiceIff(w, k, 0);
  }
}
