/** The invoice pass: one period from its claim to sent, one account, every account,
    with every call able to fail, to lose its answer, or to be the process's last. */
module Invoices {
  import opened Basics
  import opened Stripe
  import opened Calls

  /** One process and the world around it. `script` is how its next calls go; once it
      is used up, every call is answered and nobody interferes. */
  class Provisioner {
    var w: World
    var script: seq<Turn>
    ghost var trail: seq<World>
    /** Every call that it tried. */
    ghost var calls: seq<Call>

    ghost predicate Sane()
      reads this
    {
      trail != [] && trail[|trail| - 1] == w && Legal(trail)
    }

    constructor ()
      ensures Sane() && w == World(map[], map[], map[], [], 0, map[], {}) && script == [] && trail == [w]
    {
      w, script := World(map[], map[], map[], [], 0, map[], {}), [];
      trail, calls := [World(map[], map[], map[], [], 0, map[], {})], [];
      new;
      assert trail[..0] == [];
    }

    lemma SaneWorld()
      requires Sane()
      ensures Inv(w)
    {
      hide Inv, LegalStep;
      LegalAt(trail, |trail| - 1);
    }

    /** One write. */
    method Write(v: World)
      requires Sane() && Inv(v) && Goes(trail, v)
      modifies this`w, this`trail
      ensures Sane() && w == v && trail == old(trail) + [v]
    {
      hide Inv, Goes, Legal;
      LegalGrows(trail, v);
      w, trail := v, trail + [v];
    }

    /** What others do before the next call, and how that call goes. */
    method Take() returns (answer: Answer)
      requires Sane()
      modifies this
      ensures Sane() && Around(old(w), w) && old(trail) <= trail && calls == old(calls)
      ensures script == Rest(old(script)) && answer == NextTurn(old(script)).answer
      ensures w == Others(old(w), NextTurn(old(script)).before)
    {
      hide Inv, LegalStep, OneLive, Legal, Other;
      AroundSelf(w);
      if script == [] { return Answered; }
      var turn := script[0];
      script := script[1..];
      answer := turn.answer;
      for i := 0 to |turn.before|
        invariant Sane() && Around(old(w), w) && old(trail) <= trail && calls == old(calls)
        invariant w == Others(old(w), turn.before[..i]) && script == old(script)[1..]
      {
        assert turn.before[..i + 1][..i] == turn.before[..i];
        SaneWorld();
        OtherKeeps(w, turn.before[i]);
        if OneLive(w) { OtherKeepsOne(w, turn.before[i]); }
        AroundTrans(old(w), w, Other(w, turn.before[i]));
        Write(Other(w, turn.before[i]));
      }
      assert turn.before[..|turn.before|] == turn.before;
    }

    /** A call: `at` is the world it reaches. A create is called after a list that does
        not show the period's draft. */
    method Do(op: Op) returns (r: Step<nat>, ghost at: World)
      requires Sane() && Allowed(w, op) && (op.NewInvoice? ==> Unlisted(w, op.key))
      modifies this
      ensures Sane() && old(trail) <= trail && calls == old(calls) + [Call(op, r)]
      ensures Inv(at) && Around(old(w), at) && Allowed(at, op)
      ensures w == at || (Effect(at, op).Some? && w == Effect(at, op).value.0)
      ensures script == Rest(old(script)) && at == Others(old(w), NextTurn(old(script)).before) && Fits(at, op)
      ensures w == Left(at, op, NextTurn(old(script)).answer) && r == Reply(at, op, NextTurn(old(script)).answer)
      ensures exists n: nat :: |old(trail)| - 1 <= n < |trail| && trail[n] == at
      ensures w.emailed == old(w).emailed || (op.SendIt? && w.emailed == old(w).emailed + {op.i})
      ensures r.Ok? ==> Effect(at, op) == Some((w, r.value))
      ensures !r.Threw?
      ensures !op.NewItem? && !op.FinalizeIt? ==> Effect(at, op).Some?
      ensures old(script) == [] ==>
                && script == [] && at == old(w)
                && (if Effect(at, op).Some? then r.Ok? else r == Failed(true) && w == at)
    {
      hide Inv, LegalStep, OneLive, Misled, Legal, Around, Effect, Allowed, Unlisted;
      var answer := Take();
      at := w;
      ghost var reached: nat := |trail| - 1;
      assert trail[reached] == at;
      OthersNeverMail(old(w), NextTurn(old(script)).before);
      AllowedStays(old(w), w, op);
      SaneWorld();
      assert Fits(w, op) by { AllowedFits(w, op); }
      if !op.NewItem? && !op.FinalizeIt? { AlwaysApplies(w, op); }
      if answer == CrashBefore {
        r := Crashed;
      } else if answer == Dropped {
        r := Failed(false);
      } else if answer == Refused {
        r := Failed(true);
      } else {
        r := Apply(op, answer, |old(trail)| - 1);
        assert trail[reached] == at;
      }
      calls := calls + [Call(op, r)];
    }

    /** The call reaches the world. */
    method Apply(op: Op, answer: Answer, ghost m: nat) returns (r: Step<nat>)
      requires Sane() && Allowed(w, op) && Fits(w, op) && answer in {Answered, Lost, CrashAfter}
      requires m < |trail| && Around(trail[m], w) && (op.NewInvoice? ==> Unlisted(trail[m], op.key))
      modifies this`w, this`trail
      ensures Sane() && old(trail) <= trail
      ensures w == Left(old(w), op, answer) && r == Reply(old(w), op, answer)
      ensures w == old(w) || (Effect(old(w), op).Some? && w == Effect(old(w), op).value.0)
      ensures w.emailed == old(w).emailed || (op.SendIt? && w.emailed == old(w).emailed + {op.i})
    {
      hide Inv, LegalStep, OneLive, Misled, Legal, Around, Effect, Allowed, Unlisted;
      SaneWorld();
      var made := Effect(w, op);
      EffectKeeps(w, op);
      if made.Some? {
        OnlySendMails(w, op);
        if OneLive(w) { EffectGoes(trail, m, op); }
        Write(made.value.0);
      }
      if answer == CrashAfter { return Crashed; }
      if answer == Lost { return Failed(false); }
      r := if made.Some? then Ok(made.value.1) else Failed(true);
    }

    /** A call of the database: any failure is an exception. */
    method Save(op: Op) returns (r: Step<nat>, ghost at: World)
      requires Sane() && Allowed(w, op) && !op.NewInvoice? && !op.NewItem? && !op.FinalizeIt?
      modifies this
      ensures Sane() && old(trail) <= trail && old(calls) <= calls
      ensures |calls| == |old(calls)| + 1 && calls[|old(calls)|].op == op && (r.Ok? ==> calls[|old(calls)|].reply == r)
      ensures Inv(at) && Around(old(w), at) && Allowed(at, op)
      ensures Effect(at, op).Some? && (w == at || w == Effect(at, op).value.0)
      ensures r.Ok? ==> Effect(at, op) == Some((w, r.value))
      ensures !r.Failed? && (!op.SendIt? ==> w.emailed == old(w).emailed)
      ensures old(script) == [] ==> script == [] && at == old(w) && r.Ok?
    {
      hide Inv, LegalStep, Legal, Around, Effect, Allowed;
      r, at := Do(op);
      if r.Failed? { r := Threw; }
    }

    // ----------------------------------------------------------------- the customer

    /** The account's one stored customer, made when there is none. */
    method EnsureCustomer(account: nat) returns (r: Step<nat>)
      requires Sane()
      modifies this
      ensures Sane() && old(trail) <= trail && old(calls) <= calls && Around(old(w), w)
      ensures r.Ok? ==> account in w.customers && r.value == w.customers[account]
      ensures r.Failed? ==> |calls| > |old(calls)| && calls[|calls| - 1].reply == Failed(r.refused)
      ensures w.emailed == old(w).emailed
      ensures old(script) == [] ==> script == [] && r.Ok? && SameBut(old(w), w)
    {
      hide Inv, LegalStep, Legal, Effect, Around, SameBut;
      ghost var before, at, quiet := w, w, script == [];
      AroundSelf(w);
      SameSelf(w);
      r, at := Save(Look);
      CustomerAround(before, before, at, w, Look);
      if quiet { CustomerSame(before, at, w, Look); }
      if !r.Ok? { return; }
      if account in w.customers { return Ok(w.customers[account]); }
      ghost var prior := w;
      r, at := Do(NewCustomer(account));
      CustomerAround(before, prior, at, w, NewCustomer(account));
      if quiet { CustomerSame(before, at, w, NewCustomer(account)); }
      if !r.Ok? { return; }
      var made := r.value;
      prior := w;
      r, at := Save(KeepCustomer(account, made));
      CustomerAround(before, prior, at, w, KeepCustomer(account, made));
      if quiet { CustomerSame(before, at, w, KeepCustomer(account, made)); }
      if !r.Ok? { return; }
      CustomerIsKept(at, account, made);
      prior := w;
      r, at := Save(Look);
      CustomerAround(before, prior, at, w, Look);
      if quiet { CustomerSame(before, at, w, Look); }
      CustomerStays(prior, at, account);
      LookReads(at, w);
      if r.Ok? { r := Ok(if account in w.customers then w.customers[account] else made); }
    }

    // ----------------------------------------------------------- the period's invoice

    method GetInvoice(i: nat) returns (r: Step<View>)
      requires Sane() && i < |w.invoices|
      modifies this
      ensures Sane() && old(trail) <= trail && old(calls) <= calls && Around(old(w), w) && i < |w.invoices| && w.emailed == old(w).emailed
      ensures r.Ok? ==> r.value == ViewOf(w, i) && Current(w, r.value)
      ensures !r.Threw? && |calls| == |old(calls)| + 1
      ensures r.Failed? ==> calls[|calls| - 1].reply == Failed(r.refused) || (r.refused && w.invoices[i].status == Deleted)
      ensures old(script) == [] ==>
                script == [] && w == old(w) && r == if w.invoices[i].status == Deleted then Failed(true) else Ok(ViewOf(w, i))
    {
      hide Inv, LegalStep, Legal, Effect, Subtotal;
      var got, at := Do(Look);
      LookReads(at, w);
      match got
      case Failed(refused) => return Failed(refused);
      case Crashed => return Crashed;
      case Ok(_) =>
        if w.invoices[i].status == Deleted { return Failed(true); }
        ViewIsFresh(w, i);
        r := Ok(ViewOf(w, i));
    }

    /** The list's first page, newest first, for a draft or open invoice of the period. */
    method FirstAdoptable(k: Key, customer: nat) returns (found: Option<nat>)
      ensures found == Adoptable(w, k, customer, |w.invoices|)
    {
      var i: nat := |w.invoices|;
      while i > 0
        invariant i <= |w.invoices|
        invariant Adoptable(w, k, customer, |w.invoices|) == Adoptable(w, k, customer, i)
      {
        i := i - 1;
        var inv := w.invoices[i];
        if Listed(w, customer, i) && (inv.status == Draft || inv.status == Open) && inv.key == Some(k) { return Some(i); }
      }
      found := None;
    }

    /** The stored invoice, or one that the list shows, or a new draft; stored before
        anything is done to it. */
    method InvoiceFor(k: Key, customer: nat, row: Row) returns (r: Step<View>)
      requires Sane() && k in w.ledger && w.ledger[k] == row && row.state != Held
      requires k.account in w.customers && customer == w.customers[k.account]
      modifies this
      ensures Sane() && old(trail) <= trail && old(calls) <= calls && Beside(old(w), w, k, old(script) == []) && w.emailed == old(w).emailed
      ensures w.ledger[k].state == row.state
      ensures r.Ok? ==> Mine(w, k, row, r.value.id) && Readable(w, r.value)
      ensures Because(r, w, k, calls, |old(calls)|)
      ensures k in old(w).ledger && (row.invoice.Some? ==> row.invoice.value < |old(w).invoices|)
      ensures old(script) == [] ==> script == [] && (w, r) == InvoiceAlone(old(w), k, customer)
    {
      hide Inv, LegalStep, Legal, Effect, Subtotal, OurLines, Adoptable, Around, Allowed, MakeInvoice, SetInvoice, Left, Reply, Others,
           Current, AsMade;
      SaneWorld();
      StoredOnce(w, k, row);
      if row.invoice.Some? {
        r := GetInvoice(row.invoice.value);
        AroundBeside(old(w), w, k, old(script) == []);
        RowStays(old(w), w, k);
        MineStays(old(w), w, k, row, row.invoice.value);
        if r.Ok? { ReadableNow(w, row.invoice.value); }
        return;
      }
      LookFits(w);
      var listed, at := Do(Look);
      LookReads(at, w);
      AroundBeside(old(w), w, k, old(script) == []);
      RowStays(old(w), w, k);
      CustomerStays(old(w), w, k.account);
      match listed
      case Failed(refused) => return Failed(refused);
      case Crashed => return Crashed;
      case Ok(_) =>
        var found := FirstAdoptable(k, customer);
        ListShows(w, k, customer);
        r := Place(k, customer, row, found);
    }

    /** Adopts what was found, or makes a draft, and stores it. */
    method Place(k: Key, customer: nat, row: Row, found: Option<nat>) returns (r: Step<View>)
      requires Sane() && k in w.ledger && w.ledger[k] == row && row.state != Held && row.invoice == None
      requires k.account in w.customers && customer == w.customers[k.account]
      requires found == Adoptable(w, k, customer, |w.invoices|)
      requires found.Some? ==> found.value < |w.invoices| && Current(w, ViewOf(w, found.value)) && Allowed(w, KeepInvoice(k, found.value))
      requires found.None? ==> Allowed(w, NewInvoice(k, customer)) && Unlisted(w, k)
      modifies this
      ensures Sane() && old(trail) <= trail && old(calls) <= calls && Beside(old(w), w, k, old(script) == []) && w.emailed == old(w).emailed
      ensures w.ledger[k].state == row.state
      ensures r.Ok? ==> Mine(w, k, row, r.value.id) && Readable(w, r.value)
      ensures Because(r, w, k, calls, |old(calls)|)
      ensures old(script) == [] ==> script == [] && (w, r) == InvoiceAlone(old(w), k, customer)
    {
      hide Inv, LegalStep, Legal, Effect, Subtotal, OurLines, Adoptable, Around, Allowed, Current, AsMade, Unlisted,
           Mine, Beside, MakeInvoice, SetInvoice, Readable;
      ghost var before, quiet := w, script == [];
      if found.Some? {
        SaneWorld();
        FoundIsReadable(w, k, row, customer);
        r := Store(k, row, ViewOf(w, found.value));
        return;
      }
      var made := MakeDraft(k, customer, row);
      match made
      case Failed(refused) => r := Failed(refused);
      case Crashed => r := Crashed;
      case Ok(i) =>
        ghost var prior, alone := w, script == [];
        r := Store(k, row, View(i, Draft, 0, 0));
        BesideTrans(before, prior, w, k, quiet, alone);
    }

    /** The create. */
    method MakeDraft(k: Key, customer: nat, row: Row) returns (r: Step<nat>)
      requires Sane() && k in w.ledger && w.ledger[k] == row && row.state != Held && row.invoice == None
      requires Allowed(w, NewInvoice(k, customer)) && Unlisted(w, k)
      modifies this
      ensures Sane() && old(trail) <= trail && old(calls) <= calls && Beside(old(w), w, k, old(script) == []) && w.emailed == old(w).emailed
      ensures k in w.ledger && w.ledger[k] == row && !r.Threw?
      ensures r.Failed? ==> |calls| > |old(calls)| && calls[|calls| - 1].reply == Failed(r.refused)
      ensures r.Ok? ==> Allowed(w, KeepInvoice(k, r.value)) && Readable(w, View(r.value, Draft, 0, 0))
      ensures old(script) == [] ==> script == [] && r.Ok? && (w, r.value) == MakeInvoice(old(w), k, customer)
    {
      hide Inv, LegalStep, Legal, Effect, Around, Allowed, AsMade, Unlisted, Left, Reply, Others, MakeInvoice;
      ghost var before, at := w, w;
      r, at := Do(NewInvoice(k, customer));
      AroundBeside(before, at, k, old(script) == []);
      RowStays(before, at, k);
      MakingKeepsTheRow(at, w, k, customer);
      BesideTrans(before, at, w, k, old(script) == [], true);
      MakingIs(at, k, customer);
      if r.Ok? {
        MadeIsKept(at, w, k, customer, r.value);
        SaneWorld();
        MadeIsUnfinal(w, k, r.value);
      }
    }

    /** The invoice goes into its row. */
    method Store(k: Key, row: Row, view: View) returns (r: Step<View>)
      requires Sane() && k in w.ledger && w.ledger[k] == row && row.state != Held && row.invoice == None
      requires Allowed(w, KeepInvoice(k, view.id)) && Readable(w, view) && view.status == Draft
      modifies this
      ensures Sane() && old(trail) <= trail && old(calls) <= calls && Beside(old(w), w, k, old(script) == []) && w.emailed == old(w).emailed
      ensures k in w.ledger && w.ledger[k].state == row.state && !r.Failed?
      ensures r.Ok? ==> r.value == view && Mine(w, k, row, view.id) && Readable(w, view)
      ensures old(script) == [] ==> script == [] && r == Ok(view) && w == SetInvoice(old(w), k, view.id)
    {
      hide Inv, LegalStep, Legal, Effect, Around, Allowed, Current, AsMade, Left, Reply, Others, Subtotal, OurLines;
      ghost var before := w;
      var kept, at := Save(KeepInvoice(k, view.id));
      AroundBeside(before, at, k, old(script) == []);
      RowStays(before, at, k);
      ViewStays(before, at, view);
      UnfinalStays(before, at, view.id);
      KeepingKeepsTheRow(at, w, k, view.id);
      BesideTrans(before, at, w, k, old(script) == [], true);
      if kept.Crashed? { return Crashed; }
      if kept.Threw? { return Threw; }
      KeptIsMine(at, w, k, row, view);
      KeepingIs(at, k, view.id);
      r := Ok(view);
    }

    // ---------------------------------------------------------- one claimed period

    method HoldRow(k: Key) returns (o: Step<Outcome>)
      requires Sane() && k in w.ledger && (w.ledger[k].state == Claimed || w.ledger[k].state == Finalized)
      modifies this
      ensures Sane() && old(trail) <= trail && old(calls) <= calls && Beside(old(w), w, k, old(script) == []) && w.emailed == old(w).emailed
      ensures o.Ok? ==> o.value == WasHeld && End(w, k, WasHeld)
      ensures !o.Failed? && |calls| == |old(calls)| + 1
      ensures old(script) == [] ==> script == [] && o.Ok?
    {
      hide Inv, LegalStep, Legal, Effect, Around, Allowed;
      HoldAllowed(w, k);
      var r, at := Save(MoveRow(k, Held));
      AroundBeside(old(w), at, k, old(script) == []);
      MoveIs(at, w, k, Held);
      o := if r.Ok? then Ok(WasHeld) else if r.Crashed? then Crashed else Threw;
    }

    /** A refusal that would repeat holds the period; any other failure waits. */
    method Fail<T>(k: Key, r: Step<T>) returns (o: Step<Outcome>)
      requires Sane() && k in w.ledger && (w.ledger[k].state == Claimed || w.ledger[k].state == Finalized)
      requires !r.Ok?
      modifies this
      ensures Sane() && old(trail) <= trail && old(calls) <= calls && Beside(old(w), w, k, old(script) == []) && w.emailed == old(w).emailed
      ensures o.Ok? ==> End(w, k, o.value) && o.value != WasSent
      ensures r == Failed(false) ==> o == Ok(WasFailed) && calls == old(calls)
      ensures o.Ok? && o.value == WasFailed ==> r == Failed(false)
      ensures o.Ok? && o.value == WasHeld ==> r == Failed(true) && |calls| == |old(calls)| + 1
      ensures !o.Failed?
      ensures old(script) == [] ==>
                script == [] && o == match r case Failed(refused) => Ok(if refused then WasHeld else WasFailed)
                                     case Threw => Threw case Crashed => Crashed
    {
      hide Inv, LegalStep, Legal;
      match r
      case Failed(refused) =>
        if refused { o := HoldRow(k); } else { o := Ok(WasFailed); }
      case Threw => o := Threw;
      case Crashed => o := Crashed;
    }

    method MarkSent(k: Key, row: Row, i: nat) returns (o: Step<Outcome>)
      requires Sane() && Mine(w, k, row, i) && row.state == Finalized && w.invoices[i].WasFinalized()
      requires i in w.emailed || w.invoices[i].status == Paid
      modifies this
      ensures Sane() && old(trail) <= trail && old(calls) <= calls && Beside(old(w), w, k, old(script) == []) && w.emailed == old(w).emailed
      ensures o.Ok? ==> o.value == WasSent && End(w, k, WasSent)
      ensures !o.Failed?
      ensures old(script) == [] ==> script == [] && o.Ok?
    {
      hide Inv, LegalStep, Legal, Effect, Around;
      var r, at := Save(MoveRow(k, Sent));
      AroundBeside(old(w), at, k, old(script) == []);
      MoveIs(at, w, k, Sent);
      o := if r.Ok? then Ok(WasSent) else if r.Crashed? then Crashed else Threw;
    }

    /** The row is marked finalized, if it is not yet. */
    method MarkFinalized(k: Key, row: Row, i: nat) returns (r: Step<()>)
      requires Sane() && Mine(w, k, row, i) && w.invoices[i].WasFinalized()
      requires row.state == Claimed || row.state == Finalized
      modifies this
      ensures Sane() && old(trail) <= trail && old(calls) <= calls && Beside(old(w), w, k, old(script) == []) && w.emailed == old(w).emailed
      ensures r.Ok? ==> Mine(w, k, row.(state := Finalized), i) && w.invoices[i].WasFinalized()
      ensures !r.Failed?
      ensures old(script) == [] ==> script == [] && r.Ok?
    {
      hide Inv, LegalStep, Legal, Effect, Around, Beside;
      ghost var before := w;
      BesideSelf(w, k, old(script) == []);
      if row.state == Finalized { return Ok(()); }
      var s, at := Save(MoveRow(k, Finalized));
      AroundBeside(before, at, k, old(script) == []);
      MineStays(before, at, k, row, i);
      FinalizedStays(before, at, i);
      MoveIs(at, w, k, Finalized);
      BesideTrans(before, at, w, k, old(script) == [], true);
      r := if s.Ok? then Ok(()) else if s.Crashed? then Crashed else Threw;
    }

    /** A finalized invoice: marked so, sent, and marked sent. */
    method Deliver(k: Key, row: Row, i: nat) returns (o: Step<Outcome>)
      requires Sane() && Mine(w, k, row, i) && w.invoices[i].WasFinalized()
      requires row.state == Claimed || row.state == Finalized
      modifies this
      ensures Sane() && old(trail) <= trail && old(calls) <= calls && Beside(old(w), w, k, old(script) == [])
      ensures EndsWell(o, k, trail, |old(trail)| - 1, calls, |old(calls)|)
      ensures o.Ok? ==> End(w, k, o.value)
      ensures !o.Failed? && (w.emailed == old(w).emailed || w.emailed == old(w).emailed + {i})
      ensures old(script) == [] ==> script == [] && o == Ok(WasSent)
    {
      hide Inv, LegalStep, Legal, Effect, Around, Beside, Allowed;
      ghost var before, quiet := w, script == [];
      var marked := MarkFinalized(k, row, i);
      if marked.Crashed? { return Crashed; }
      if marked.Threw? { return Threw; }
      ghost var prior, alone := w, script == [];
      o := Send(k, row.(state := Finalized), i);
      BesideTrans(before, prior, w, k, quiet, alone);
    }

    method Send(k: Key, row: Row, i: nat) returns (o: Step<Outcome>)
      requires Sane() && Mine(w, k, row, i) && w.invoices[i].WasFinalized() && row.state == Finalized
      modifies this
      ensures Sane() && old(trail) <= trail && old(calls) <= calls && Beside(old(w), w, k, old(script) == [])
      ensures EndsWell(o, k, trail, |old(trail)| - 1, calls, |old(calls)|)
      ensures o.Ok? ==> End(w, k, o.value)
      ensures !o.Failed? && (w.emailed == old(w).emailed || w.emailed == old(w).emailed + {i})
      ensures old(script) == [] ==> script == [] && o == Ok(WasSent)
    {
      hide Inv, LegalStep, Legal, Effect, Around, Beside, Allowed;
      ghost var before, quiet := w, script == [];
      SendFits(w, i);
      var sent, at := Do(SendIt(i));
      AroundBeside(before, at, k, quiet);
      MineStays(before, at, k, row, i);
      FinalizedStays(before, at, i);
      SendIs(at, w, k, row, i);
      BesideTrans(before, at, w, k, quiet, true);
      ghost var prior, alone := w, script == [];
      if !sent.Ok? {
        o := Fail(k, sent);
      } else {
        o := MarkSent(k, row, i);
      }
      BesideTrans(before, prior, w, k, quiet, alone);
    }

    /** The item, on a draft that shows none, and a second look. */
    method AddTheItem(k: Key, row: Row, view: View) returns (r: Step<View>)
      requires Sane() && Mine(w, k, row, view.id) && Readable(w, view) && view.status == Draft && view.lineCount == 0
      requires row.state != Held
      modifies this
      ensures Sane() && old(trail) <= trail && old(calls) <= calls && Beside(old(w), w, k, old(script) == []) && w.emailed == old(w).emailed
      ensures Mine(w, k, row, view.id) && Unfinal(w, view.id)
      ensures r.Ok? ==> r.value == ViewOf(w, view.id) && Current(w, r.value)
      ensures Because(r, w, k, calls, |old(calls)|)
      ensures !r.Threw?
      ensures old(script) == [] ==>
                && script == []
                && (if old(w).invoices[view.id].status == Draft
                    then r.Ok? && w.invoices[view.id].status == Draft
                         && r.value.subtotal == Subtotal(old(w).invoices[view.id].lines) + row.amount
                    else r == Failed(true))
    {
      hide Inv, LegalStep, Legal, Effect, Around, Allowed, Subtotal, OurLines, Current, AsMade, Beside, Left, Reply, Others;
      ghost var before, i := w, view.id;
      SaneWorld();
      ItemAllowed(w, k, row, view);
      ItemAlone(w, k, row, i);
      var item, at := Do(NewItem(k, view.id, row.amount));
      AroundBeside(before, at, k, old(script) == []);
      MineStays(before, at, k, row, i);
      UnfinalStays(before, at, i);
      ItemMayBeMine(at, w, k, row, i);
      ItemUnfinal(at, w, k, i, row.amount);
      BesideTrans(before, at, w, k, old(script) == [], true);
      if item.Failed? { return Failed(item.refused); }
      if item.Crashed? { return Crashed; }
      ghost var prior, alone := w, script == [];
      r := GetInvoice(view.id);
      AroundBeside(prior, w, k, old(script) == []);
      BesideTrans(before, prior, w, k, old(script) == [], alone);
      MineStays(prior, w, k, row, i);
      UnfinalStays(prior, w, i);
    }

    /** A draft: its item if it has none, the amount checked, finalized. */
    method FinishDraft(k: Key, row: Row, view: View) returns (o: Step<Outcome>)
      requires Sane() && Mine(w, k, row, view.id) && Readable(w, view)
      requires row.state == Claimed || row.state == Finalized
      requires view.status == Draft
      modifies this
      ensures Sane() && old(trail) <= trail && old(calls) <= calls && Beside(old(w), w, k, old(script) == [])
      ensures Mails(old(w), w, k, view.id, trail, |old(trail)| - 1)
      ensures EndsWell(o, k, trail, |old(trail)| - 1, calls, |old(calls)|)
      ensures o.Ok? ==> End(w, k, o.value)
      ensures !o.Failed?
      ensures old(script) == [] ==>
                script == [] && o == Ok(if DraftGoes(old(w), k, view) then WasSent else WasHeld)
                && (o == Ok(WasHeld) ==> w.emailed == old(w).emailed)
    {
      hide Inv, LegalStep, Legal, Subtotal, OurLines, Beside, Mails, Unfit, Because, EndsWell;
      ghost var before := w;
      NoMail(w, k, view.id, trail, |trail| - 1);
      var inv := view;
      if inv.lineCount == 0 {
        var again := AddTheItem(k, row, view);
        NoMailYet(before, w, k, view.id, trail, |old(trail)| - 1);
        if !again.Ok? {
          ghost var prior, alone, seen, tried := w, script == [], trail, calls;
          o := Fail(k, again);
          FailEnds(o, again, k, seen, trail, |old(trail)| - 1, tried, calls, |old(calls)|);
          NoMailYet(before, w, k, view.id, trail, |old(trail)| - 1);
          BesideTrans(before, prior, w, k, old(script) == [], alone);
          return;
        }
        inv := again.value;
      } else {
        NotMadeSo(w, view);
        BesideSelf(w, k, old(script) == []);
      }
      ghost var prior, alone, begun, tried := w, script == [], |trail| - 1, |calls|;
      o := CheckDraft(k, row, inv);
      MailsLater(before, prior, w, k, view.id, trail, |old(trail)| - 1, begun);
      LaterEnds(o, k, trail, |old(trail)| - 1, begun, calls, |old(calls)|, tried);
      BesideTrans(before, prior, w, k, old(script) == [], alone);
    }

    /** Finalized at the claimed amount, or held. */
    method CheckDraft(k: Key, row: Row, view: View) returns (o: Step<Outcome>)
      requires Sane() && Mine(w, k, row, view.id) && Current(w, view) && Unfinal(w, view.id)
      requires row.state == Claimed || row.state == Finalized
      modifies this
      ensures Sane() && old(trail) <= trail && old(calls) <= calls && Beside(old(w), w, k, old(script) == [])
      ensures Mails(old(w), w, k, view.id, trail, |old(trail)| - 1)
      ensures EndsWell(o, k, trail, |old(trail)| - 1, calls, |old(calls)|)
      ensures o.Ok? ==> End(w, k, o.value)
      ensures !o.Failed?
      ensures old(script) == [] ==>
                script == [] && o == Ok(if old(w).invoices[view.id].status == Draft && view.subtotal == row.amount then WasSent else WasHeld)
                && (o == Ok(WasHeld) ==> w.emailed == old(w).emailed)
    {
      hide Inv, LegalStep, Legal, Subtotal, OurLines, Beside, Mails, Unfit, Because, EndsWell;
      if view.subtotal != row.amount {
        SeenUnfit(w, k, row, view);
        ghost var before := w;
        o := HoldRow(k);
        UnfitEnds(o, k, trail, |old(trail)| - 1, calls, |old(calls)|);
        NoMailYet(before, w, k, view.id, trail, |old(trail)| - 1);
      } else {
        o := FinalizeDraft(k, row, view);
      }
    }

    method FinalizeDraft(k: Key, row: Row, view: View) returns (o: Step<Outcome>)
      requires Sane() && Mine(w, k, row, view.id) && Current(w, view) && view.subtotal == row.amount && Unfinal(w, view.id)
      requires row.state == Claimed || row.state == Finalized
      modifies this
      ensures Sane() && old(trail) <= trail && old(calls) <= calls && Beside(old(w), w, k, old(script) == [])
      ensures Mails(old(w), w, k, view.id, trail, |old(trail)| - 1)
      ensures EndsWell(o, k, trail, |old(trail)| - 1, calls, |old(calls)|)
      ensures o.Ok? ==> End(w, k, o.value)
      ensures !o.Failed?
      ensures old(script) == [] ==>
                script == [] && o == Ok(if old(w).invoices[view.id].status == Draft then WasSent else WasHeld)
                && (o == Ok(WasHeld) ==> w.emailed == old(w).emailed)
    {
      hide Inv, LegalStep, Legal, Effect, Around, Allowed, Current, Beside, Mails, Unfit, HeldWell, FailedWell, Sendable;
      ghost var before, start, first := w, |trail| - 1, |calls|;
      var done := FinalizeSeen(k, row, view);
      ghost var prior, alone, seen, tried := w, script == [], trail, calls;
      if !done.Ok? {
        CallFailed(done, w, k, calls, first);
        o := Fail(k, done);
        FailEnds(o, done, k, seen, trail, start, tried, calls, first);
        NoMailYet(before, w, k, view.id, trail, start);
      } else {
        o := Deliver(k, row, view.id);
        LaterEnds(o, k, trail, start, |seen| - 1, calls, first, |tried|);
        SentMails(before, w, k, view.id, seen, trail, start);
      }
      BesideTrans(before, prior, w, k, old(script) == [], alone);
    }

    /** It is finalized as the draft that the look showed. */
    method FinalizeSeen(k: Key, row: Row, view: View) returns (done: Step<nat>)
      requires Sane() && Mine(w, k, row, view.id) && Current(w, view) && view.subtotal == row.amount && Unfinal(w, view.id)
      requires row.state == Claimed || row.state == Finalized
      modifies this
      ensures Sane() && old(trail) <= trail && |calls| == |old(calls)| + 1 && old(calls) <= calls
      ensures Beside(old(w), w, k, old(script) == []) && w.emailed == old(w).emailed
      ensures Mine(w, k, row, view.id)
      ensures done.Ok? ==> w.invoices[view.id].WasFinalized() && SeenSendable(k, view.id, trail, |old(trail)| - 1)
      ensures done.Failed? ==> calls[|calls| - 1].reply == Failed(done.refused)
      ensures !done.Threw?
      ensures old(script) == [] ==>
                script == [] && if old(w).invoices[view.id].status == Draft then done.Ok? else done == Failed(true)
    {
      hide Inv, LegalStep, Legal, Effect, Around, Allowed, Subtotal, OurLines, Current, Beside, Left, Reply, Others, Sendable;
      ghost var before, i := w, view.id;
      SaneWorld();
      FinalizeAllowed(w, k, row, view);
      ghost var at;
      done, at := Do(FinalizeIt(k, view.id));
      AroundBeside(before, at, k, old(script) == []);
      MineStays(before, at, k, row, i);
      UnfinalStays(before, at, i);
      FinalizeAlone(at, k, row, i);
      FinalizeMayBeMine(at, w, k, row, i);
      BesideTrans(before, at, w, k, old(script) == [], true);
      if done.Ok? {
        FinalizedIsMine(at, w, k, row, i);
        ghost var n: nat :| |old(trail)| - 1 <= n < |trail| && trail[n] == at;
        assert Sendable(trail[n], k, i);
      }
    }

    /** One claimed period, from wherever it stopped to sent, or held, or to be tried
        again. Left alone, it ends as its invoice says; and no invoice is emailed that was
        not a draft or open when the pass came to it. */
    method Advance(k: Key, row: Row) returns (o: Step<Outcome>)
      requires Sane() && k in w.ledger && w.ledger[k] == row
      requires row.state == Claimed || row.state == Finalized
      modifies this
      ensures Sane() && old(trail) <= trail && old(calls) <= calls && Beside(old(w), w, k, old(script) == [])
      ensures MailsOne(old(w), w, k, trail, |old(trail)| - 1)
      ensures row.amount <= MAX_INVOICE_CENTS ==> EndsWell(o, k, trail, |old(trail)| - 1, calls, |old(calls)|)
      ensures o.Ok? ==> End(w, k, o.value)
      ensures !o.Failed?
      ensures row.amount > MAX_INVOICE_CENTS ==> o != Ok(WasSent) && o != Ok(WasFailed)
      ensures k in old(w).ledger && (row.invoice.Some? ==> row.invoice.value < |old(w).invoices|)
      ensures old(script) == [] && row.invoice.Some? && row.amount <= 99_999_999 ==>
                var inv := old(w).invoices[row.invoice.value];
                o == Ok(if inv.status == Open || (inv.status == Paid && row.state == Finalized)
                           || (inv.status == Draft && (inv.lines == [] || Subtotal(inv.lines) == row.amount))
                        then WasSent else WasHeld)
      ensures old(script) == [] ==>
                script == [] && o == Ok(QuietOutcome(old(w), k)) && (o == Ok(WasHeld) ==> w.emailed == old(w).emailed)
    {
      hide Inv, LegalStep, Legal, Effect, Around, Allowed, Subtotal, OurLines, Beside, Mine, Mails, QuietOutcome, WithCustomer, Verdict;
      ghost var before, start := w, |trail| - 1;
      SaneWorld();
      StoredOnce(w, k, row);
      TooMuch(w, k);
      if row.amount <= 99_999_999 && row.invoice.Some? { SentIff(w, k); }
      if row.amount > MAX_INVOICE_CENTS {
        o := HoldRow(k);
        NoMailYet(before, w, k, 0, trail, start);
      } else {
        o := WithItsCustomer(k, row);
      }
    }

    /** On with the account's customer. */
    method WithItsCustomer(k: Key, row: Row) returns (o: Step<Outcome>)
      requires Sane() && k in w.ledger && w.ledger[k] == row && row.amount <= MAX_INVOICE_CENTS
      requires row.state == Claimed || row.state == Finalized
      modifies this
      ensures Sane() && old(trail) <= trail && old(calls) <= calls && Beside(old(w), w, k, old(script) == [])
      ensures MailsOne(old(w), w, k, trail, |old(trail)| - 1)
      ensures EndsWell(o, k, trail, |old(trail)| - 1, calls, |old(calls)|)
      ensures o.Ok? ==> End(w, k, o.value)
      ensures !o.Failed? && k in old(w).ledger
      ensures old(script) == [] ==>
                script == [] && o == Ok(QuietOutcome(old(w), k)) && (o == Ok(WasHeld) ==> w.emailed == old(w).emailed)
    {
      hide Inv, LegalStep, Legal, Effect, Around, Allowed, Subtotal, OurLines, Beside, Mine, Mails, QuietOutcome, WithCustomer, Verdict,
           OnInvoice, Unfit, Because, EndsWell;
      ghost var before, quiet, start, first := w, script == [], |trail| - 1, |calls|;
      SaneWorld();
      StoredOnce(w, k, row);
      var customer := EnsureCustomer(k.account);
      NoMailYet(before, w, k, 0, trail, start);
      AroundBeside(before, w, k, old(script) == []);
      RowStays(before, w, k);
      ghost var prior, alone, begun, seen, tried := w, script == [], |trail| - 1, trail, calls;
      if !customer.Ok? {
        CallFailed(customer, w, k, calls, first);
        o := Fail(k, customer);
        FailEnds(o, customer, k, seen, trail, start, tried, calls, first);
        NoMailYet(before, w, k, 0, trail, start);
      } else {
        if quiet {
          if k.account in before.customers { CustomerStays(before, w, k.account); }
          CustomerAlone(before, w, k, customer.value);
        }
        o := WithItsInvoice(k, customer.value, row);
        MailsOneLater(before, prior, w, k, trail, start, begun);
        LaterEnds(o, k, trail, start, begun, calls, first, |tried|);
      }
      BesideTrans(before, prior, w, k, old(script) == [], alone);
    }

    /** On with that customer's invoice of the period. */
    method WithItsInvoice(k: Key, customer: nat, row: Row) returns (o: Step<Outcome>)
      requires Sane() && k in w.ledger && w.ledger[k] == row
      requires row.state == Claimed || row.state == Finalized
      requires k.account in w.customers && customer == w.customers[k.account]
      modifies this
      ensures Sane() && old(trail) <= trail && old(calls) <= calls && Beside(old(w), w, k, old(script) == [])
      ensures MailsOne(old(w), w, k, trail, |old(trail)| - 1)
      ensures EndsWell(o, k, trail, |old(trail)| - 1, calls, |old(calls)|)
      ensures o.Ok? ==> End(w, k, o.value)
      ensures !o.Failed? && k in old(w).ledger
      ensures old(script) == [] ==>
                script == [] && o == Ok(OnInvoice(old(w), k, customer)) && (o == Ok(WasHeld) ==> w.emailed == old(w).emailed)
    {
      hide Inv, LegalStep, Legal, Subtotal, OurLines, Beside, Mine, Mails, OnInvoice, FromView, InvoiceAlone, Readable, Unfit, Because, EndsWell;
      ghost var before, start, first := w, |trail| - 1, |calls|;
      SaneWorld();
      InvoiceAloneIs(w, k, customer);
      var got := InvoiceFor(k, customer, row);
      NoMailYet(before, w, k, 0, trail, start);
      ghost var prior, alone, begun, seen, tried := w, script == [], |trail| - 1, trail, calls;
      if !got.Ok? {
        RowStillThere(before, w, k, old(script) == []);
        o := Fail(k, got);
        FailEnds(o, got, k, seen, trail, start, tried, calls, first);
        NoMailYet(before, w, k, 0, trail, start);
      } else {
        o := FromInvoice(k, row, got.value);
        MailsLater(before, prior, w, k, got.value.id, trail, start, begun);
        LaterEnds(o, k, trail, start, begun, calls, first, |tried|);
      }
      BesideTrans(before, prior, w, k, old(script) == [], alone);
    }

    /** On from the period's invoice. */
    method FromInvoice(k: Key, row: Row, inv: View) returns (o: Step<Outcome>)
      requires Sane() && Mine(w, k, row, inv.id) && Readable(w, inv)
      requires row.state == Claimed || row.state == Finalized
      modifies this
      ensures Sane() && old(trail) <= trail && old(calls) <= calls && Beside(old(w), w, k, old(script) == [])
      ensures Mails(old(w), w, k, inv.id, trail, |old(trail)| - 1)
      ensures inv.status != Draft && inv.status != Open ==> w.emailed == old(w).emailed
      ensures EndsWell(o, k, trail, |old(trail)| - 1, calls, |old(calls)|)
      ensures o.Ok? ==> End(w, k, o.value)
      ensures !o.Failed?
      ensures k in old(w).ledger && inv.id < |old(w).invoices|
      ensures old(script) == [] ==>
                script == [] && o == Ok(FromView(old(w), k, inv)) && (o == Ok(WasHeld) ==> w.emailed == old(w).emailed)
    {
      hide Inv, LegalStep, Legal, Subtotal, OurLines, Beside, Mails, Unfit, HeldWell, FailedWell;
      SaneWorld();
      ghost var before := w;
      NoMail(w, k, inv.id, trail, |trail| - 1);
      StillSo(w, k, row, inv);
      if inv.status == Paid && row.state == Finalized {
        o := MarkSent(k, row, inv.id);
        NoMailYet(before, w, k, inv.id, trail, |old(trail)| - 1);
        return;
      }
      if inv.status != Draft && inv.status != Open {
        SeenUnfit(w, k, row, inv);
        o := HoldRow(k);
        UnfitEnds(o, k, trail, |old(trail)| - 1, calls, |old(calls)|);
        NoMailYet(before, w, k, inv.id, trail, |old(trail)| - 1);
        return;
      }
      if inv.status == Draft {
        o := FinishDraft(k, row, inv);
      } else if inv.subtotal != row.amount {
        SeenUnfit(w, k, row, inv);
        o := HoldRow(k);
        UnfitEnds(o, k, trail, |old(trail)| - 1, calls, |old(calls)|);
        NoMailYet(before, w, k, inv.id, trail, |old(trail)| - 1);
      } else {
        o := Deliver(k, row, inv.id);
        OpenMails(before, w, k, inv.id, trail, |old(trail)| - 1);
      }
    }

    // ------------------------------------------------------------------- a second draft

    static method WithACustomer() returns (p: Provisioner)
      ensures fresh(p) && p.Sane() && p.trail[0] == World(map[], map[], map[], [], 0, map[], {})
      ensures p.script == []
      ensures p.w == World(map[Key(0, Billing.YearId(0)) := Row(22_000, Claimed, None)], map[0 := 0], map[], [], 1, map[CustomerKey(0) := 0], {})
    {
      hide Inv, LegalStep, Legal, Around, Adoptable, Newer, Others, Subtotal, OurLines;
      p := new Provisioner();
      var r, at := p.Save(ClaimRow(Key(0, Billing.YearId(0)), 22_000));
      r, at := p.Do(NewCustomer(0));
      r, at := p.Save(KeepCustomer(0, 0));
    }

    /** A claimed period of a customer, and a draft of it whose create lost its answer. */
    static method WithALostDraft() returns (p: Provisioner)
      ensures fresh(p) && p.Sane() && p.trail[0] == World(map[], map[], map[], [], 0, map[], {})
      ensures p.script == []
      ensures p.w == Crowd(0).(keys := map[CustomerKey(0) := 0, InvoiceKey(Key(0, Billing.YearId(0))) := 0])
    {
      hide Inv, LegalStep, Legal, Around, Adoptable, Newer, Others, Subtotal, OurLines;
      var k := Key(0, Billing.YearId(0));
      p := WithACustomer();
      var r, at := p.Do(Look);
      LookReads(at, p.w);
      p.script := [Turn([], Lost)];
      r, at := p.Do(NewInvoice(k, 0));
    }

    /** A run, from nothing, that gives a period a second draft: the first one's create lost
        its answer, its key expired, and an operator made a full page of invoices for the
        customer before the pass came back. */
    static method SecondDraft() returns (p: Provisioner)
      ensures fresh(p) && p.Sane() && OneLive(p.trail[0]) && !OneLive(p.w)
    {
      hide Inv, LegalStep, Legal, Around, Adoptable, Newer, Crowd, Crowding, OneLive, Others;
      var k := Key(0, Billing.YearId(0));
      p := WithALostDraft();
      NoneIsOne(p.trail[0]);
      CrowdComes(p.w, PAGE);
      p.script := [Turn(Crowding(PAGE), Answered)];
      var r, at := p.Do(Look);
      LookReads(at, p.w);
      SecondInvoiceHappens();
      CrowdsRow();
      var view := p.InvoiceFor(k, 0, p.w.ledger[k]);
      OneLiveOfInvoices(p.w, MakeInvoice(Crowded(), k, 0).0);
    }
  }

  // --------------------------------------------------------------- what it has read

  /** What the pass goes on with: a view that still stands, of a draft that was never
      finalized, or of an invoice as it is. */
  ghost predicate Readable(w: World, view: View) {
    && (Current(w, view) || AsMade(w, view))
    && (view.status == Draft ==> Unfinal(w, view.id))
    && (view.status != Draft ==> view.id < |w.invoices| && view == ViewOf(w, view.id))
  }

  lemma ReadableNow(w: World, i: nat)
    requires i < |w.invoices| && Current(w, ViewOf(w, i))
    ensures Readable(w, ViewOf(w, i))
  {
  }

  lemma FoundIsReadable(w: World, k: Key, row: Row, customer: nat)
    requires Inv(w) && k in w.ledger && w.ledger[k] == row && row.invoice == None
    requires k.account in w.customers && customer == w.customers[k.account]
    requires Adoptable(w, k, customer, |w.invoices|).Some?
    ensures var i := Adoptable(w, k, customer, |w.invoices|).value;
            i < |w.invoices| && ViewOf(w, i).status == Draft && Readable(w, ViewOf(w, i))
  {
    ListShows(w, k, customer);
  }

  lemma MadeIsUnfinal(w: World, k: Key, i: nat)
    requires Inv(w) && k in w.ledger && w.ledger[k].invoice == None && i < |w.invoices| && w.invoices[i].key == Some(k)
    ensures Unfinal(w, i)
  {
    assert Placed(w, i);
  }

  lemma NotMadeSo(w: World, view: View)
    requires Readable(w, view) && view.lineCount != 0
    ensures Current(w, view)
  {
  }

  /** Any other than a draft is as it was read. */
  lemma StillSo(w: World, k: Key, row: Row, view: View)
    requires Inv(w) && Mine(w, k, row, view.id) && Readable(w, view)
    ensures view.status != Draft ==> view == ViewOf(w, view.id) && w.invoices[view.id].key == Some(k)
    ensures view.status == Open ==> w.invoices[view.id].WasFinalized()
  {
  }

  lemma SeenUnfit(w: World, k: Key, row: Row, view: View)
    requires Mine(w, k, row, view.id) && Current(w, view)
    requires if view.status == Draft then Unfinal(w, view.id) else view == ViewOf(w, view.id)
    requires match view.status
             case Draft => view.subtotal != row.amount
             case Open => view.subtotal != row.amount
             case Paid => row.state != Finalized
             case _ => true
    ensures Unfit(w, k)
  {
    hide Subtotal;
  }

  lemma TooMuch(w: World, k: Key)
    requires k in w.ledger
    ensures w.ledger[k].amount > MAX_INVOICE_CENTS ==> QuietOutcome(w, k) == WasHeld
    ensures w.ledger[k].amount <= MAX_INVOICE_CENTS && w.ledger[k].invoice.Some? && w.ledger[k].invoice.value < |w.invoices| ==>
              QuietOutcome(w, k) == Verdict(w, k, w.ledger[k].invoice.value)
  {
  }

  lemma NoMail(w: World, k: Key, i: nat, trail: seq<World>, from: nat)
    ensures Mails(w, w, k, i, trail, from)
  {
  }

  lemma NoMailYet(v: World, w: World, k: Key, i: nat, trail: seq<World>, from: nat)
    requires w.emailed == v.emailed
    ensures Mails(v, w, k, i, trail, from)
  {
  }

  lemma MailsLater(u: World, v: World, w: World, k: Key, i: nat, trail: seq<World>, from: nat, begun: nat)
    requires v.emailed == u.emailed && from <= begun && Mails(v, w, k, i, trail, begun)
    ensures Mails(u, w, k, i, trail, from)
  {
  }

  lemma MailsOneLater(u: World, v: World, w: World, k: Key, trail: seq<World>, from: nat, begun: nat)
    requires v.emailed == u.emailed && from <= begun && MailsOne(v, w, k, trail, begun)
    ensures MailsOne(u, w, k, trail, from)
  {
    var i: nat :| Mails(v, w, k, i, trail, begun);
    MailsLater(u, v, w, k, i, trail, from, begun);
  }

  lemma SentMails(v: World, w: World, k: Key, i: nat, seen: seq<World>, trail: seq<World>, from: nat)
    requires w.emailed == v.emailed || w.emailed == v.emailed + {i}
    requires seen <= trail && SeenSendable(k, i, seen, from)
    ensures Mails(v, w, k, i, trail, from)
  {
    hide Sendable;
    var n: nat :| from <= n < |seen| && Sendable(seen[n], k, i);
    assert trail[n] == seen[n];
  }

  lemma OpenMails(v: World, w: World, k: Key, i: nat, trail: seq<World>, from: nat)
    requires w.emailed == v.emailed || w.emailed == v.emailed + {i}
    requires from < |trail| && trail[from] == v && Sendable(v, k, i)
    ensures Mails(v, w, k, i, trail, from)
  {
  }

  lemma NoneIsOne(w: World)
    requires w.invoices == []
    ensures OneLive(w)
  {
  }

  lemma CrowdsRow()
    ensures var w, k := Crowded(), Key(0, Billing.YearId(0));
            k in w.ledger && w.ledger[k] == Row(22_000, Claimed, None) && 0 in w.customers && w.customers[0] == 0
  {
  }

  lemma OneLiveOfInvoices(v: World, w: World)
    requires w.invoices == v.invoices
    ensures OneLive(w) == OneLive(v)
  {
  }

  lemma AroundSelf(w: World)
    ensures Around(w, w)
  {
  }

  /** What a call makes of a run that has one live invoice for each period. */
  lemma EffectGoes(trail: seq<World>, m: nat, op: Op)
    requires m < |trail| && Around(trail[m], trail[|trail| - 1]) && OneLive(trail[|trail| - 1])
    requires Fits(trail[|trail| - 1], op) && Effect(trail[|trail| - 1], op).Some?
    requires op.NewInvoice? ==> Unlisted(trail[m], op.key)
    ensures var v := Effect(trail[|trail| - 1], op).value.0; OneLive(v) || Misled(trail, v)
  {
    hide Around, OneLive, Misled, Unlisted;
    if op.NewInvoice? {
      CreateIsOneOrSecond(trail, m, op.key, op.customer);
    } else {
      OnlyACreateAdds(trail[|trail| - 1], op);
    }
  }

  lemma AlwaysApplies(w: World, op: Op)
    requires Allowed(w, op) && !op.NewItem? && !op.FinalizeIt?
    ensures Effect(w, op).Some?
  {
    hide Subtotal, OurLines;
  }

  /** All but the customers and their keys. */
  ghost predicate SameBut(v: World, w: World) {
    && w.ledger == v.ledger && w.invoices == v.invoices && w.wakes == v.wakes
    && (forall k: Key :: InvoiceKey(k) in w.keys <==> InvoiceKey(k) in v.keys)
    && (forall k: Key :: InvoiceKey(k) in w.keys && InvoiceKey(k) in v.keys ==> w.keys[InvoiceKey(k)] == v.keys[InvoiceKey(k)])
  }

  lemma SameSelf(w: World)
    ensures SameBut(w, w)
  {
  }

  lemma CustomerSame(s: World, at: World, w: World, op: Op)
    requires op.Look? || op.NewCustomer? || op.KeepCustomer?
    requires SameBut(s, at) && (w == at || (Effect(at, op).Some? && w == Effect(at, op).value.0))
    ensures SameBut(s, w)
  {
  }

  lemma OnlySendMails(w: World, op: Op)
    requires Fits(w, op) && Effect(w, op).Some?
    ensures Effect(w, op).value.0.emailed == if op.SendIt? then w.emailed + {op.i} else w.emailed
  {
  }

  lemma CustomerIsKept(w: World, account: nat, made: nat)
    ensures account in Effect(w, KeepCustomer(account, made)).value.0.customers
  {
  }

  lemma LookFits(w: World)
    ensures Allowed(w, Look)
  {
  }

  lemma LookReads(at: World, w: World)
    requires w == at || (Effect(at, Look).Some? && w == Effect(at, Look).value.0)
    ensures w == at
  {
  }

  lemma MakingIs(at: World, k: Key, customer: nat)
    ensures Effect(at, NewInvoice(k, customer)) == Some(MakeInvoice(at, k, customer))
  {
  }

  lemma KeepingIs(at: World, k: Key, i: nat)
    requires k in at.ledger
    ensures Effect(at, KeepInvoice(k, i)) == Some((SetInvoice(at, k, i), 0))
  {
  }

  lemma MakingKeepsTheRow(at: World, w: World, k: Key, customer: nat)
    requires Fits(at, NewInvoice(k, customer))
    requires w == at || (Effect(at, NewInvoice(k, customer)).Some? && w == Effect(at, NewInvoice(k, customer)).value.0)
    ensures w.ledger == at.ledger && Beside(at, w, k, true)
  {
  }

  lemma KeepingKeepsTheRow(at: World, w: World, k: Key, i: nat)
    requires Fits(at, KeepInvoice(k, i))
    requires w == at || (Effect(at, KeepInvoice(k, i)).Some? && w == Effect(at, KeepInvoice(k, i)).value.0)
    ensures k in w.ledger && w.ledger[k].state == at.ledger[k].state && Beside(at, w, k, true)
  {
  }

  // ------------------------------------------------------- steps of a claimed period

  /** Where an outcome leaves the row. */
  ghost predicate End(w: World, k: Key, o: Outcome) {
    k in w.ledger &&
    match o
    case WasSent => w.ledger[k].state == Sent
    case WasHeld => w.ledger[k].state == Held
    case WasFailed => w.ledger[k].state == Claimed || w.ledger[k].state == Finalized
  }

  lemma BesideSelf(w: World, k: Key, quiet: bool)
    ensures Beside(w, w, k, quiet)
  {
  }

  lemma RowStillThere(v: World, w: World, k: Key, quiet: bool)
    requires Beside(v, w, k, quiet) && k in v.ledger
    ensures k in w.ledger
  {
  }

  lemma HoldAllowed(w: World, k: Key)
    requires k in w.ledger && (w.ledger[k].state == Claimed || w.ledger[k].state == Finalized)
    ensures Allowed(w, MoveRow(k, Held))
  {
  }

  lemma MoveIs(at: World, w: World, k: Key, state: RowState)
    requires Allowed(at, MoveRow(k, state))
    requires w == at || (Effect(at, MoveRow(k, state)).Some? && w == Effect(at, MoveRow(k, state)).value.0)
    ensures Beside(at, w, k, true) && k in w.ledger
    ensures w.ledger[k].invoice == at.ledger[k].invoice && w.invoices == at.invoices
    ensures Effect(at, MoveRow(k, state)).Some? && w == Effect(at, MoveRow(k, state)).value.0 ==> w.ledger[k].state == state
  {
  }

  lemma FinalizedStays(v: World, w: World, i: nat)
    requires Around(v, w) && i < |v.invoices| && v.invoices[i].WasFinalized()
    ensures i < |w.invoices| && w.invoices[i].WasFinalized()
  {
  }

  lemma ItemAllowed(w: World, k: Key, row: Row, view: View)
    requires Mine(w, k, row, view.id) && Readable(w, view) && view.status == Draft && view.lineCount == 0
    ensures Allowed(w, NewItem(k, view.id, row.amount))
  {
  }

  lemma FinalizeAllowed(w: World, k: Key, row: Row, view: View)
    requires Mine(w, k, row, view.id) && Current(w, view) && view.subtotal == row.amount
    ensures Allowed(w, FinalizeIt(k, view.id))
  {
    hide Subtotal, OurLines;
  }

  lemma ItemMayBeMine(at: World, w: World, k: Key, row: Row, i: nat)
    requires Allowed(at, NewItem(k, i, row.amount)) && Mine(at, k, row, i)
    requires w == at || (Effect(at, NewItem(k, i, row.amount)).Some? && w == Effect(at, NewItem(k, i, row.amount)).value.0)
    ensures Mine(w, k, row, i) && Beside(at, w, k, true)
  {
    hide Subtotal, OurLines;
  }

  lemma FinalizeMayBeMine(at: World, w: World, k: Key, row: Row, i: nat)
    requires Allowed(at, FinalizeIt(k, i)) && Mine(at, k, row, i)
    requires w == at || (Effect(at, FinalizeIt(k, i)).Some? && w == Effect(at, FinalizeIt(k, i)).value.0)
    ensures Mine(w, k, row, i) && Beside(at, w, k, true)
  {
    hide Subtotal, OurLines;
  }

  lemma SendFits(w: World, i: nat)
    requires i < |w.invoices| && w.invoices[i].WasFinalized()
    ensures Allowed(w, SendIt(i))
  {
  }

  lemma SendIs(at: World, w: World, k: Key, row: Row, i: nat)
    requires Mine(at, k, row, i)
    requires w == at || (Effect(at, SendIt(i)).Some? && w == Effect(at, SendIt(i)).value.0)
    ensures Mine(w, k, row, i) && Beside(at, w, k, true) && w.invoices == at.invoices
    ensures Effect(at, SendIt(i)).Some? && w == Effect(at, SendIt(i)).value.0 ==> i in w.emailed
  {
  }

  lemma AllowedFits(w: World, op: Op)
    requires Allowed(w, op)
    ensures Fits(w, op)
  {
  }
}
