/** The seat accounts: setting up, signing, the seat service and the offices. */
module Seats {
  import opened Basics
  import opened History
  import Billing

  const MAX_SEATS := 10_000
  const MAX_OFFICES := 1000
  const MAX_OFFICE_MEMBERS := 100_000
  /** What the two office bounds allow N to be raised to. */
  const MOST_SEATS := 100_000_000

  datatype Kind = Standard | Negotiated

  datatype Office = Office(id: nat, name: string, members: nat, joinedAt: int, lastSeenAt: int, removedAt: Option<int>) {
    predicate Active() { removedAt.None? }
  }

  /** The rows of one account: its own, its offices and its seat changes. */
  datatype Account = Account(
    plan: Billing.Plan,
    kind: Kind,
    seats: nat,
    signedAt: Option<int>,
    contractStart: Option<int>,
    generation: nat,
    offices: seq<Office>,
    changes: seq<SeatChange>)
  {
    predicate Signed() { kind == Negotiated || signedAt.Some? }
  }

  /** A secret is an account id and a generation; the MAC makes it unforgeable. */
  datatype Secret = Malformed | Names(account: nat, generation: nat)

  datatype SeatCall = SeatCall(office: nat, members: int, add: bool)

  datatype Op =
    | Create(account: nat, plan: Billing.Plan, seats: int)
    | CreateNegotiated(account: nat, plan: Billing.Plan, seats: int, start: int)
    | Sign(account: nat)
    | ChangeSeats(account: nat, from: int, to: int)
    | RecordSeats(secret: Secret, call: SeatCall)
    | RenameOffice(account: nat, office: nat, name: string)
    | RemoveOffice(account: nat, office: nat)
    | RenewSecret(account: nat)

  datatype Reason =
    | Exists | Invalid | NoAccount | AlreadySigned | IsNegotiated | NotSigned | NotFound
    | Stale(seats: nat, inUse: nat) | BelowInUse(seats: nat, inUse: nat) | YearlyDecrease(seats: nat, inUse: nat)
    | BadSecret | BadRequest | SeatsFull(seats: nat, inUse: nat)

  datatype Outcome =
    | Done
    | SeatsAre(seats: nat)
    | Recorded(seats: nat, inUse: nat, offices: nat)
    | Refused(reason: Reason)

  // ------------------------------------------------------------ sums over offices

  /** Members of the active offices but `except`. */
  function OtherMembers(offices: seq<Office>, except: Option<nat>): nat {
    if offices == [] then 0
    else
      var o := offices[0];
      (if o.Active() && except != Some(o.id) then o.members else 0) + OtherMembers(offices[1..], except)
  }

  function OtherOffices(offices: seq<Office>, except: Option<nat>): nat {
    if offices == [] then 0
    else
      var o := offices[0];
      (if o.Active() && except != Some(o.id) then 1 else 0) + OtherOffices(offices[1..], except)
  }

  function InUse(offices: seq<Office>): nat { OtherMembers(offices, None) }

  function ActiveOffices(offices: seq<Office>): nat { OtherOffices(offices, None) }

  function Find(offices: seq<Office>, id: nat): (i: nat)
    ensures i <= |offices|
    ensures i < |offices| ==> offices[i].id == id
    ensures forall j :: 0 <= j < i ==> offices[j].id != id
  {
    if offices == [] || offices[0].id == id then 0 else 1 + Find(offices[1..], id)
  }

  predicate IsActive(offices: seq<Office>, id: nat) {
    var i := Find(offices, id);
    i < |offices| && offices[i].Active()
  }

  function Upsert(offices: seq<Office>, id: nat, members: nat, now: int): seq<Office> {
    var i := Find(offices, id);
    if i < |offices|
    then offices[i := offices[i].(members := members, lastSeenAt := now, removedAt := None)]
    else offices + [Office(id, "", members, now, now, None)]
  }

  ghost predicate DistinctIds(offices: seq<Office>) {
    forall i, j :: 0 <= i < j < |offices| ==> offices[i].id != offices[j].id
  }

  lemma {:induction false} SumsAppend(offices: seq<Office>, o: Office, except: Option<nat>)
    ensures OtherMembers(offices + [o], except)
            == OtherMembers(offices, except) + if o.Active() && except != Some(o.id) then o.members else 0
    ensures OtherOffices(offices + [o], except)
            == OtherOffices(offices, except) + if o.Active() && except != Some(o.id) then 1 else 0
  {
    if offices != [] {
      assert (offices + [o])[1..] == offices[1..] + [o];
      SumsAppend(offices[1..], o, except);
    }
  }

  /** With one row of an id replaced, the sums without that id stay. */
  lemma {:induction false} SumsWithout(offices: seq<Office>, i: nat, o: Office)
    requires DistinctIds(offices) && i < |offices| && o.id == offices[i].id
    ensures OtherMembers(offices[i := o], None) == OtherMembers(offices, Some(o.id)) + if o.Active() then o.members else 0
    ensures OtherOffices(offices[i := o], None) == OtherOffices(offices, Some(o.id)) + if o.Active() then 1 else 0
  {
    if i == 0 {
      assert offices[i := o][1..] == offices[1..];
      NoneToLeaveOut(offices[1..], o.id);
    } else {
      assert offices[i := o][1..] == offices[1..][i - 1 := o];
      SumsWithout(offices[1..], i - 1, o);
    }
  }

  lemma {:induction false} NoneToLeaveOut(offices: seq<Office>, id: nat)
    requires forall j :: 0 <= j < |offices| ==> offices[j].id != id
    ensures OtherMembers(offices, Some(id)) == OtherMembers(offices, None)
    ensures OtherOffices(offices, Some(id)) == OtherOffices(offices, None)
  {
    if offices != [] { NoneToLeaveOut(offices[1..], id); }
  }

  /** After a call the office counts with its new members, and nothing else moved. */
  lemma UpsertCounts(offices: seq<Office>, id: nat, members: nat, now: int)
    requires DistinctIds(offices)
    ensures DistinctIds(Upsert(offices, id, members, now))
    ensures InUse(Upsert(offices, id, members, now)) == OtherMembers(offices, Some(id)) + members
    ensures ActiveOffices(Upsert(offices, id, members, now)) == OtherOffices(offices, Some(id)) + 1
  {
    var i := Find(offices, id);
    if i < |offices| {
      SumsWithout(offices, i, offices[i].(members := members, lastSeenAt := now, removedAt := None));
    } else {
      SumsAppend(offices, Office(id, "", members, now, now, None), None);
      NoneToLeaveOut(offices, id);
    }
  }

  lemma OwnAndOthers(offices: seq<Office>, id: nat)
    requires DistinctIds(offices)
    ensures OtherOffices(offices, Some(id)) + (if IsActive(offices, id) then 1 else 0) == ActiveOffices(offices)
    ensures OtherMembers(offices, Some(id)) <= InUse(offices)
  {
    var i := Find(offices, id);
    if i < |offices| {
      SumsWithout(offices, i, offices[i]);
      assert offices[i := offices[i]] == offices;
    } else {
      NoneToLeaveOut(offices, id);
    }
  }

  lemma {:induction false} MembersBounded(offices: seq<Office>, except: Option<nat>)
    requires forall i :: 0 <= i < |offices| ==> offices[i].members <= MAX_OFFICE_MEMBERS
    ensures OtherMembers(offices, except) <= 100_000 * OtherOffices(offices, except)
  {
    if offices != [] { MembersBounded(offices[1..], except); }
  }

  // ------------------------------------------------- what each call does to the rows

  type Accounts = map<nat, Account>

  predicate ValidSeats(seats: int) { 1 <= seats <= MAX_SEATS }

  function WithSeats(a: Account, to: nat, now: int): Account {
    a.(seats := to, changes := a.changes + [SeatChange(now, a.seats, to)])
  }

  function Opened(plan: Billing.Plan, kind: Kind, seats: nat, start: Option<int>, now: int): Account {
    Account(plan, kind, seats, None, start, 1, [], [SeatChange(now, 0, seats)])
  }

  function ChangeIn(a: Account, from: int, to: nat, now: int): (Account, Outcome) {
    var inUse := InUse(a.offices);
    if !a.Signed() then (a, Refused(NotSigned))
    else if a.seats != from then (a, Refused(Stale(a.seats, inUse)))
    else if a.plan == Billing.Yearly && to < from then (a, Refused(YearlyDecrease(a.seats, inUse)))
    else if to < inUse then (a, Refused(BelowInUse(a.seats, inUse)))
    else if to == a.seats then (a, SeatsAre(a.seats))
    else (WithSeats(a, to, now), SeatsAre(to))
  }

  function RecordIn(a: Account, office: nat, members: nat, add: bool, now: int): (Account, Outcome) {
    var others, otherOffices := OtherMembers(a.offices, Some(office)), OtherOffices(a.offices, Some(office));
    var active, inUse := IsActive(a.offices, office), others + members;
    if !a.Signed() then (a, Refused(NotSigned))
    else if !active && otherOffices >= MAX_OFFICES then (a, Refused(BadRequest))
    else if add && inUse > a.seats then
      (a, Refused(SeatsFull(a.seats, others + if active then a.offices[Find(a.offices, office)].members else 0)))
    else
      var b := a.(offices := Upsert(a.offices, office, members, now));
      var c := if inUse > a.seats then WithSeats(b, inUse, now) else b;
      (c, Recorded(c.seats, inUse, otherOffices + 1))
  }

  function OfficeIn(a: Account, office: nat, edit: Office -> Office): (Account, Outcome) {
    var i := Find(a.offices, office);
    if IsActive(a.offices, office) then (a.(offices := a.offices[i := edit(a.offices[i])]), Done)
    else (a, Refused(NotFound))
  }

  function Renamed(name: string): Office -> Office { (o: Office) => o.(name := name) }

  function Removed(now: int): Office -> Office { (o: Office) => o.(removedAt := Some(now)) }

  function At(accounts: Accounts, id: nat, result: (Account, Outcome)): (Accounts, Outcome) {
    (accounts[id := result.0], result.1)
  }

  /** One call at `now`, as one transaction under the account's row lock. */
  function Apply(accounts: Accounts, op: Op, now: int): (Accounts, Outcome) {
    match op
    case Create(id, plan, seats) =>
      if !ValidSeats(seats) then (accounts, Refused(Invalid))
      else if id in accounts then (accounts, Refused(Exists))
      else (accounts[id := Opened(plan, Standard, seats, None, now)], Done)
    case CreateNegotiated(id, plan, seats, start) =>
      if !ValidSeats(seats) then (accounts, Refused(Invalid))
      else if id in accounts then (accounts, Refused(Exists))
      else (accounts[id := Opened(plan, Negotiated, seats, Some(start), now)], Done)
    case Sign(id) =>
      if id !in accounts then (accounts, Refused(NoAccount))
      else if accounts[id].kind == Negotiated then (accounts, Refused(IsNegotiated))
      else if accounts[id].signedAt.Some? then (accounts, Refused(AlreadySigned))
      else (accounts[id := accounts[id].(signedAt := Some(now), contractStart := Some(now))], Done)
    case ChangeSeats(id, from, to) =>
      if !ValidSeats(to) || from < 1 then (accounts, Refused(Invalid))
      else if id !in accounts then (accounts, Refused(NoAccount))
      else At(accounts, id, ChangeIn(accounts[id], from, to, now))
    case RecordSeats(secret, call) =>
      if secret.Malformed? || secret.account !in accounts || accounts[secret.account].generation != secret.generation
      then (accounts, Refused(BadSecret))
      else if !(0 <= call.members <= MAX_OFFICE_MEMBERS) then (accounts, Refused(BadRequest))
      else At(accounts, secret.account, RecordIn(accounts[secret.account], call.office, call.members, call.add, now))
    case RenameOffice(id, office, name) =>
      if id !in accounts then (accounts, Refused(NoAccount))
      else At(accounts, id, OfficeIn(accounts[id], office, Renamed(name)))
    case RemoveOffice(id, office) =>
      if id !in accounts then (accounts, Refused(NoAccount))
      else At(accounts, id, OfficeIn(accounts[id], office, Removed(now)))
    case RenewSecret(id) =>
      if id !in accounts then (accounts, Refused(NoAccount))
      else if !accounts[id].Signed() then (accounts, Refused(NotSigned))
      else (accounts[id := accounts[id].(generation := accounts[id].generation + 1)], Done)
  }

  // ------------------------------------------------------------------ the invariant

  /** What every account keeps: its members fit N, its offices and N their bounds,
      and its changes are a chain from 0, never back to 0, that ends at N and, yearly,
      only rises. */
  ghost predicate Sound(a: Account, clock: int) {
    && DistinctIds(a.offices)
    && (forall i :: 0 <= i < |a.offices| ==> a.offices[i].members <= MAX_OFFICE_MEMBERS)
    && InUse(a.offices) <= a.seats
    && ActiveOffices(a.offices) <= MAX_OFFICES
    && 1 <= a.seats <= MOST_SEATS
    && (forall i :: 0 <= i < |a.changes| ==> a.changes[i].to > 0)
    && Chain(a.changes) && a.changes != [] && a.changes[|a.changes| - 1].to == a.seats
    && a.changes[|a.changes| - 1].at <= clock
    && (a.plan == Billing.Yearly ==> Rising(a.changes))
    && (a.kind == Standard && a.contractStart.Some? ==> a.changes[0].at <= a.contractStart.value <= clock)
    && (a.kind == Standard ==> a.contractStart == a.signedAt)
  }

  ghost predicate AllSound(accounts: Accounts, clock: int) {
    forall id :: id in accounts ==> Sound(accounts[id], clock)
  }

  lemma SoundLater(a: Account, clock: int, now: int)
    requires Sound(a, clock) && clock <= now
    ensures Sound(a, now)
  {
  }

  lemma WithSeatsIsSound(a: Account, to: nat, now: int)
    requires Sound(a.(offices := []), now) && to != a.seats && (a.plan == Billing.Yearly ==> a.seats < to)
    requires Sound(a.(offices := [], seats := a.seats), now)
    requires DistinctIds(a.offices) && ActiveOffices(a.offices) <= MAX_OFFICES
    requires forall i :: 0 <= i < |a.offices| ==> a.offices[i].members <= MAX_OFFICE_MEMBERS
    requires InUse(a.offices) <= to && 1 <= to <= MOST_SEATS
    ensures Sound(WithSeats(a, to, now), now)
  {
    assert a.seats == CountBefore(a.changes, |a.changes|);
    ChainGrows(a.changes, SeatChange(now, a.seats, to));
  }

  lemma ChangeIsSound(a: Account, from: int, to: nat, now: int)
    requires Sound(a, now) && ValidSeats(to)
    ensures Sound(ChangeIn(a, from, to, now).0, now)
  {
    if ChangeIn(a, from, to, now).0 != a { WithSeatsIsSound(a, to, now); }
  }

  lemma RecordIsSound(a: Account, office: nat, members: nat, add: bool, now: int)
    requires Sound(a, now) && members <= MAX_OFFICE_MEMBERS
    ensures Sound(RecordIn(a, office, members, add, now).0, now)
  {
    hide Chain, Rising;
    var inUse := OtherMembers(a.offices, Some(office)) + members;
    var b := a.(offices := Upsert(a.offices, office, members, now));
    UpsertCounts(a.offices, office, members, now);
    OwnAndOthers(a.offices, office);
    MembersBounded(b.offices, None);
    if inUse > a.seats && ActiveOffices(b.offices) <= MAX_OFFICES { WithSeatsIsSound(b, inUse, now); }
  }

  lemma OfficeIsSound(a: Account, office: nat, edit: Office -> Office, now: int)
    requires Sound(a, now)
    requires forall o :: edit(o).id == o.id && edit(o).members == o.members && (edit(o).Active() ==> o.Active())
    ensures Sound(OfficeIn(a, office, edit).0, now)
  {
    var i := Find(a.offices, office);
    if IsActive(a.offices, office) {
      SumsWithout(a.offices, i, edit(a.offices[i]));
      SumsWithout(a.offices, i, a.offices[i]);
      assert a.offices[i := a.offices[i]] == a.offices;
    }
  }

  /** Every call keeps every account sound, and so does a refusal. */
  lemma ApplyIsSound(accounts: Accounts, op: Op, clock: int, now: int)
    requires AllSound(accounts, clock) && clock <= now
    ensures AllSound(Apply(accounts, op, now).0, now)
  {
    hide Sound, ChangeIn, RecordIn, OfficeIn, Opened, Chain, Rising;
    forall id | id in accounts ensures Sound(accounts[id], now) { SoundLater(accounts[id], clock, now); }
    match op
    case Create(id, plan, seats) =>
      if ValidSeats(seats) { OpenedIsSound(plan, Standard, seats, None, now); }
    case CreateNegotiated(id, plan, seats, start) =>
      if ValidSeats(seats) { OpenedIsSound(plan, Negotiated, seats, Some(start), now); }
    case Sign(id) =>
      if id in accounts { SignedIsSound(accounts[id], now); }
    case ChangeSeats(id, from, to) =>
      if ValidSeats(to) && id in accounts { ChangeIsSound(accounts[id], from, to, now); }
    case RecordSeats(secret, call) =>
      if secret.Names? && secret.account in accounts && 0 <= call.members <= MAX_OFFICE_MEMBERS {
        RecordIsSound(accounts[secret.account], call.office, call.members, call.add, now);
      }
    case RenameOffice(id, office, name) =>
      if id in accounts { OfficeIsSound(accounts[id], office, Renamed(name), now); }
    case RemoveOffice(id, office) =>
      if id in accounts { OfficeIsSound(accounts[id], office, Removed(now), now); }
    case RenewSecret(id) =>
      if id in accounts { SecretIsSound(accounts[id], now); }
  }

  lemma OpenedIsSound(plan: Billing.Plan, kind: Kind, seats: nat, start: Option<int>, now: int)
    requires ValidSeats(seats) && (kind == Standard ==> start == None)
    ensures Sound(Opened(plan, kind, seats, start, now), now)
  {
  }

  lemma SignedIsSound(a: Account, now: int)
    requires Sound(a, now)
    ensures Sound(a.(signedAt := Some(now), contractStart := Some(now)), now)
  {
    assert a.changes[0].at <= a.changes[|a.changes| - 1].at;
  }

  lemma SecretIsSound(a: Account, now: int)
    requires Sound(a, now)
    ensures Sound(a.(generation := a.generation + 1), now)
  {
  }

  // ------------------------------------------------------------------ every history

  datatype Call = Call(op: Op, now: int)

  function Run(accounts: Accounts, calls: seq<Call>): Accounts {
    if calls == [] then accounts
    else Apply(Run(accounts, calls[..|calls| - 1]), calls[|calls| - 1].op, calls[|calls| - 1].now).0
  }

  ghost predicate ClockRises(calls: seq<Call>) {
    forall i, j :: 0 <= i <= j < |calls| ==> calls[i].now <= calls[j].now
  }

  /** Seat safety, from no accounts on, over every sequence of calls. */
  lemma {:induction false} AlwaysSound(calls: seq<Call>)
    requires ClockRises(calls)
    ensures calls == [] ==> Run(map[], calls) == map[]
    ensures calls != [] ==> AllSound(Run(map[], calls), calls[|calls| - 1].now)
  {
    if calls != [] {
      var n := |calls| - 1;
      AlwaysSound(calls[..n]);
      ApplyIsSound(Run(map[], calls[..n]), calls[n].op, if n > 0 then calls[n - 1].now else calls[n].now, calls[n].now);
    }
  }

  // ------------------------------------------------------------- what an answer means

  /** An add passes exactly when the seats fit, and a refused one writes nothing; a
      check-in is never refused for seats, and lifts N to what is in use. */
  lemma RecordMeans(a: Account, office: nat, members: nat, add: bool, now: int)
    requires Sound(a, now) && a.Signed() && members <= MAX_OFFICE_MEMBERS
    requires IsActive(a.offices, office) || OtherOffices(a.offices, Some(office)) < MAX_OFFICES
    ensures var (b, r) := RecordIn(a, office, members, add, now);
            var inUse := OtherMembers(a.offices, Some(office)) + members;
            && (r.Refused? <==> add && inUse > a.seats)
            && (r.Refused? ==> b == a && r == Refused(SeatsFull(a.seats, InUse(a.offices))))
            && (!r.Refused? ==>
                  && InUse(b.offices) == inUse
                  && r == Recorded(b.seats, InUse(b.offices), ActiveOffices(b.offices))
                  && b.seats == (if inUse > a.seats then inUse else a.seats)
                  && b.changes == a.changes + (if inUse > a.seats then [SeatChange(now, a.seats, inUse)] else [])
                  && b == a.(offices := Upsert(a.offices, office, members, now), seats := b.seats, changes := b.changes))
  {
    UpsertCounts(a.offices, office, members, now);
    var i := Find(a.offices, office);
    if i < |a.offices| {
      SumsWithout(a.offices, i, a.offices[i]);
      assert a.offices[i := a.offices[i]] == a.offices;
    } else {
      NoneToLeaveOut(a.offices, office);
    }
  }

  /** A call of an account that is not signed, or of one more office than a thousand, writes
      nothing. */
  lemma RecordRefused(a: Account, office: nat, members: nat, add: bool, now: int)
    requires DistinctIds(a.offices)
    ensures !a.Signed() ==> RecordIn(a, office, members, add, now) == (a, Refused(NotSigned))
    ensures a.Signed() && !IsActive(a.offices, office) && ActiveOffices(a.offices) >= 1000 ==>
              RecordIn(a, office, members, add, now) == (a, Refused(BadRequest))
  {
    OwnAndOthers(a.offices, office);
  }

  /** A call is of the account that its secret names, if that is its present secret, and for
      0 to 100,000 members; no other account is touched. */
  lemma CallMeans(accounts: Accounts, secret: Secret, call: SeatCall, now: int)
    ensures var (after, r) := Apply(accounts, RecordSeats(secret, call), now);
            && (r == Refused(BadSecret) <==>
                  secret.Malformed? || secret.account !in accounts || accounts[secret.account].generation != secret.generation)
            && (r == Refused(BadSecret) ==> after == accounts)
            && (r != Refused(BadSecret) ==>
                  if 0 <= call.members <= 100_000
                  then var (b, answer) := RecordIn(accounts[secret.account], call.office, call.members, call.add, now);
                       r == answer && after == accounts[secret.account := b]
                  else r == Refused(BadRequest) && after == accounts)
  {
  }

  /** Once a new secret is made, the old one records nothing, whatever it asks. */
  lemma OldSecretIsDead(accounts: Accounts, id: nat, call: SeatCall, now: int, later: int)
    requires id in accounts && accounts[id].Signed()
    ensures var renewed := Apply(accounts, RenewSecret(id), now).0;
            Apply(renewed, RecordSeats(Names(id, accounts[id].generation), call), later) == (renewed, Refused(BadSecret))
  {
  }

  /** The new one works: whatever it is refused for, it is not the secret. */
  lemma NewSecretWorks(accounts: Accounts, id: nat, call: SeatCall, now: int, later: int)
    requires id in accounts && accounts[id].Signed()
    ensures var (renewed, r) := Apply(accounts, RenewSecret(id), now);
            && r == Done && renewed == accounts[id := accounts[id].(generation := accounts[id].generation + 1)]
            && Apply(renewed, RecordSeats(Names(id, accounts[id].generation + 1), call), later).1 != Refused(BadSecret)
  {
  }

  /** A set-up of an id that is new, for 1 to 10,000 seats, opens an account that has them
      from then on; one without a custom price is not signed, and has no contract yet. */
  lemma OpeningMeans(accounts: Accounts, id: nat, plan: Billing.Plan, seats: int, start: int, now: int, negotiated: bool)
    ensures var op := if negotiated then CreateNegotiated(id, plan, seats, start) else Create(id, plan, seats);
            var (after, r) := Apply(accounts, op, now);
            && r == (if !(1 <= seats <= 10_000) then Refused(Invalid) else if id in accounts then Refused(Exists) else Done)
            && (r != Done ==> after == accounts)
            && (r == Done ==>
                  && after.Keys == accounts.Keys + {id} && (forall j :: j in accounts ==> after[j] == accounts[j])
                  && after[id].plan == plan && after[id].seats == seats && after[id].offices == []
                  && after[id].kind == (if negotiated then Negotiated else Standard) && after[id].signedAt == None
                  && after[id].Signed() == negotiated && after[id].contractStart == (if negotiated then Some(start) else None)
                  && after[id].changes == [SeatChange(now, 0, seats)])
  {
  }

  /** A signature is taken of a standard account that has none, and starts its contract. */
  lemma SigningMeans(accounts: Accounts, id: nat, now: int)
    ensures var (after, r) := Apply(accounts, Sign(id), now);
            && (r == Done <==> id in accounts && accounts[id].kind == Standard && accounts[id].signedAt == None)
            && (r == Refused(NoAccount) <==> id !in accounts)
            && (r == Refused(IsNegotiated) <==> id in accounts && accounts[id].kind == Negotiated)
            && (r == Refused(AlreadySigned) <==> id in accounts && accounts[id].kind == Standard && accounts[id].signedAt.Some?)
            && (r != Done ==> after == accounts)
            && (r == Done ==>
                  && after.Keys == accounts.Keys && (forall j :: j in accounts && j != id ==> after[j] == accounts[j])
                  && after[id].signedAt == Some(now) && after[id].contractStart == Some(now) && after[id].Signed()
                  && after[id].seats == accounts[id].seats && after[id].changes == accounts[id].changes && after[id].offices == accounts[id].offices)
  {
  }

  /** A seat change from the count that it was seen at, to one that the seats in use fit,
      and on a yearly plan to no less, makes N that one and writes it down once; any other
      changes nothing. */
  lemma ChangeMeans(accounts: Accounts, id: nat, from: int, to: int, now: int)
    ensures var (after, r) := Apply(accounts, ChangeSeats(id, from, to), now);
            && (r.SeatsAre? <==>
                  && 1 <= to <= 10_000 && from >= 1 && id in accounts && accounts[id].Signed() && accounts[id].seats == from
                  && InUse(accounts[id].offices) <= to && (accounts[id].plan == Billing.Yearly ==> from <= to))
            && (!r.SeatsAre? ==> r.Refused? && after == accounts)
            && (r == Refused(Invalid) <==> !(1 <= to <= 10_000 && from >= 1))
            && (r == Refused(NoAccount) <==> 1 <= to <= 10_000 && from >= 1 && id !in accounts)
            && (id in accounts && 1 <= to <= 10_000 && from >= 1 ==>
                  var a, inUse := accounts[id], InUse(accounts[id].offices);
                  && (r == Refused(NotSigned) <==> !a.Signed())
                  && (a.Signed() ==>
                        && (r == Refused(Stale(a.seats, inUse)) <==> a.seats != from)
                        && (r == Refused(YearlyDecrease(a.seats, inUse)) <==> a.seats == from && a.plan == Billing.Yearly && to < from)
                        && (r == Refused(BelowInUse(a.seats, inUse)) <==> a.seats == from && to < inUse && !(a.plan == Billing.Yearly && to < from))))
            && (r.SeatsAre? ==>
                  && r.seats == to && after.Keys == accounts.Keys && (forall j :: j in accounts && j != id ==> after[j] == accounts[j])
                  && after[id].seats == to && after[id].offices == accounts[id].offices && after[id].plan == accounts[id].plan
                  && after[id].changes == accounts[id].changes + if to == from then [] else [SeatChange(now, from, to)])
  {
    hide InUse;
  }

  /** The row that a call leaves of its office: active, with its members, seen now, and
      joined when it first was; the other offices are as before. */
  lemma UpsertMeans(offices: seq<Office>, id: nat, members: nat, now: int)
    requires DistinctIds(offices)
    ensures var after := Upsert(offices, id, members, now);
            && IsActive(after, id)
            && (forall o :: o in after && o.id == id ==> o.members == members && o.lastSeenAt == now && o.removedAt == None)
            && (forall o :: o in offices && o.id != id ==> o in after) && (forall o :: o in after && o.id != id ==> o in offices)
            && (forall o, p :: o in offices && p in after && o.id == id && p.id == id ==> p.joinedAt == o.joinedAt && p.name == o.name)
            && ((forall o :: o in offices ==> o.id != id) ==> forall p :: p in after && p.id == id ==> p.joinedAt == now)
  {
    var i, after := Find(offices, id), Upsert(offices, id, members, now);
    UpsertCounts(offices, id, members, now);
    var j := Find(after, id);
    if i < |offices| {
      assert after[i].id == id;
      forall k | 0 <= k < |after| && k != i ensures after[k] == offices[k] {}
      forall o | o in offices && o.id != id ensures o in after {
        var k :| 0 <= k < |offices| && offices[k] == o;
        assert after[k] == o;
      }
      assert offices[i] in offices;
    } else {
      assert after[|offices|].id == id;
      assert forall o :: o in offices ==> o.id != id;
    }
  }

  /** The office that a removal or a rename is of. */
  predicate IsIt(offices: seq<Office>, i: nat, id: nat) { i < |offices| && offices[i].id == id && offices[i].removedAt == None }

  /** A removal takes an active office out of the counts and keeps its row; of any other it
      is not found, and so it is a second time. */
  lemma RemovalMeans(accounts: Accounts, id: nat, office: nat, now: int, later: int)
    requires id in accounts && DistinctIds(accounts[id].offices)
    ensures var (after, r) := Apply(accounts, RemoveOffice(id, office), now);
            var offices := accounts[id].offices;
            && (r == Done <==> exists i: nat :: IsIt(offices, i, office))
            && (r != Done ==> r == Refused(NotFound) && after == accounts)
            && (forall i: nat :: IsIt(offices, i, office) ==>
                  && after == accounts[id := accounts[id].(offices := offices[i := offices[i].(removedAt := Some(now))])]
                  && InUse(after[id].offices) == InUse(offices) - offices[i].members
                  && ActiveOffices(after[id].offices) == ActiveOffices(offices) - 1
                  && !IsActive(after[id].offices, office)
                  && Apply(after, RemoveOffice(id, office), later) == (after, Refused(NotFound)))
  {
    var a := accounts[id];
    ItIsFound(a.offices, office);
    var removed := Apply(accounts, RemoveOffice(id, office), now).0;
    assert removed[id := removed[id]] == removed;
    forall i: nat | IsIt(a.offices, i, office)
      ensures InUse(a.offices[i := a.offices[i].(removedAt := Some(now))]) == InUse(a.offices) - a.offices[i].members
      ensures ActiveOffices(a.offices[i := a.offices[i].(removedAt := Some(now))]) == ActiveOffices(a.offices) - 1
      ensures !IsActive(a.offices[i := a.offices[i].(removedAt := Some(now))], office)
    {
      SumsWithout(a.offices, i, a.offices[i].(removedAt := Some(now)));
      SumsWithout(a.offices, i, a.offices[i]);
      assert a.offices[i := a.offices[i]] == a.offices;
    }
  }

  /** A rename changes an active office's name and nothing else. */
  lemma RenameMeans(accounts: Accounts, id: nat, office: nat, name: string, now: int)
    requires id in accounts && DistinctIds(accounts[id].offices)
    ensures var (after, r) := Apply(accounts, RenameOffice(id, office, name), now);
            var offices := accounts[id].offices;
            && (r == Done <==> exists i: nat :: IsIt(offices, i, office))
            && (r != Done ==> r == Refused(NotFound) && after == accounts)
            && (forall i: nat :: IsIt(offices, i, office) ==>
                  && after == accounts[id := accounts[id].(offices := offices[i := offices[i].(name := name)])]
                  && InUse(after[id].offices) == InUse(offices) && ActiveOffices(after[id].offices) == ActiveOffices(offices))
  {
    var a := accounts[id];
    ItIsFound(a.offices, office);
    forall i: nat | IsIt(a.offices, i, office)
      ensures InUse(a.offices[i := a.offices[i].(name := name)]) == InUse(a.offices)
      ensures ActiveOffices(a.offices[i := a.offices[i].(name := name)]) == ActiveOffices(a.offices)
    {
      SumsWithout(a.offices, i, a.offices[i].(name := name));
      SumsWithout(a.offices, i, a.offices[i]);
      assert a.offices[i := a.offices[i]] == a.offices;
    }
  }

  lemma ItIsFound(offices: seq<Office>, id: nat)
    requires DistinctIds(offices)
    ensures forall i: nat :: IsIt(offices, i, id) ==> i == Find(offices, id)
    ensures IsActive(offices, id) <==> exists i: nat :: IsIt(offices, i, id)
  {
    if IsActive(offices, id) { assert IsIt(offices, Find(offices, id), id); }
  }

  // ------------------------------------------------------------ the store of the rows

  class SeatStore {
    var accounts: Accounts
    var clock: int

    ghost predicate Valid()
      reads this
    {
      AllSound(accounts, clock)
    }

    constructor (now: int)
      ensures Valid() && accounts == map[] && clock == now
    {
      accounts, clock := map[], now;
    }

    method CreateEnterprise(id: nat, plan: Billing.Plan, seats: int, now: int) returns (r: Outcome)
      requires Valid() && clock <= now
      modifies this
      ensures Valid() && clock == now
      ensures (accounts, r) == Apply(old(accounts), Create(id, plan, seats), now)
    {
      ApplyIsSound(accounts, Create(id, plan, seats), clock, now);
      clock := now;
      if !ValidSeats(seats) { return Refused(Invalid); }
      if id in accounts { return Refused(Exists); }
      accounts := accounts[id := Opened(plan, Standard, seats, None, now)];
      r := Done;
    }

    method SignAgreement(id: nat, now: int) returns (r: Outcome)
      requires Valid() && clock <= now
      modifies this
      ensures Valid() && clock == now
      ensures (accounts, r) == Apply(old(accounts), Sign(id), now)
    {
      ApplyIsSound(accounts, Sign(id), clock, now);
      clock := now;
      if id !in accounts { return Refused(NoAccount); }
      var row := accounts[id];
      if row.kind == Negotiated { return Refused(IsNegotiated); }
      if row.signedAt.Some? { return Refused(AlreadySigned); }
      accounts := accounts[id := row.(signedAt := Some(now), contractStart := Some(now))];
      r := Done;
    }

    method ChangeSeatCount(id: nat, from: int, to: int, now: int) returns (r: Outcome)
      requires Valid() && clock <= now
      modifies this
      ensures Valid() && clock == now
      ensures (accounts, r) == Apply(old(accounts), ChangeSeats(id, from, to), now)
    {
      hide Sound, InUse;
      ApplyIsSound(accounts, ChangeSeats(id, from, to), clock, now);
      clock := now;
      if !ValidSeats(to) || from < 1 { return Refused(Invalid); }
      if id !in accounts { return Refused(NoAccount); }
      var row := accounts[id];
      assert accounts == accounts[id := row];
      if !row.Signed() { return Refused(NotSigned); }
      var inUse := InUse(row.offices);
      if row.seats != from { return Refused(Stale(row.seats, inUse)); }
      if row.plan == Billing.Yearly && to < from { return Refused(YearlyDecrease(row.seats, inUse)); }
      if to < inUse { return Refused(BelowInUse(row.seats, inUse)); }
      if to == row.seats { return SeatsAre(row.seats); }
      accounts := accounts[id := row.(seats := to)];
      RecordSeatChange(id, now, row.seats, to);
      assert accounts == old(accounts)[id := WithSeats(row, to, now)];
      r := SeatsAre(to);
    }

    /** One change of N, in the transaction that makes it. */
    method RecordSeatChange(id: nat, at: int, from: nat, to: nat)
      requires id in accounts
      modifies this`accounts
      ensures accounts == old(accounts)[id := old(accounts)[id].(changes := old(accounts)[id].changes + [SeatChange(at, from, to)])]
    {
      var row := accounts[id];
      accounts := accounts[id := row.(changes := row.changes + [SeatChange(at, from, to)])];
    }

    method RecordOfficeSeats(secret: Secret, call: SeatCall, now: int) returns (r: Outcome)
      requires Valid() && clock <= now
      modifies this
      ensures Valid() && clock == now
      ensures (accounts, r) == Apply(old(accounts), RecordSeats(secret, call), now)
    {
      hide Sound, OtherMembers, OtherOffices, Upsert, AllSound;
      ghost var (after, answer) := Apply(accounts, RecordSeats(secret, call), now);
      assert AllSound(after, now) by { ApplyIsSound(accounts, RecordSeats(secret, call), clock, now); }
      clock := now;
      if secret.Malformed? || secret.account !in accounts || accounts[secret.account].generation != secret.generation {
        return Refused(BadSecret);
      }
      if call.members < 0 || call.members > MAX_OFFICE_MEMBERS { return Refused(BadRequest); }
      var id, office := secret.account, call.office;
      var row := accounts[id];
      assert accounts == accounts[id := row];
      if !row.Signed() { return Refused(NotSigned); }
      var otherMembers, otherOffices := OtherMembers(row.offices, Some(office)), OtherOffices(row.offices, Some(office));
      var own := Find(row.offices, office);
      var active := own < |row.offices| && row.offices[own].Active();
      if !active && otherOffices >= MAX_OFFICES { return Refused(BadRequest); }
      var inUse := otherMembers + call.members;
      if call.add && inUse > row.seats {
        return Refused(SeatsFull(row.seats, otherMembers + if active then row.offices[own].members else 0));
      }
      accounts := accounts[id := row.(offices := Upsert(row.offices, office, call.members, now))];
      var newSeats := row.seats;
      if inUse > row.seats {
        newSeats := inUse;
        accounts := accounts[id := accounts[id].(seats := newSeats)];
        RecordSeatChange(id, now, row.seats, newSeats);
        assert accounts[id] == WithSeats(row.(offices := Upsert(row.offices, office, call.members, now)), newSeats, now);
      }
      assert accounts == old(accounts)[id := accounts[id]];
      r := Recorded(newSeats, inUse, otherOffices + 1);
    }

    method RemoveOneOffice(id: nat, office: nat, now: int) returns (r: Outcome)
      requires Valid() && clock <= now
      modifies this
      ensures Valid() && clock == now
      ensures (accounts, r) == Apply(old(accounts), RemoveOffice(id, office), now)
    {
      ApplyIsSound(accounts, RemoveOffice(id, office), clock, now);
      clock := now;
      if id !in accounts { return Refused(NoAccount); }
      var row := accounts[id];
      assert accounts == accounts[id := row];
      var i := Find(row.offices, office);
      if i == |row.offices| || !row.offices[i].Active() { return Refused(NotFound); }
      accounts := accounts[id := row.(offices := row.offices[i := row.offices[i].(removedAt := Some(now))])];
      r := Done;
    }
  }
}
