/** The latch of a paid create: the transactions that arm it, settle it and adopt what
    it bought, each all or nothing. */
module Latch {
  import opened Basics

  datatype IntentState = Intended | Created | Rejected | Ambiguous

  datatype Intent = Intent(state: IntentState, provider: Option<nat>, version: nat)

  datatype Phase = Nothing | Armed | Quarantine | Bought | Declined | Adopted

  /** What an operation has written down. */
  datatype Evidence = Evidence(phase: Phase, intent: Option<nat>, provider: Option<nat>)

  const NO_EVIDENCE := Evidence(Nothing, None, None)

  datatype Status = Pending | Running | Succeeded | Failed | Unclear

  /** `want` is the intent its create would be for. */
  datatype Operation = Operation(
    instance: nat, want: nat, status: Status, evidence: Evidence,
    version: nat, holder: Option<nat>, until: Option<int>)

  /** A provider id that is absent is an empty one. */
  datatype Outcome = BoughtIt(provider: Option<nat>) | DeclinedIt | Unknown

  /** The three tables. An instance's asset row can still lack its provider id. */
  datatype Db = Db(intents: map<nat, Intent>, operations: map<nat, Operation>, assets: map<nat, Option<nat>>)

  /** A file of the journal that came before the table. */
  datatype Legacy = Readable(state: Option<IntentState>, provider: Option<nat>) | Unreadable

  datatype Fence = Fence(operation: nat, version: nat, holder: nat)

  // ----------------------------------------------------------------- compare and set

  predicate Holds(db: Db, f: Fence) {
    && f.operation in db.operations
    && db.operations[f.operation].version == f.version
    && db.operations[f.operation].holder == Some(f.holder)
  }

  function SetOperation(db: Db, f: Fence, status: Status, evidence: Evidence): Db
    requires Holds(db, f)
  {
    var o := db.operations[f.operation];
    db.(operations := db.operations[f.operation := o.(status := status, evidence := evidence, version := o.version + 1)])
  }

  // ----------------------------------------------------------------------- arming

  datatype Arming = Permit(version: nat) | Refused | FenceLost

  /** One transaction: the intent's row and the operation's evidence, or neither. */
  function Arm(db: Db, journal: map<nat, Legacy>, intent: nat, f: Fence): (Db, Arming) {
    if intent in journal || intent in db.intents then (db, Refused)
    else if !Holds(db, f) then (db, FenceLost)
    else
      var latched := db.(intents := db.intents[intent := Intent(Intended, None, 1)]);
      (SetOperation(latched, f, Running, Evidence(Armed, Some(intent), None)), Permit(f.version + 1))
  }

  // ----------------------------------------------------------------------- adoption

  datatype Adoption = Adopts | Refuses | Throws

  predicate HeldElsewhere(assets: map<nat, Option<nat>>, provider: nat, instance: nat) {
    exists other :: other in assets && other != instance && assets[other] == Some(provider)
  }

  /** A box that another instance holds is refused; a second box for one instance, or
      one without a name, is an exception. */
  function AdoptIn(assets: map<nat, Option<nat>>, instance: nat, provider: Option<nat>): (map<nat, Option<nat>>, Adoption) {
    if provider.None? then (assets, Throws)
    else if HeldElsewhere(assets, provider.value, instance) then (assets, Refuses)
    else if instance in assets && assets[instance].Some? then
      (assets, if assets[instance] == provider then Adopts else Throws)
    else (assets[instance := provider], Adopts)
  }

  ghost predicate OneHolder(assets: map<nat, Option<nat>>) {
    forall a, b :: a in assets && b in assets && assets[a].Some? && assets[a] == assets[b] ==> a == b
  }

  /** No box ever has two instances, nor an instance a second box. */
  lemma AdoptionKeeps(assets: map<nat, Option<nat>>, instance: nat, provider: Option<nat>)
    requires OneHolder(assets)
    ensures var (after, r) := AdoptIn(assets, instance, provider);
            && OneHolder(after)
            && (forall a :: a in assets ==> a in after && (assets[a].Some? ==> after[a] == assets[a]))
            && (r == Adopts ==> after == assets[instance := provider] && provider.Some?)
            && (r == Adopts <==>
                  && provider.Some? && (forall a :: a in assets && a != instance ==> assets[a] != provider)
                  && (instance in assets ==> assets[instance] == None || assets[instance] == provider))
            && (r != Adopts ==> after == assets)
            && (r == Refuses <==> provider.Some? && exists a :: a in assets && a != instance && assets[a] == provider)
  {
  }

  /** A retry after a crash finds the box adopted, and changes nothing. */
  lemma AdoptionRepeats(assets: map<nat, Option<nat>>, instance: nat, provider: Option<nat>)
    requires OneHolder(assets) && AdoptIn(assets, instance, provider).1 == Adopts
    ensures AdoptIn(AdoptIn(assets, instance, provider).0, instance, provider) == (AdoptIn(assets, instance, provider).0, Adopts)
  {
  }

  // ----------------------------------------------------------------------- settling

  datatype Settlement = Settled(adoption: Adoption) | Lost

  function StateOf(outcome: Outcome): IntentState {
    match outcome case BoughtIt(_) => Created case DeclinedIt => Rejected case Unknown => Ambiguous
  }

  function StatusOf(outcome: Outcome): Status {
    match outcome case BoughtIt(_) => Running case DeclinedIt => Failed case Unknown => Unclear
  }

  function EvidenceOf(intent: nat, outcome: Outcome): Evidence {
    match outcome
    case BoughtIt(provider) => Evidence(Bought, Some(intent), provider)
    case DeclinedIt => Evidence(Declined, Some(intent), None)
    case Unknown => Evidence(Quarantine, Some(intent), None)
  }

  /** One transaction: what the call turned out to do, on the intent, on the operation
      and, when it bought a box, on the instance's asset. Lost: none of it. */
  function Settle(db: Db, intent: nat, f: Fence, outcome: Outcome): (Db, Settlement) {
    if intent !in db.intents || !Holds(db, f) then (db, Lost)
    else
      var row := db.intents[intent];
      var provider := if outcome.BoughtIt? then outcome.provider else row.provider;
      var told := db.(intents := db.intents[intent := Intent(StateOf(outcome), provider, row.version + 1)]);
      var owned := SetOperation(told, f, StatusOf(outcome), EvidenceOf(intent, outcome));
      if !outcome.BoughtIt? then (owned, Settled(Adopts))
      else
        var (assets, r) := AdoptIn(owned.assets, owned.operations[f.operation].instance, outcome.provider);
        if r == Throws then (db, Lost) else (owned.(assets := assets), Settled(r))
  }

  /** A settlement is whole or nothing; a whole one is the outcome, everywhere. */
  lemma SettlesWhole(db: Db, intent: nat, f: Fence, outcome: Outcome)
    ensures var (after, r) := Settle(db, intent, f, outcome);
            && (r.Lost? ==> after == db)
            && (r.Lost? <==> intent !in db.intents || !Holds(db, f)
                             || (outcome.BoughtIt? && AdoptIn(db.assets, db.operations[f.operation].instance, outcome.provider).1 == Throws))
            && (r.Settled? ==>
                  && Holds(db, f) && intent in db.intents
                  && after.intents.Keys == db.intents.Keys && after.operations.Keys == db.operations.Keys && !Holds(after, f)
                  && (forall i :: i in db.intents && i != intent ==> after.intents[i] == db.intents[i])
                  && (forall o :: o in db.operations && o != f.operation ==> after.operations[o] == db.operations[o])
                  && (var row, o := after.intents[intent], after.operations[f.operation];
                      match outcome
                      case BoughtIt(provider) =>
                        row.state == Created && o.status == Running && o.evidence == Evidence(Bought, Some(intent), provider)
                      case DeclinedIt => row.state == Rejected && o.status == Failed && o.evidence == Evidence(Declined, Some(intent), None)
                      case Unknown => row.state == Ambiguous && o.status == Unclear && o.evidence == Evidence(Quarantine, Some(intent), None))
                  && after.intents[intent].provider == (if outcome.BoughtIt? then outcome.provider else db.intents[intent].provider)
                  && after.operations[f.operation].instance == db.operations[f.operation].instance
                  && after.operations[f.operation].holder == Some(f.holder) && after.operations[f.operation].version == f.version + 1
                  && after.assets == if outcome.BoughtIt? && r.adoption == Adopts
                                     then db.assets[db.operations[f.operation].instance := outcome.provider]
                                     else db.assets)
  {
  }

  // ---------------------------------------------------------------- the old journal

  /** What a file is imported as: anything unreadable or unknown forbids. */
  function Import(file: Legacy): Intent {
    match file
    case Unreadable => Intent(Ambiguous, None, 1)
    case Readable(state, provider) => Intent(if state.Some? then state.value else Ambiguous, provider, 1)
  }

  function ImportAll(intents: map<nat, Intent>, journal: map<nat, Legacy>, names: seq<nat>): map<nat, Intent>
    requires forall n :: n in names ==> n in journal
  {
    if names == [] then intents
    else
      var sofar, n := ImportAll(intents, journal, names[..|names| - 1]), names[|names| - 1];
      if n in sofar then sofar else sofar[n := Import(journal[n])]
  }

  /** The import only forbids more: rows stay as they are, every file has one after. */
  lemma {:induction false} ImportForbids(intents: map<nat, Intent>, journal: map<nat, Legacy>, names: seq<nat>)
    requires forall n :: n in names ==> n in journal
    ensures var after := ImportAll(intents, journal, names);
            && (forall i :: i in intents ==> i in after && after[i] == intents[i])
            && (forall n :: n in names ==> n in after)
            && (forall i :: i in after && i !in intents ==> i in names && after[i] == Import(journal[i]))
            && (forall i :: i in after && i !in intents ==>
                  if journal[i].Readable? && journal[i].state.Some? then after[i].state == journal[i].state.value && after[i].provider == journal[i].provider
                  else after[i].state == Ambiguous)
  {
    if names != [] { ImportForbids(intents, journal, names[..|names| - 1]); }
  }

  // ------------------------------------------------------------------ the one store

  /** Permission for one create, in the stack frame that latched. */
  class CreatePermit {
    const intent: nat
    var spent: bool

    constructor (intent: nat)
      ensures this.intent == intent && !spent
    {
      this.intent, spent := intent, false;
    }

    /** Spent before the call: whoever comes back finds it spent. */
    method Consume() returns (ok: bool)
      modifies this
      ensures spent && ok == !old(spent)
    {
      ok := !spent;
      spent := true;
    }
  }

  class Store {
    var db: Db
    const journal: map<nat, Legacy>

    constructor (journal: map<nat, Legacy>)
      ensures this.journal == journal && db == Db(map[], map[], map[])
    {
      this.journal, db := journal, Db(map[], map[], map[]);
    }

    /** The fenced compare-and-set of an operation. */
    method CasOperation(f: Fence, status: Status, evidence: Evidence) returns (ok: bool)
      modifies this
      ensures ok == Holds(old(db), f)
      ensures db == if ok then SetOperation(old(db), f, status, evidence) else old(db)
    {
      ok := Holds(db, f);
      if ok { db := SetOperation(db, f, status, evidence); }
    }

    /** Arms one create: a permit, or nothing written. */
    method ArmOnce(intent: nat, f: Fence) returns (permit: CreatePermit?, answer: Arming)
      modifies this
      ensures (db, answer) == Arm(old(db), journal, intent, f)
      ensures permit != null <==> answer.Permit?
      ensures answer.Permit? <==> intent !in journal && intent !in old(db).intents && Holds(old(db), f)
      ensures answer.Permit? ==>
                && db.intents == old(db).intents[intent := Intent(Intended, None, 1)] && db.assets == old(db).assets
                && db.operations[f.operation] == old(db).operations[f.operation].(
                     status := Running, evidence := Evidence(Armed, Some(intent), None), version := answer.version)
                && (forall o :: o in db.operations && o != f.operation ==> o in old(db).operations && db.operations[o] == old(db).operations[o])
      ensures !answer.Permit? ==> db == old(db) && (answer.Refused? <==> intent in journal || intent in old(db).intents)
      ensures permit != null ==> fresh(permit) && permit.intent == intent && !permit.spent
    {
      permit := null;
      var before := db;
      if intent in journal { return null, Refused; }
      if intent in db.intents { return null, Refused; }
      db := db.(intents := db.intents[intent := Intent(Intended, None, 1)]);
      var ok := CasOperation(f, Running, Evidence(Armed, Some(intent), None));
      if !ok {
        db := before;
        return null, FenceLost;
      }
      permit := new CreatePermit(intent);
      answer := Permit(f.version + 1);
    }

    method AdoptAsset(instance: nat, provider: Option<nat>) returns (r: Adoption)
      modifies this
      ensures db == old(db).(assets := AdoptIn(old(db).assets, instance, provider).0)
      ensures r == AdoptIn(old(db).assets, instance, provider).1
    {
      if provider.None? { return Throws; }
      if HeldElsewhere(db.assets, provider.value, instance) { return Refuses; }
      if instance in db.assets && db.assets[instance] == provider { return Adopts; }
      if instance in db.assets && db.assets[instance].Some? { return Throws; }
      db := db.(assets := db.assets[instance := provider]);
      r := Adopts;
    }

    /** Writes down what a call did, or rolls every write back. */
    method SettleOutcome(intent: nat, f: Fence, outcome: Outcome) returns (r: Settlement)
      modifies this
      ensures (db, r) == Settle(old(db), intent, f, outcome)
    {
      var before := db;
      if intent !in db.intents { return Lost; }
      var row := db.intents[intent];
      db := db.(intents := db.intents[intent :=
        Intent(StateOf(outcome), if outcome.BoughtIt? then outcome.provider else row.provider, row.version + 1)]);
      var ok := CasOperation(f, StatusOf(outcome), EvidenceOf(intent, outcome));
      if !ok {
        db := before;
        return Lost;
      }
      var adopted := Adopts;
      if outcome.BoughtIt? { adopted := AdoptAsset(db.operations[f.operation].instance, outcome.provider); }
      if adopted == Throws {
        db := before;
        return Lost;
      }
      r := Settled(adopted);
    }

    /** Imports the old journal, name by name. */
    method MigrateLegacyIntents(names: seq<nat>) returns (imported: nat)
      requires forall n :: n in names ==> n in journal
      modifies this
      ensures db == old(db).(intents := ImportAll(old(db).intents, journal, names))
      ensures |db.intents| == |old(db).intents| + imported
    {
      imported := 0;
      for k := 0 to |names|
        invariant db == old(db).(intents := ImportAll(old(db).intents, journal, names[..k]))
        invariant |db.intents| == |old(db).intents| + imported
      {
        assert names[..k + 1][..k] == names[..k];
        if names[k] in db.intents { continue; }
        db := db.(intents := db.intents[names[k] := Import(journal[names[k]])]);
        imported := imported + 1;
      }
      assert names[..|names|] == names;
    }
  }
}
