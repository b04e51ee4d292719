/** Every run of any number of workers over the create latch: leases that are stolen,
    crashes at any point, settlements that fail, restarts. */
module Create {
  import opened Basics
  import opened Latch

  /** What the handler does next, from what is written down. */
  datatype Decision = FindOnly | Recorded(provider: Option<nat>) | IsDeclined | Spend

  function Decide(evidence: Evidence, row: Option<Intent>): Decision {
    if evidence.phase == Armed || evidence.phase == Quarantine
       || (row.Some? && (row.value.state == Intended || row.value.state == Ambiguous)) then FindOnly
    else if (row.Some? && row.value.state == Created) || evidence.phase == Bought then
      Recorded(if row.Some? && row.value.provider.Some? then row.value.provider else evidence.provider)
    else if (row.Some? && row.value.state == Rejected) || evidence.phase == Declined then IsDeclined
    else Spend
  }

  /** The intent the handler works on. */
  function IntentOf(o: Operation): nat {
    if o.evidence.intent.Some? then o.evidence.intent.value else o.want
  }

  function RowOf(db: Db, intent: nat): Option<Intent> {
    if intent in db.intents then Some(db.intents[intent]) else None
  }

  /** The one arm that may spend is reached exactly when nothing is written down; in
      particular, from an armed, ambiguous or intended state the handler only finds. */
  lemma SpendsOnlyFromNothing(evidence: Evidence, row: Option<Intent>)
    ensures Decide(evidence, row) == Spend <==> row.None? && (evidence.phase == Nothing || evidence.phase == Adopted)
    ensures evidence.phase == Armed || evidence.phase == Quarantine || (row.Some? && row.value.state in {Intended, Ambiguous}) <==>
            Decide(evidence, row) == FindOnly
  {
  }

  /** What a handler returns to be written down. */
  datatype Result = Done(told: Option<Evidence>) | Waiting(evidence: Evidence) | Unsure | Fatal

  /** Where a worker is: the frames between two of its calls. A frame from `Holding` to
      `Settling` is of the stack that latched; no other state carries a permit. */
  datatype Frame =
    | Idle
    | Leased(f: Fence)
    | Read(f: Fence, o: Operation)
    | Finding(f: Fence, intent: nat)
    | Adopting(f: Fence, intent: nat, provider: Option<nat>, after: Phase)
    | Spending(f: Fence, intent: nat)
    | Holding(f: Fence, intent: nat, spent: bool)
    | Announced(f: Fence, intent: nat)
    | Called(f: Fence, intent: nat, outcome: Outcome)
    | Settling(f: Fence, intent: nat, outcome: Outcome)
    | Finishing(f: Fence, result: Result)

  datatype Sys = Sys(db: Db, journal: map<nat, Legacy>, now: int, calls: map<nat, nat>, frames: map<nat, Frame>)

  function FrameOf(s: Sys, w: nat): Frame { if w in s.frames then s.frames[w] else Idle }

  /** How often the provider's create was called for an intent. */
  function Calls(s: Sys, intent: nat): nat { if intent in s.calls then s.calls[intent] else 0 }

  function At(s: Sys, w: nat, frame: Frame): Sys { s.(frames := s.frames[w := frame]) }

  /** What a search of the provider says. */
  datatype Search = Exact(provider: Option<nat>) | Unproven | NotFound | SearchFails

  /** How a transaction ends: also committed, with its answer lost. */
  datatype Commit = Commits | RollsBack | AckLost

  datatype Event =
    | Tick(now: int)
    | Enqueue(operation: nat, instance: nat, want: nat)
    | Flag(operation: nat)
    | Migrate(intent: nat)
    | Crash(w: nat)
    | Lease(w: nat, operation: nat, until: int)
    | Renew(w: nat, until: int)
    | ReadOperation(w: nat)
    | ReadIntent(w: nat)
    | TryArm(w: nat, commit: Commit)
    | Consume(w: nat)
    | Announce(w: nat, fails: bool)
    | CallCreate(w: nat, outcome: Outcome)
    | AuditCall(w: nat, fails: bool)
    | TrySettle(w: nat, commit: Commit)
    | Find(w: nat, found: Search)
    | Adopt(w: nat, commit: Commit)
    | Finish(w: nat, commit: Commit)

  /** A file of the old journal is imported. */
  function Migrated(s: Sys, i: nat): Sys {
    if i in s.db.intents || i !in s.journal then s
    else s.(db := s.db.(intents := s.db.intents[i := Import(s.journal[i])]))
  }

  /** The arming transaction, and the permit it mints when its commit returns. */
  function ArmedBy(s: Sys, w: nat, commit: Commit): Sys {
    if !FrameOf(s, w).Spending? then s
    else
      var Spending(f, i) := FrameOf(s, w);
      var (db, answer) := Arm(s.db, s.journal, i, f);
      if commit == RollsBack || !answer.Permit? then At(s, w, Finishing(f, Unsure))
      else At(s.(db := db), w, if commit == Commits then Holding(f.(version := answer.version), i, false) else Finishing(f, Unsure))
  }

  /** The paid call. */
  function CalledBy(s: Sys, w: nat, outcome: Outcome): Sys {
    if !FrameOf(s, w).Announced? then s
    else
      var Announced(f, i) := FrameOf(s, w);
      At(s.(calls := s.calls[i := Calls(s, i) + 1]), w, Called(f, i, outcome))
  }

  /** The settling transaction. */
  function SettledBy(s: Sys, w: nat, commit: Commit): Sys {
    if !FrameOf(s, w).Settling? then s
    else
      var Settling(f, i, outcome) := FrameOf(s, w);
      var (db, r) := Settle(s.db, i, f, outcome);
      if commit == RollsBack || r.Lost? then At(s, w, Finishing(f, Unsure))
      else At(s.(db := db), w, Finishing(f, if commit == Commits then Told(outcome, r.adoption) else Unsure))
  }

  /** The steps that touch no intent and call nothing. */
  function Quiet(s: Sys, e: Event): Sys {
    match e
    case Tick(now) => if s.now <= now then s.(now := now) else s
    case Enqueue(o, instance, want) =>
      if o in s.db.operations then s
      else s.(db := s.db.(operations := s.db.operations[o := Operation(instance, want, Pending, NO_EVIDENCE, 1, None, None)]))
    case Flag(o) =>
      if o !in s.db.operations || Leases(s, o) then s
      else s.(db := s.db.(operations := s.db.operations[o := s.db.operations[o].(version := s.db.operations[o].version + 1)]))
    case Crash(w) => At(s, w, Idle)
    case Lease(w, o, until) =>
      if FrameOf(s, w) != Idle || o !in s.db.operations || Leases(s, o) || s.db.operations[o].status in {Succeeded, Failed} then s
      else
        var row := s.db.operations[o];
        var leased := row.(version := row.version + 1, holder := Some(w), until := Some(until),
                           status := if row.status == Pending then Running else row.status);
        At(s.(db := s.db.(operations := s.db.operations[o := leased])), w, Leased(Fence(o, leased.version, w)))
    case Renew(w, until) =>
      if !FrameOf(s, w).Leased? then s
      else
        var f := FrameOf(s, w).f;
        if !Holds(s.db, f) then At(s, w, Idle)
        else
          var row := s.db.operations[f.operation];
          var renewed := s.db.operations[f.operation := row.(version := row.version + 1, until := Some(until))];
          At(s.(db := s.db.(operations := renewed)), w, Leased(f.(version := f.version + 1)))
    case ReadOperation(w) =>
      if !FrameOf(s, w).Leased? then s
      else
        var f := FrameOf(s, w).f;
        if f.operation !in s.db.operations then s else At(s, w, Read(f, s.db.operations[f.operation]))
    case ReadIntent(w) => if !FrameOf(s, w).Read? then s else At(s, w, Decided(s, FrameOf(s, w)))
    case Consume(w) =>
      if !FrameOf(s, w).Holding? then s
      else if FrameOf(s, w).spent then At(s, w, Finishing(FrameOf(s, w).f, Unsure))
      else At(s, w, FrameOf(s, w).(spent := true))
    case Announce(w, fails) =>
      if !FrameOf(s, w).Holding? || !FrameOf(s, w).spent then s
      else if fails then At(s, w, Finishing(FrameOf(s, w).f, Unsure))
      else At(s, w, Announced(FrameOf(s, w).f, FrameOf(s, w).intent))
    case AuditCall(w, fails) =>
      if !FrameOf(s, w).Called? then s
      else
        var Called(f, i, outcome) := FrameOf(s, w);
        At(s, w, Settling(f, i, if fails then Unknown else outcome))
    case Find(w, found) => if !FrameOf(s, w).Finding? then s else At(s, w, Searched(FrameOf(s, w), found))
    case Adopt(w, commit) =>
      if !FrameOf(s, w).Adopting? then s
      else
        var Adopting(f, i, provider, after) := FrameOf(s, w);
        if f.operation !in s.db.operations then s
        else
          var (assets, r) := AdoptIn(s.db.assets, s.db.operations[f.operation].instance, provider);
          if commit == RollsBack || r != Adopts then At(s, w, Finishing(f, Unsure))
          else At(s.(db := s.db.(assets := assets)), w,
                  Finishing(f, if commit == Commits then Done(Some(Evidence(after, None, provider))) else Unsure))
    case Finish(w, commit) =>
      if !FrameOf(s, w).Finishing? then s
      else
        var Finishing(f, result) := FrameOf(s, w);
        if commit == RollsBack || f.operation !in s.db.operations || s.db.operations[f.operation].holder != Some(f.holder)
        then At(s, w, Idle)
        else At(s.(db := s.db.(operations := s.db.operations[f.operation := Closed(s.db.operations[f.operation], result)])), w, Idle)
    case _ => s
  }

  /** One step of one worker, or of the world; an event that does not apply does nothing. */
  function Step(s: Sys, e: Event): Sys {
    match e
    case Migrate(i) => Migrated(s, i)
    case TryArm(w, commit) => ArmedBy(s, w, commit)
    case CallCreate(w, outcome) => CalledBy(s, w, outcome)
    case TrySettle(w, commit) => SettledBy(s, w, commit)
    case _ => Quiet(s, e)
  }

  predicate Leases(s: Sys, o: nat)
    requires o in s.db.operations
  {
    s.db.operations[o].until.Some? && s.db.operations[o].until.value > s.now
  }

  function Decided(s: Sys, frame: Frame): Frame
    requires frame.Read?
  {
    var i := IntentOf(frame.o);
    match Decide(frame.o.evidence, RowOf(s.db, i))
    case FindOnly => Finding(frame.f, i)
    case Recorded(provider) =>
      if provider.None? then Finishing(frame.f, Unsure) else Adopting(frame.f, i, provider, Bought)
    case IsDeclined => Finishing(frame.f, Fatal)
    case Spend => Spending(frame.f, i)
  }

  function Searched(frame: Frame, found: Search): Frame
    requires frame.Finding?
  {
    match found
    case Exact(provider) =>
      if provider.None? then Finishing(frame.f, Unsure) else Adopting(frame.f, frame.intent, provider, Adopted)
    case Unproven => Finishing(frame.f, Unsure)
    case SearchFails => Finishing(frame.f, Unsure)
    case NotFound => Finishing(frame.f, Waiting(Evidence(Quarantine, Some(frame.intent), None)))
  }

  function Told(outcome: Outcome, adoption: Adoption): Result {
    match outcome
    case BoughtIt(_) => if adoption == Adopts then Done(None) else Unsure
    case DeclinedIt => Fatal
    case Unknown => Unsure
  }

  /** The result written on the operation, and the lease given back. */
  function Closed(o: Operation, result: Result): Operation {
    var open := o.(version := o.version + 1, holder := None, until := None);
    match result
    case Done(told) => open.(status := Succeeded, evidence := if told.Some? then told.value else o.evidence)
    case Waiting(evidence) => open.(evidence := evidence)
    case Unsure => open.(status := Unclear)
    case Fatal => open.(status := Failed)
  }

  // ------------------------------------------------------------------ the invariant

  /** The worker's stack latched this intent and has not settled it. */
  predicate Owns(frame: Frame, intent: nat) {
    (frame.Holding? || frame.Announced? || frame.Called? || frame.Settling?) && frame.intent == intent
  }

  /** And it may still call. */
  predicate MayCall(frame: Frame, intent: nat) {
    (frame.Holding? || frame.Announced?) && frame.intent == intent
  }

  ghost predicate IntentSound(s: Sys, i: nat) {
    && Calls(s, i) <= 1
    && (Calls(s, i) > 0 ==> i in s.db.intents && i !in s.journal)
    && (forall w :: w in s.frames && Owns(s.frames[w], i) ==>
          && i in s.db.intents && s.db.intents[i] == Intent(Intended, None, 1) && i !in s.journal
          && (MayCall(s.frames[w], i) ==> Calls(s, i) == 0))
    && (forall v, w :: v in s.frames && w in s.frames && Owns(s.frames[v], i) && Owns(s.frames[w], i) ==> v == w)
  }

  /** Evidence of a create names an intent that is latched. */
  predicate EvidenceSound(db: Db, e: Evidence) {
    e.phase in {Armed, Quarantine} ==> e.intent.Some? && e.intent.value in db.intents
  }

  /** What a frame has read or is about to write is backed by a latched row. */
  predicate FrameSound(db: Db, frame: Frame) {
    match frame
    case Read(_, o) => EvidenceSound(db, o.evidence)
    case Finding(_, i) => i in db.intents
    case Adopting(_, _, _, after) => after == Bought || after == Adopted
    case Finishing(_, Waiting(e)) => EvidenceSound(db, e) && e.phase != Nothing
    case Finishing(_, Done(Some(e))) => EvidenceSound(db, e) && e.phase != Nothing
    case _ => true
  }

  ghost predicate Sound(s: Sys) {
    && (forall i: nat :: IntentSound(s, i))
    && OneHolder(s.db.assets)
    && Backed(s)
  }

  // ------------------------------------------------------------------ every step keeps it

  /** What a step may do to an intent: rows stay, a row that somebody settled is never
      intended again, a box once named is never renamed. */
  ghost predicate Forward(s: Sys, t: Sys) {
    && t.journal == s.journal
    && (forall i :: i in s.db.intents ==> i in t.db.intents && (t.db.intents[i].state == Intended ==> t.db.intents[i] == s.db.intents[i]))
    && (forall i: nat :: Calls(s, i) <= Calls(t, i))
    && (forall a :: a in s.db.assets && s.db.assets[a].Some? ==> a in t.db.assets && t.db.assets[a] == s.db.assets[a])
    && (forall o :: o in s.db.operations ==> o in t.db.operations)
    && (forall o :: o in s.db.operations && s.db.operations[o].evidence.phase != Nothing ==>
          t.db.operations[o].evidence.phase != Nothing)
  }

  /** The worker a quiet step is of. */
  function Mover(e: Event): nat {
    match e
    case Crash(w) => w case Lease(w, _, _) => w case Renew(w, _) => w case ReadOperation(w) => w
    case ReadIntent(w) => w case Consume(w) => w case Announce(w, _) => w case AuditCall(w, _) => w
    case Find(w, _) => w case Adopt(w, _) => w case Finish(w, _) => w
    case _ => 0
  }

  /** It leaves the frames alone, or moves its own, which latches nothing. */
  predicate MovesOwn(s: Sys, t: Sys, w: nat, i: nat) {
    t.frames == s.frames || (t.frames == s.frames[w := FrameOf(t, w)]
      && (Owns(FrameOf(t, w), i) ==> Owns(FrameOf(s, w), i))
      && (MayCall(FrameOf(t, w), i) ==> MayCall(FrameOf(s, w), i)))
  }

  lemma LeasingMover(s: Sys, e: Event, i: nat)
    requires e.Crash? || e.Lease? || e.Renew? || e.ReadOperation? || e.ReadIntent?
    ensures MovesOwn(s, Quiet(s, e), Mover(e), i)
  {
    hide Holds, Leases, Decide, IntentOf, RowOf;
  }

  lemma CreatingMover(s: Sys, e: Event, i: nat)
    requires !e.Crash? && !e.Lease? && !e.Renew? && !e.ReadOperation? && !e.ReadIntent?
    ensures MovesOwn(s, Quiet(s, e), Mover(e), i)
  {
    hide AdoptIn, Closed, Leases;
  }

  lemma QuietMover(s: Sys, e: Event, i: nat)
    ensures MovesOwn(s, Quiet(s, e), Mover(e), i)
  {
    hide Quiet, Mover, MovesOwn;
    if e.Crash? || e.Lease? || e.Renew? || e.ReadOperation? || e.ReadIntent? { LeasingMover(s, e, i); } else { CreatingMover(s, e, i); }
  }

  lemma QuietTables(s: Sys, e: Event)
    ensures var t := Quiet(s, e);
            t.db.intents == s.db.intents && t.calls == s.calls && t.journal == s.journal
  {
    hide AdoptIn, Closed, Holds, Leases, Decided, Searched;
  }

  lemma QuietIs(s: Sys, e: Event, i: nat)
    ensures var t, w := Quiet(s, e), Mover(e);
            && t.db.intents == s.db.intents && t.calls == s.calls && t.journal == s.journal
            && MovesOwn(s, t, w, i)
  {
    hide Quiet, Mover;
    QuietMover(s, e, i);
    QuietTables(s, e);
  }

  lemma QuietKeepsIntent(s: Sys, e: Event, i: nat)
    requires IntentSound(s, i)
    ensures IntentSound(Quiet(s, e), i)
  {
    hide Quiet, Mover;
    QuietIs(s, e, i);
  }

  lemma ArmKeepsIntent(s: Sys, w: nat, commit: Commit, i: nat)
    requires IntentSound(s, i)
    ensures IntentSound(ArmedBy(s, w, commit), i)
  {
  }

  lemma CallKeepsIntent(s: Sys, w: nat, outcome: Outcome, i: nat)
    requires IntentSound(s, i)
    ensures IntentSound(CalledBy(s, w, outcome), i)
  {
  }

  lemma SettleKeepsIntent(s: Sys, w: nat, commit: Commit, i: nat)
    requires IntentSound(s, i)
    ensures IntentSound(SettledBy(s, w, commit), i)
  {
    hide AdoptIn;
  }

  lemma StepKeepsIntent(s: Sys, e: Event, i: nat)
    requires IntentSound(s, i)
    ensures IntentSound(Step(s, e), i)
  {
    hide Quiet, ArmedBy, CalledBy, SettledBy;
    match e
    case Migrate(j) =>
    case TryArm(w, commit) => ArmKeepsIntent(s, w, commit, i);
    case CallCreate(w, outcome) => CallKeepsIntent(s, w, outcome, i);
    case TrySettle(w, commit) => SettleKeepsIntent(s, w, commit, i);
    case _ => QuietKeepsIntent(s, e, i);
  }

  lemma IntentsOnlyGrow(s: Sys, e: Event)
    ensures s.db.intents.Keys <= Step(s, e).db.intents.Keys
  {
    hide Quiet;
    QuietIs(s, e, 0);
  }

  ghost predicate Backed(s: Sys) {
    && (forall o :: o in s.db.operations ==> EvidenceSound(s.db, s.db.operations[o].evidence))
    && (forall w :: w in s.frames ==> FrameSound(s.db, s.frames[w]))
  }

  /** An operation keeps its evidence backed, and never loses it. */
  predicate OperationKept(s: Sys, t: Sys, o: nat) {
    && (o in t.db.operations ==> EvidenceSound(t.db, t.db.operations[o].evidence))
    && (o in s.db.operations ==>
          o in t.db.operations && (s.db.operations[o].evidence.phase != Nothing ==> t.db.operations[o].evidence.phase != Nothing))
  }

  predicate OperationBacked(s: Sys, o: nat) {
    o in s.db.operations ==> EvidenceSound(s.db, s.db.operations[o].evidence)
  }

  predicate FrameBacked(s: Sys, w: nat) {
    w in s.frames ==> FrameSound(s.db, s.frames[w])
  }

  lemma QuietKeepsOperation(s: Sys, e: Event, o: nat)
    requires OperationBacked(s, o) && FrameBacked(s, Mover(e))
    ensures OperationKept(s, Quiet(s, e), o)
  {
    hide AdoptIn, Decided, Searched;
  }

  lemma QuietKeepsFrame(s: Sys, e: Event, w: nat)
    requires FrameBacked(s, w) && FrameBacked(s, Mover(e))
    requires FrameOf(s, Mover(e)).Leased? ==> OperationBacked(s, FrameOf(s, Mover(e)).f.operation)
    ensures FrameBacked(Quiet(s, e), w)
  {
  }

  lemma ArmKeepsOperation(s: Sys, w: nat, commit: Commit, o: nat)
    requires OperationBacked(s, o)
    ensures OperationKept(s, ArmedBy(s, w, commit), o)
  {
  }

  lemma SettleKeepsOperation(s: Sys, w: nat, commit: Commit, o: nat)
    requires OperationBacked(s, o)
    ensures OperationKept(s, SettledBy(s, w, commit), o)
  {
  }

  lemma OtherKeepsFrame(s: Sys, e: Event, w: nat)
    requires FrameBacked(s, w) && (e.Migrate? || e.TryArm? || e.CallCreate? || e.TrySettle?)
    ensures FrameBacked(Step(s, e), w)
  {
    hide Quiet;
    IntentsOnlyGrow(s, e);
  }

  lemma StepBacks(s: Sys, e: Event, o: nat, w: nat)
    requires Backed(s)
    ensures OperationKept(s, Step(s, e), o) && FrameBacked(Step(s, e), w)
  {
    hide Quiet, ArmedBy, SettledBy, EvidenceSound, FrameSound;
    assert OperationBacked(s, o) && FrameBacked(s, w) && FrameBacked(s, Mover(e));
    match e
    case Migrate(i) =>
      OtherKeepsFrame(s, e, w);
      MigrateKeepsOperation(s, i, o);
    case TryArm(v, commit) =>
      OtherKeepsFrame(s, e, w);
      ArmKeepsOperation(s, v, commit, o);
    case CallCreate(v, outcome) => OtherKeepsFrame(s, e, w);
    case TrySettle(v, commit) =>
      OtherKeepsFrame(s, e, w);
      SettleKeepsOperation(s, v, commit, o);
    case _ =>
      QuietKeepsOperation(s, e, o);
      QuietKeepsFrame(s, e, w);
  }

  lemma MigrateKeepsOperation(s: Sys, i: nat, o: nat)
    requires OperationBacked(s, o)
    ensures OperationKept(s, Migrated(s, i), o)
  {
  }

  /** Assets change only by an adoption. */
  lemma AssetsAdopted(s: Sys, e: Event) returns (instance: nat, provider: Option<nat>)
    ensures Step(s, e).db.assets == s.db.assets || Step(s, e).db.assets == AdoptIn(s.db.assets, instance, provider).0
  {
    hide AdoptIn, Quiet, SettledBy;
    instance, provider := 0, None;
    if e.TrySettle? {
      instance, provider := SettleAdopts(s, e.w, e.commit);
    } else {
      instance, provider := QuietAdopts(s, e);
    }
  }

  lemma QuietAdopts(s: Sys, e: Event) returns (instance: nat, provider: Option<nat>)
    ensures Quiet(s, e).db.assets == s.db.assets || Quiet(s, e).db.assets == AdoptIn(s.db.assets, instance, provider).0
  {
    hide AdoptIn, Decided, Searched, Closed, Holds, Leases;
    instance, provider := 0, None;
    var w := Mover(e);
    if e.Adopt? && FrameOf(s, w).Adopting? && FrameOf(s, w).f.operation in s.db.operations {
      instance, provider := s.db.operations[FrameOf(s, w).f.operation].instance, FrameOf(s, w).provider;
    }
  }

  lemma SettleAdopts(s: Sys, w: nat, commit: Commit) returns (instance: nat, provider: Option<nat>)
    ensures SettledBy(s, w, commit).db.assets == s.db.assets || SettledBy(s, w, commit).db.assets == AdoptIn(s.db.assets, instance, provider).0
  {
    hide AdoptIn;
    instance, provider := 0, None;
    var frame := FrameOf(s, w);
    if frame.Settling? && frame.outcome.BoughtIt? && frame.f.operation in s.db.operations {
      instance, provider := s.db.operations[frame.f.operation].instance, frame.outcome.provider;
    }
  }

  lemma StepKeepsAssets(s: Sys, e: Event, a: nat)
    requires OneHolder(s.db.assets)
    ensures OneHolder(Step(s, e).db.assets)
    ensures a in s.db.assets && s.db.assets[a].Some? ==>
              a in Step(s, e).db.assets && Step(s, e).db.assets[a] == s.db.assets[a]
  {
    hide Step, AdoptIn;
    var instance, provider := AssetsAdopted(s, e);
    AdoptionKeeps(s.db.assets, instance, provider);
  }

  lemma StepKeepsRow(s: Sys, e: Event, i: nat)
    requires IntentSound(s, i)
    ensures var t := Step(s, e);
            && t.journal == s.journal && Calls(s, i) <= Calls(t, i)
            && (i in s.db.intents ==> i in t.db.intents && (t.db.intents[i].state == Intended ==> t.db.intents[i] == s.db.intents[i]))
  {
    hide Quiet, AdoptIn, Mover, MovesOwn;
    QuietIs(s, e, i);
  }

  /** Every step of anyone keeps the system sound, and only ever forbids more. */
  lemma StepKeeps(s: Sys, e: Event)
    requires Sound(s)
    ensures Sound(Step(s, e)) && Forward(s, Step(s, e))
  {
    hide Step, IntentSound, FrameSound, EvidenceSound, OneHolder;
    var t := Step(s, e);
    forall i: nat ensures IntentSound(t, i) { StepKeepsIntent(s, e, i); }
    forall o | o in t.db.operations ensures EvidenceSound(t.db, t.db.operations[o].evidence) { StepBacks(s, e, o, 0); }
    forall w | w in t.frames ensures FrameSound(t.db, t.frames[w]) { StepBacks(s, e, 0, w); }
    StepKeepsAssets(s, e, 0);
    MovesForward(s, e);
  }

  lemma MovesForward(s: Sys, e: Event)
    requires Sound(s)
    ensures Forward(s, Step(s, e))
  {
    hide Step, IntentSound, FrameSound, EvidenceSound, OneHolder, Backed;
    var t := Step(s, e);
    StepKeepsRow(s, e, 0);
    forall i: nat
      ensures Calls(s, i) <= Calls(t, i)
      ensures i in s.db.intents ==> i in t.db.intents && (t.db.intents[i].state == Intended ==> t.db.intents[i] == s.db.intents[i])
    {
      StepKeepsRow(s, e, i);
    }
    forall o | o in s.db.operations
      ensures o in t.db.operations
      ensures s.db.operations[o].evidence.phase != Nothing ==> t.db.operations[o].evidence.phase != Nothing
    {
      StepBacks(s, e, o, 0);
    }
    forall a | a in s.db.assets && s.db.assets[a].Some? ensures a in t.db.assets && t.db.assets[a] == s.db.assets[a] {
      StepKeepsAssets(s, e, a);
    }
  }

  // ------------------------------------------------------------------------- every run

  function Start(journal: map<nat, Legacy>): Sys { Sys(Db(map[], map[], map[]), journal, 0, map[], map[]) }

  function Run(s: Sys, events: seq<Event>): Sys {
    if events == [] then s else Step(Run(s, events[..|events| - 1]), events[|events| - 1])
  }

  lemma {:induction false} RunKeeps(s: Sys, events: seq<Event>)
    requires Sound(s)
    ensures Sound(Run(s, events)) && Forward(s, Run(s, events))
  {
    hide Sound, Step, Forward;
    if events == [] {
      ForwardSelf(s);
    } else {
      RunKeeps(s, events[..|events| - 1]);
      var t := Run(s, events[..|events| - 1]);
      StepKeeps(t, events[|events| - 1]);
      ForwardTrans(s, t, Run(s, events));
    }
  }

  lemma ForwardSelf(s: Sys)
    ensures Forward(s, s)
  {
  }

  lemma ForwardTrans(s: Sys, t: Sys, u: Sys)
    requires Forward(s, t) && Forward(t, u)
    ensures Forward(s, u)
  {
    hide Calls;
  }

  /** At most one paid create for an intent, whatever the workers do and wherever they
      stop; only once its row is committed; and none for an intent of the old journal. */
  lemma AtMostOneCreate(journal: map<nat, Legacy>, events: seq<Event>, intent: nat)
    ensures var t := Run(Start(journal), events);
            && Calls(t, intent) <= 1
            && (Calls(t, intent) == 1 ==> intent in t.db.intents)
            && (intent in journal ==> Calls(t, intent) == 0)
            && OneHolder(t.db.assets)
  {
    hide Step, IntentSound;
    assert Sound(Start(journal)) by { StartIsSound(journal); }
    RunKeeps(Start(journal), events);
    var t := Run(Start(journal), events);
    assert IntentSound(t, intent);
    CountsOf(t, intent);
  }

  lemma CountsOf(t: Sys, i: nat)
    requires IntentSound(t, i)
    ensures Calls(t, i) <= 1 && (Calls(t, i) == 1 ==> i in t.db.intents && i !in t.journal)
  {
  }

  lemma StartIsSound(journal: map<nat, Legacy>)
    ensures Sound(Start(journal))
  {
  }

  // ------------------------------------------------------------- only with nothing written

  /** An operation's evidence is of the intent it wants; a found box was found for a
      latched one. */
  predicate Owned(db: Db, o: Operation) {
    && (o.evidence.intent.Some? ==> o.evidence.intent.value == o.want)
    && (o.evidence.phase == Adopted ==> o.want in db.intents)
  }

  predicate IsFor(db: Db, f: Fence, intent: nat) {
    f.operation in db.operations && db.operations[f.operation].want == intent
  }

  predicate FrameOwned(db: Db, frame: Frame) {
    match frame
    case Idle => true
    case Leased(f) => f.operation in db.operations
    case Read(f, o) => IsFor(db, f, o.want) && Owned(db, o)
    case Finding(f, i) => IsFor(db, f, i) && i in db.intents
    case Adopting(f, i, _, after) => IsFor(db, f, i) && (after == Adopted ==> i in db.intents)
    case Spending(f, i) => IsFor(db, f, i)
    case Holding(f, i, _) => IsFor(db, f, i)
    case Announced(f, i) => IsFor(db, f, i)
    case Called(f, i, _) => IsFor(db, f, i)
    case Settling(f, i, _) => IsFor(db, f, i)
    case Finishing(f, result) =>
      && f.operation in db.operations
      && (result.Waiting? ==> Owned(db, db.operations[f.operation].(evidence := result.evidence)))
      && (result.Done? && result.told.Some? ==> Owned(db, db.operations[f.operation].(evidence := result.told.value)))
  }

  predicate AllOwned(s: Sys) {
    && (forall o :: o in s.db.operations ==> Owned(s.db, s.db.operations[o]))
    && (forall w :: w in s.frames ==> FrameOwned(s.db, s.frames[w]))
  }

  /** Operations and intents stay, and what an operation wants. */
  predicate WantsStay(d: Db, e: Db) {
    && d.intents.Keys <= e.intents.Keys
    && (forall o :: o in d.operations ==> o in e.operations && e.operations[o].want == d.operations[o].want)
  }

  lemma OwnedStays(d: Db, e: Db, frame: Frame)
    requires WantsStay(d, e) && FrameOwned(d, frame)
    ensures FrameOwned(e, frame)
  {
  }

  lemma QuietStays(s: Sys, e: Event)
    ensures WantsStay(s.db, Quiet(s, e).db)
  {
    hide AdoptIn, Decided, Searched, Holds, Leases;
  }

  lemma StepStays(s: Sys, e: Event)
    ensures WantsStay(s.db, Step(s, e).db)
  {
    hide AdoptIn, Quiet, Told;
    QuietStays(s, e);
  }

  /** The steps of one worker leave the frames of the others. */
  function Worker(e: Event): nat {
    match e
    case TryArm(w, _) => w case CallCreate(w, _) => w case TrySettle(w, _) => w
    case _ => Mover(e)
  }

  lemma OnlyItsFrame(s: Sys, e: Event, w: nat)
    requires w != Worker(e)
    ensures w in Step(s, e).frames <==> w in s.frames
    ensures w in s.frames ==> Step(s, e).frames[w] == s.frames[w]
  {
    hide Quiet, Told, Arm, Settle, Owns, MayCall;
    QuietMover(s, e, 0);
  }

  predicate WorkerOwned(s: Sys, e: Event) {
    && (Worker(e) in s.frames ==> FrameOwned(s.db, s.frames[Worker(e)]) && FrameSound(s.db, s.frames[Worker(e)]))
    && (forall o :: o in s.db.operations ==> Owned(s.db, s.db.operations[o]) && EvidenceSound(s.db, s.db.operations[o].evidence))
  }

  /** What the handler decides to do, and what a search leaves to do. */
  lemma DecidedOwned(s: Sys, frame: Frame)
    requires frame.Read? && FrameOwned(s.db, frame) && EvidenceSound(s.db, frame.o.evidence)
    ensures FrameOwned(s.db, Decided(s, frame))
  {
  }

  lemma SearchedOwned(db: Db, frame: Frame, found: Search)
    requires frame.Finding? && FrameOwned(db, frame)
    ensures FrameOwned(db, Searched(frame, found))
  {
  }

  /** The frame that a worker's step leaves: first the reads and searches, then the others. */
  lemma ReadingOwned(s: Sys, e: Event)
    requires WorkerOwned(s, e) && (e.ReadOperation? || e.ReadIntent? || e.Find?)
    ensures var t, w := Quiet(s, e), Mover(e); w in t.frames ==> FrameOwned(s.db, t.frames[w])
  {
    hide Decided, Searched;
    var w := Mover(e);
    if e.ReadIntent? && FrameOf(s, w).Read? { DecidedOwned(s, FrameOf(s, w)); }
    if e.Find? && FrameOf(s, w).Finding? { SearchedOwned(s.db, FrameOf(s, w), e.found); }
  }

  lemma MovingOwned(s: Sys, e: Event)
    requires Mover(e) in s.frames ==> FrameOwned(s.db, s.frames[Mover(e)])
    requires !e.ReadOperation? && !e.ReadIntent? && !e.Find? && !e.Adopt?
    requires !e.Migrate? && !e.TryArm? && !e.CallCreate? && !e.TrySettle?
    ensures var t, w := Quiet(s, e), Mover(e); w in t.frames ==> FrameOwned(s.db, t.frames[w])
  {
    hide Owned, EvidenceSound, Holds, Leases, Closed;
  }

  lemma AdoptingOwned(s: Sys, e: Event)
    requires WorkerOwned(s, e) && e.Adopt?
    ensures var t, w := Quiet(s, e), Mover(e); w in t.frames ==> FrameOwned(s.db, t.frames[w])
  {
    hide AdoptIn, EvidenceSound;
  }

  lemma PayingOwned(s: Sys, e: Event)
    requires Worker(e) in s.frames ==> FrameOwned(s.db, s.frames[Worker(e)])
    requires e.Migrate? || e.TryArm? || e.CallCreate? || e.TrySettle?
    ensures var t, w := Step(s, e), Worker(e); w in t.frames ==> FrameOwned(s.db, t.frames[w])
  {
    hide Quiet, Owned, EvidenceSound, Arm, Settle;
  }

  lemma WorkersFrame(s: Sys, e: Event)
    requires WorkerOwned(s, e)
    ensures var t, w := Step(s, e), Worker(e); w in t.frames ==> FrameOwned(t.db, t.frames[w])
  {
    hide Quiet, FrameOwned, ArmedBy, CalledBy, SettledBy, Owned, EvidenceSound, FrameSound, WantsStay;
    var t, w := Step(s, e), Worker(e);
    if e.Migrate? || e.TryArm? || e.CallCreate? || e.TrySettle? {
      PayingOwned(s, e);
    } else if e.ReadOperation? || e.ReadIntent? || e.Find? {
      ReadingOwned(s, e);
    } else if e.Adopt? {
      AdoptingOwned(s, e);
    } else {
      MovingOwned(s, e);
    }
    StepStays(s, e);
    if w in t.frames { OwnedStays(s.db, t.db, t.frames[w]); }
  }

  lemma OwnedLater(d: Db, e: Db, o: Operation)
    requires WantsStay(d, e) && Owned(d, o)
    ensures Owned(e, o)
  {
  }

  /** And what it writes on an operation. */
  lemma QuietOperationOwned(s: Sys, e: Event, o: nat)
    requires o in s.db.operations ==> Owned(s.db, s.db.operations[o])
    requires e.Finish? && e.w in s.frames ==> FrameOwned(s.db, s.frames[e.w])
    ensures o in Quiet(s, e).db.operations ==> Owned(s.db, Quiet(s, e).db.operations[o])
  {
    hide AdoptIn, Decided, Searched;
    if e.Finish? { FinishOwned(s, e, o); }
  }

  lemma FinishOwned(s: Sys, e: Event, o: nat)
    requires e.Finish?
    requires o in s.db.operations ==> Owned(s.db, s.db.operations[o])
    requires e.w in s.frames ==> FrameOwned(s.db, s.frames[e.w])
    ensures o in Quiet(s, e).db.operations ==> Owned(s.db, Quiet(s, e).db.operations[o])
  {
  }

  lemma PayingOperationOwned(s: Sys, e: Event, o: nat)
    requires WorkerOwned(s, e) && (e.Migrate? || e.TryArm? || e.CallCreate? || e.TrySettle?)
    ensures o in Step(s, e).db.operations ==> Owned(s.db, Step(s, e).db.operations[o])
  {
    hide Quiet, ArmedBy, SettledBy, EvidenceSound, FrameSound, Owned;
    if e.TryArm? { ArmOwned(s, e.w, e.commit, o); }
    if e.TrySettle? { SettleOwned(s, e.w, e.commit, o); }
  }

  lemma ArmOwned(s: Sys, w: nat, commit: Commit, o: nat)
    requires o in s.db.operations ==> Owned(s.db, s.db.operations[o])
    requires w in s.frames ==> FrameOwned(s.db, s.frames[w])
    ensures o in ArmedBy(s, w, commit).db.operations ==> Owned(s.db, ArmedBy(s, w, commit).db.operations[o])
  {
  }

  lemma SettleOwned(s: Sys, w: nat, commit: Commit, o: nat)
    requires o in s.db.operations ==> Owned(s.db, s.db.operations[o])
    requires w in s.frames ==> FrameOwned(s.db, s.frames[w])
    ensures o in SettledBy(s, w, commit).db.operations ==> Owned(s.db, SettledBy(s, w, commit).db.operations[o])
  {
    hide AdoptIn;
  }

  lemma OperationOwned(s: Sys, e: Event, o: nat)
    requires WorkerOwned(s, e)
    ensures o in Step(s, e).db.operations ==> Owned(Step(s, e).db, Step(s, e).db.operations[o])
  {
    hide Quiet, ArmedBy, CalledBy, SettledBy, WantsStay, Owned, EvidenceSound, FrameSound, FrameOwned;
    if e.Migrate? || e.TryArm? || e.CallCreate? || e.TrySettle? { PayingOperationOwned(s, e, o); } else { QuietOperationOwned(s, e, o); }
    StepStays(s, e);
    if o in Step(s, e).db.operations { OwnedLater(s.db, Step(s, e).db, Step(s, e).db.operations[o]); }
  }

  lemma StepOwns(s: Sys, e: Event)
    requires AllOwned(s) && Backed(s)
    ensures AllOwned(Step(s, e))
  {
    hide Step, Quiet, Owned, FrameOwned, EvidenceSound, FrameSound, WantsStay;
    var t := Step(s, e);
    StepStays(s, e);
    forall o | o in t.db.operations ensures Owned(t.db, t.db.operations[o]) { OperationOwned(s, e, o); }
    forall w | w in t.frames ensures FrameOwned(t.db, t.frames[w]) {
      if w == Worker(e) {
        WorkersFrame(s, e);
      } else {
        OnlyItsFrame(s, e, w);
        OwnedStays(s.db, t.db, s.frames[w]);
      }
    }
  }

  lemma {:induction false} RunOwns(journal: map<nat, Legacy>, events: seq<Event>)
    ensures AllOwned(Run(Start(journal), events))
  {
    hide Sound, Step, Forward;
    if events != [] {
      var front := events[..|events| - 1];
      StartIsSound(journal);
      RunKeeps(Start(journal), front);
      RunOwns(journal, front);
      assert Backed(Run(Start(journal), front)) by { SoundIsBacked(Run(Start(journal), front)); }
      StepOwns(Run(Start(journal), front), events[|events| - 1]);
    }
  }

  lemma SoundIsBacked(s: Sys)
    requires Sound(s)
    ensures Backed(s)
  {
  }

  /** In every run, whatever a worker read and however long ago: its handler goes on to the
      paid call exactly when the operation had no evidence at all and its intent has no
      row. */
  lemma SpendsOnlyUnwritten(journal: map<nat, Legacy>, events: seq<Event>, w: nat)
    ensures var t := Run(Start(journal), events);
            FrameOf(t, w).Read? ==>
              var Read(f, o) := FrameOf(t, w);
              (Step(t, ReadIntent(w)).frames[w].Spending? <==> o.evidence.phase == Nothing && o.want !in t.db.intents)
  {
    hide Run;
    RunOwns(journal, events);
    var t := Run(Start(journal), events);
    StartIsSound(journal);
    RunKeeps(Start(journal), events);
    if FrameOf(t, w).Read? {
      assert FrameOwned(t.db, t.frames[w]);
      SpendsOnlyFromNothing(FrameOf(t, w).o.evidence, RowOf(t.db, IntentOf(FrameOf(t, w).o)));
    }
  }

  // ------------------------------------------------------------ how an operation can end

  predicate IsRejected(db: Db, i: nat) { i in db.intents && db.intents[i].state == Rejected }

  predicate HasBox(db: Db, instance: nat) { instance in db.assets && db.assets[instance].Some? }

  /** Failed only over a rejected order; succeeded only with a box and the evidence of it. */
  predicate Ended(db: Db, o: Operation) {
    && (o.status == Failed || o.evidence.phase == Declined ==> IsRejected(db, o.want))
    && (o.status == Succeeded ==> o.holder == None && o.evidence.phase in {Bought, Adopted} && HasBox(db, o.instance))
  }

  /** What worker `w` is about to write ends its operation so. */
  predicate FrameEnds(db: Db, w: nat, frame: Frame) {
    && (!frame.Idle? ==> frame.f.holder == w)
    && (frame.Read? && frame.o.evidence.phase == Declined ==> IsRejected(db, frame.o.want))
    && (frame.Finishing? && frame.f.operation in db.operations ==>
          var o := db.operations[frame.f.operation];
          && (frame.result.Fatal? ==> IsRejected(db, o.want))
          && (frame.result.Waiting? ==> frame.result.evidence.phase == Quarantine)
          && (frame.result.Done? ==> HasBox(db, o.instance))
          && (frame.result == Done(None) && o.holder == Some(w) ==> o.evidence.phase == Bought)
          && (frame.result.Done? && frame.result.told.Some? ==> frame.result.told.value.phase in {Bought, Adopted}))
  }

  predicate AllEnd(s: Sys) {
    && (forall o :: o in s.db.operations ==> Ended(s.db, s.db.operations[o]))
    && (forall w :: w in s.frames ==> FrameEnds(s.db, w, s.frames[w]))
  }

  /** Rejected orders stay so, boxes are kept, and an operation keeps its want and its
      instance. */
  ghost predicate EndsStay(d: Db, e: Db) {
    && (forall i :: IsRejected(d, i) ==> IsRejected(e, i))
    && (forall a :: HasBox(d, a) ==> HasBox(e, a))
    && (forall o :: o in d.operations ==>
          o in e.operations && e.operations[o].want == d.operations[o].want && e.operations[o].instance == d.operations[o].instance)
  }

  /** What worker `w` holds, only it writes. */
  predicate HeldStays(d: Db, e: Db, w: nat) {
    forall o :: o in e.operations && e.operations[o].holder == Some(w) ==>
      o in d.operations && d.operations[o].holder == Some(w) && e.operations[o].evidence == d.operations[o].evidence
  }

  lemma FrameEndsStays(d: Db, e: Db, w: nat, frame: Frame)
    requires EndsStay(d, e) && HeldStays(d, e, w) && FrameEnds(d, w, frame)
    requires frame.Finishing? ==> frame.f.operation in d.operations
    ensures FrameEnds(e, w, frame)
  {
  }

  lemma QuietRows(s: Sys, e: Event)
    ensures var t := Quiet(s, e);
            forall o :: o in s.db.operations ==>
              o in t.db.operations && t.db.operations[o].want == s.db.operations[o].want && t.db.operations[o].instance == s.db.operations[o].instance
  {
    hide AdoptIn, Decided, Searched;
  }

  lemma PayingRows(s: Sys, e: Event)
    requires e.Migrate? || e.TryArm? || e.CallCreate? || e.TrySettle?
    ensures var t := Step(s, e);
            forall o :: o in s.db.operations ==>
              o in t.db.operations && t.db.operations[o].want == s.db.operations[o].want && t.db.operations[o].instance == s.db.operations[o].instance
  {
    hide Quiet, AdoptIn;
  }

  /** A settled row is never settled again. */
  lemma RejectedStays(s: Sys, e: Event, i: nat)
    requires IntentSound(s, i) && IsRejected(s.db, i)
    ensures IsRejected(Step(s, e).db, i)
  {
    hide Quiet, AdoptIn;
    QuietTables(s, e);
  }

  lemma StepEndsStay(s: Sys, e: Event)
    requires Sound(s)
    ensures EndsStay(s.db, Step(s, e).db)
  {
    hide Step, Quiet, IntentSound, FrameSound, EvidenceSound, OneHolder, Backed, IsRejected;
    var t := Step(s, e);
    forall i | IsRejected(s.db, i) ensures IsRejected(t.db, i) { RejectedStays(s, e, i); }
    forall a | HasBox(s.db, a) ensures HasBox(t.db, a) { StepKeepsAssets(s, e, a); }
    if e.Migrate? || e.TryArm? || e.CallCreate? || e.TrySettle? { PayingRows(s, e); } else { QuietStep(s, e); QuietRows(s, e); }
  }

  lemma QuietStep(s: Sys, e: Event)
    requires !e.Migrate? && !e.TryArm? && !e.CallCreate? && !e.TrySettle?
    ensures Step(s, e) == Quiet(s, e) && Worker(e) == Mover(e)
  {
    hide Quiet;
  }

  /** The worker of a step has only its own fence. */
  predicate OwnFence(s: Sys, w: nat) { w in s.frames && !s.frames[w].Idle? ==> s.frames[w].f.holder == w }

  lemma QuietHeld(s: Sys, e: Event, w: nat)
    requires w != Mover(e) && OwnFence(s, Mover(e))
    requires !e.Migrate? && !e.TryArm? && !e.CallCreate? && !e.TrySettle?
    ensures HeldStays(s.db, Quiet(s, e).db, w)
  {
    hide AdoptIn, Decided, Searched, Leases;
    if e.Finish? { FinishHeld(s, e, w); }
  }

  lemma FinishHeld(s: Sys, e: Event, w: nat)
    requires e.Finish? && w != e.w && OwnFence(s, e.w)
    ensures HeldStays(s.db, Quiet(s, e).db, w)
  {
  }

  lemma ArmHeld(s: Sys, v: nat, commit: Commit, w: nat)
    requires w != v && OwnFence(s, v)
    ensures HeldStays(s.db, ArmedBy(s, v, commit).db, w)
  {
  }

  lemma SettleHeld(s: Sys, v: nat, commit: Commit, w: nat)
    requires w != v && OwnFence(s, v)
    ensures HeldStays(s.db, SettledBy(s, v, commit).db, w)
  {
    hide AdoptIn, Told;
  }

  lemma PayingHeld(s: Sys, e: Event, w: nat)
    requires w != Worker(e) && OwnFence(s, Worker(e))
    requires e.Migrate? || e.TryArm? || e.CallCreate? || e.TrySettle?
    ensures HeldStays(s.db, Step(s, e).db, w)
  {
    hide Quiet, ArmedBy, SettledBy;
    if e.TryArm? { ArmHeld(s, e.w, e.commit, w); }
    if e.TrySettle? { SettleHeld(s, e.w, e.commit, w); }
  }

  // what one worker's step leaves in its own frame, and on an operation

  lemma DecidedEnds(s: Sys, w: nat, frame: Frame)
    requires frame.Read? && FrameEnds(s.db, w, frame) && FrameOwned(s.db, frame)
    ensures FrameEnds(s.db, w, Decided(s, frame))
  {
  }

  lemma ReadingEnds(s: Sys, e: Event)
    requires e.ReadOperation? || e.ReadIntent? || e.Find?
    requires forall o :: o in s.db.operations ==> Ended(s.db, s.db.operations[o])
    requires e.w in s.frames ==> FrameEnds(s.db, e.w, s.frames[e.w]) && FrameOwned(s.db, s.frames[e.w])
    ensures var t := Quiet(s, e); e.w in t.frames ==> FrameEnds(t.db, e.w, t.frames[e.w])
  {
    hide Decided, Owned;
    if e.ReadIntent? && FrameOf(s, e.w).Read? { DecidedEnds(s, e.w, FrameOf(s, e.w)); }
  }

  lemma MovingEnds(s: Sys, e: Event)
    requires !e.ReadOperation? && !e.ReadIntent? && !e.Find? && !e.Adopt?
    requires !e.Migrate? && !e.TryArm? && !e.CallCreate? && !e.TrySettle?
    requires Mover(e) in s.frames ==> FrameEnds(s.db, Mover(e), s.frames[Mover(e)])
    requires !e.Tick? && !e.Enqueue? && !e.Flag?
    ensures var t := Quiet(s, e); Mover(e) in t.frames ==> FrameEnds(t.db, Mover(e), t.frames[Mover(e)])
  {
    hide Leases, Closed;
  }

  lemma AdoptingEnds(s: Sys, e: Event)
    requires e.Adopt? && OneHolder(s.db.assets)
    requires e.w in s.frames ==> FrameEnds(s.db, e.w, s.frames[e.w]) && FrameOwned(s.db, s.frames[e.w]) && FrameSound(s.db, s.frames[e.w])
    ensures var t := Quiet(s, e); e.w in t.frames ==> FrameEnds(t.db, e.w, t.frames[e.w])
  {
    hide AdoptIn, Owned, EvidenceSound;
    var frame := FrameOf(s, e.w);
    if frame.Adopting? && frame.f.operation in s.db.operations {
      AdoptionKeeps(s.db.assets, s.db.operations[frame.f.operation].instance, frame.provider);
    }
  }

  lemma ArmEnds(s: Sys, w: nat, commit: Commit)
    requires w in s.frames ==> FrameEnds(s.db, w, s.frames[w])
    ensures var t := ArmedBy(s, w, commit); w in t.frames ==> FrameEnds(t.db, w, t.frames[w])
  {
  }

  lemma SettleEnds(s: Sys, w: nat, commit: Commit)
    requires OneHolder(s.db.assets)
    requires w in s.frames ==> FrameEnds(s.db, w, s.frames[w]) && FrameOwned(s.db, s.frames[w])
    ensures var t := SettledBy(s, w, commit); w in t.frames ==> FrameEnds(t.db, w, t.frames[w])
  {
    hide AdoptIn;
    var frame := FrameOf(s, w);
    if frame.Settling? && frame.outcome.BoughtIt? && frame.f.operation in s.db.operations {
      AdoptionKeeps(s.db.assets, s.db.operations[frame.f.operation].instance, frame.outcome.provider);
    }
  }

  lemma QuietOperationEnds(s: Sys, e: Event, o: nat)
    requires !e.Migrate? && !e.TryArm? && !e.CallCreate? && !e.TrySettle? && !e.Finish?
    requires o in s.db.operations ==> Ended(s.db, s.db.operations[o])
    ensures o in Quiet(s, e).db.operations ==> Ended(s.db, Quiet(s, e).db.operations[o])
  {
    hide AdoptIn, Decided, Searched;
  }

  lemma FinishEnds(s: Sys, e: Event, o: nat)
    requires e.Finish?
    requires o in s.db.operations ==> Ended(s.db, s.db.operations[o])
    requires e.w in s.frames ==> FrameEnds(s.db, e.w, s.frames[e.w]) && FrameOwned(s.db, s.frames[e.w]) && FrameSound(s.db, s.frames[e.w])
    ensures o in Quiet(s, e).db.operations ==> Ended(s.db, Quiet(s, e).db.operations[o])
  {
    hide Owned, EvidenceSound;
  }

  lemma ArmOperationEnds(s: Sys, w: nat, commit: Commit, o: nat)
    requires o in s.db.operations ==> Ended(s.db, s.db.operations[o])
    ensures var t := ArmedBy(s, w, commit); o in t.db.operations ==> Ended(t.db, t.db.operations[o])
  {
  }

  lemma SettleOperationEnds(s: Sys, w: nat, commit: Commit, o: nat)
    requires Sound(s) && (o in s.db.operations ==> Ended(s.db, s.db.operations[o]))
    requires w in s.frames ==> FrameOwned(s.db, s.frames[w])
    ensures var t := SettledBy(s, w, commit); o in t.db.operations ==> Ended(t.db, t.db.operations[o])
  {
    hide Sound, AdoptIn;
    var frame := FrameOf(s, w);
    if frame.Settling? {
      OwnedIsIntended(s, w, frame.intent);
      if frame.outcome.BoughtIt? && frame.f.operation in s.db.operations {
        BoxesKept(s, s.db.operations[frame.f.operation].instance, frame.outcome.provider);
      }
    }
  }

  lemma OwnedIsIntended(s: Sys, w: nat, i: nat)
    requires Sound(s) && w in s.frames && Owns(s.frames[w], i)
    ensures i in s.db.intents && s.db.intents[i].state == Intended
  {
    assert IntentSound(s, i);
  }

  lemma BoxesKept(s: Sys, instance: nat, provider: Option<nat>)
    requires Sound(s)
    ensures forall a :: HasBox(s.db, a) ==> a in AdoptIn(s.db.assets, instance, provider).0 && AdoptIn(s.db.assets, instance, provider).0[a].Some?
  {
    hide AdoptIn;
    AdoptionKeeps(s.db.assets, instance, provider);
  }

  /** The worker's own frame after its step. */
  lemma OwnFrameEnds(s: Sys, e: Event)
    requires Sound(s) && AllOwned(s) && AllEnd(s)
    requires !Nobodys(e)
    ensures var t, w := Step(s, e), Worker(e); w in t.frames ==> FrameEnds(t.db, w, t.frames[w])
  {
    hide Sound, Quiet, ArmedBy, SettledBy, FrameEnds, FrameOwned, FrameSound, Owned, Ended, EndsStay, HeldStays, EvidenceSound;
    var w, t := Worker(e), Step(s, e);
    SoundIsBacked(s);
    match e
    case TryArm(_, commit) => ArmEnds(s, w, commit);
    case TrySettle(_, commit) =>
      assert OneHolder(s.db.assets) by { AssetsSound(s); }
      SettleEnds(s, w, commit);
    case CallCreate(_, outcome) => CallEnds(s, w, outcome);
    case Adopt(_, _) =>
      assert OneHolder(s.db.assets) by { AssetsSound(s); }
      AdoptingEnds(s, e);
    case _ =>
      if e.ReadOperation? || e.ReadIntent? || e.Find? { ReadingEnds(s, e); } else { MovingEnds(s, e); }

  }

  /** What is nobody's step moves no frame, and holds and evidence stay. */
  predicate Nobodys(e: Event) { e.Tick? || e.Enqueue? || e.Flag? || e.Migrate? }

  lemma NobodysHeld(s: Sys, e: Event, w: nat)
    requires Nobodys(e)
    ensures Step(s, e).frames == s.frames && HeldStays(s.db, Step(s, e).db, w)
  {
    hide Leases;
  }

  lemma AssetsSound(s: Sys)
    requires Sound(s)
    ensures OneHolder(s.db.assets)
  {
  }

  lemma CallEnds(s: Sys, w: nat, outcome: Outcome)
    requires w in s.frames ==> FrameEnds(s.db, w, s.frames[w])
    ensures var t := CalledBy(s, w, outcome); t.db == s.db && (w in t.frames ==> FrameEnds(t.db, w, t.frames[w]))
  {
  }

  /** Every step keeps it. */
  lemma StepEnds(s: Sys, e: Event)
    requires Sound(s) && AllOwned(s) && AllEnd(s)
    ensures AllEnd(Step(s, e))
  {
    hide Sound, Step, Quiet, FrameEnds, Ended, EndsStay, HeldStays, AllOwned;
    var t := Step(s, e);
    forall o | o in t.db.operations ensures Ended(t.db, t.db.operations[o]) { OperationEnds(s, e, o); }
    forall w | w in t.frames ensures FrameEnds(t.db, w, t.frames[w]) { FrameEndsOn(s, e, w); }
  }

  lemma FrameEndsOn(s: Sys, e: Event, w: nat)
    requires Sound(s) && AllOwned(s) && AllEnd(s) && w in Step(s, e).frames
    ensures FrameEnds(Step(s, e).db, w, Step(s, e).frames[w])
  {
    hide Sound, Step, Quiet, Ended, EndsStay, HeldStays, Owned, EvidenceSound, FrameSound, FrameEnds;
    var t := Step(s, e);
    if w == Worker(e) && !Nobodys(e) {
      OwnFrameEnds(s, e);
    } else {
      if Nobodys(e) {
        NobodysHeld(s, e, w);
      } else {
        OnlyItsFrame(s, e, w);
        OthersHeld(s, e, w);
      }
      StepEndsStay(s, e);
      assert FrameEnds(s.db, w, s.frames[w]) && FrameOwned(s.db, s.frames[w]);
      FrameEndsStays(s.db, t.db, w, s.frames[w]);
    }
  }

  lemma OthersHeld(s: Sys, e: Event, w: nat)
    requires AllEnd(s) && w != Worker(e)
    ensures HeldStays(s.db, Step(s, e).db, w)
  {
    hide Step, Quiet, Ended, HeldStays;
    assert OwnFence(s, Worker(e)) by { if Worker(e) in s.frames { assert FrameEnds(s.db, Worker(e), s.frames[Worker(e)]); } }
    if e.Migrate? || e.TryArm? || e.CallCreate? || e.TrySettle? { PayingHeld(s, e, w); } else { QuietStep(s, e); QuietHeld(s, e, w); }
  }

  lemma OperationEnds(s: Sys, e: Event, o: nat)
    requires Sound(s) && AllOwned(s) && AllEnd(s) && o in Step(s, e).db.operations
    ensures Ended(Step(s, e).db, Step(s, e).db.operations[o])
  {
    hide Sound, Quiet, ArmedBy, SettledBy, Ended, FrameEnds, FrameOwned, FrameSound, Owned, EvidenceSound, EndsStay;
    SoundIsBacked(s);
    var t := Step(s, e);
    match e
    case Migrate(i) => StepEndsStay(s, e); EndedStays(s.db, t.db, o);
    case TryArm(w, commit) => ArmOperationEnds(s, w, commit, o);
    case TrySettle(w, commit) => SettleOperationEnds(s, w, commit, o);
    case CallCreate(w, outcome) => CallEnds(s, w, outcome);
    case Finish(w, commit) =>
      FinishEnds(s, e, o);
      StepEndsStay(s, e);
      EndedLater(s.db, t.db, t.db.operations[o]);
    case _ =>
      QuietOperationEnds(s, e, o);
      StepEndsStay(s, e);
      EndedLater(s.db, t.db, t.db.operations[o]);
  }

  lemma EndedLater(d: Db, e: Db, o: Operation)
    requires EndsStay(d, e) && Ended(d, o)
    ensures Ended(e, o)
  {
  }

  lemma EndedStays(d: Db, e: Db, o: nat)
    requires EndsStay(d, e) && o in d.operations && Ended(d, d.operations[o]) && e.operations == d.operations
    ensures Ended(e, e.operations[o])
  {
  }

  lemma {:induction false} RunEnds(journal: map<nat, Legacy>, events: seq<Event>)
    ensures AllEnd(Run(Start(journal), events))
  {
    hide Sound, Step, Forward, AllOwned;
    if events != [] {
      var front := events[..|events| - 1];
      StartIsSound(journal);
      RunKeeps(Start(journal), front);
      RunOwns(journal, front);
      RunEnds(journal, front);
      StepEnds(Run(Start(journal), front), events[|events| - 1]);
    }
  }

  /** In every run: an operation fails only over an order that the provider rejected, and
      succeeds only with its box adopted; while its intent is open and it says armed or
      quarantined it has done neither, so that an idle worker can take a free lease of it,
      and then only finds. */
  lemma OpenStaysOpen(journal: map<nat, Legacy>, events: seq<Event>, o: nat, w: nat, until: int)
    ensures var s := Run(Start(journal), events);
            o in s.db.operations ==>
              var row := s.db.operations[o];
              && (row.status == Failed ==> row.want in s.db.intents && s.db.intents[row.want].state == Rejected)
              && (row.status == Succeeded ==> row.evidence.phase in {Bought, Adopted} && row.instance in s.db.assets && s.db.assets[row.instance].Some?)
              && (row.want in s.db.intents && s.db.intents[row.want].state in {Intended, Ambiguous} && row.evidence.phase in {Armed, Quarantine} ==>
                    && row.status !in {Failed, Succeeded}
                    && (FrameOf(s, w).Idle? && (row.until.None? || row.until.value <= s.now) ==>
                          FrameOf(Step(s, Lease(w, o, until)), w).Leased?
                          && Decide(row.evidence, RowOf(s.db, IntentOf(row))) == FindOnly))
  {
    hide Run;
    RunEnds(journal, events);
    RunOwns(journal, events);
    var s := Run(Start(journal), events);
    if o in s.db.operations { assert Ended(s.db, s.db.operations[o]) && Owned(s.db, s.db.operations[o]); }
  }

  // ---------------------------------------------------------------- a worker left alone

  /** Leased, read, and at the arm that may spend. */
  function ToSpend(s: Sys, w: nat, o: nat, until: int): Sys {
    Step(Step(Step(s, Lease(w, o, until)), ReadOperation(w)), ReadIntent(w))
  }

  /** Armed, called, and at its settlement. */
  function Paid(s: Sys, w: nat, outcome: Outcome): Sys {
    Step(Step(Step(Step(Step(s, TryArm(w, Commits)), Consume(w)), Announce(w, false)), CallCreate(w, outcome)), AuditCall(w, false))
  }

  function SettledAndFinished(s: Sys, w: nat): Sys { Step(Step(s, TrySettle(w, Commits)), Finish(w, Commits)) }

  ghost predicate CanStart(s: Sys, w: nat, o: nat) {
    && o in s.db.operations && FrameOf(s, w).Idle? && !Leases(s, o)
    && s.db.operations[o].status !in {Succeeded, Failed}
  }

  lemma LeasedAlone(s: Sys, w: nat, o: nat, until: int)
    requires CanStart(s, w, o)
    ensures var row := s.db.operations[o];
            var leased := row.(version := row.version + 1, holder := Some(w), until := Some(until),
                               status := if row.status == Pending then Running else row.status);
            var t := Step(Step(s, Lease(w, o, until)), ReadOperation(w));
            t == s.(db := s.db.(operations := s.db.operations[o := leased]),
                    frames := s.frames[w := Read(Fence(o, leased.version, w), leased)])
  {
  }

  lemma ToSpendIs(s: Sys, w: nat, o: nat, until: int)
    requires CanStart(s, w, o) && s.db.operations[o].evidence == NO_EVIDENCE && s.db.operations[o].want !in s.db.intents
    ensures var t, row := ToSpend(s, w, o, until), s.db.operations[o];
            && t.db.intents == s.db.intents && t.db.assets == s.db.assets && t.journal == s.journal && t.calls == s.calls
            && o in t.db.operations && t.db.operations[o].want == row.want && t.db.operations[o].instance == row.instance
            && t.db.operations[o].evidence == NO_EVIDENCE
            && FrameOf(t, w) == Spending(Fence(o, t.db.operations[o].version, w), row.want) && t.db.operations[o].holder == Some(w)
  {
    LeasedAlone(s, w, o, until);
  }

  lemma ArmedAlone(s: Sys, w: nat, o: nat)
    requires FrameOf(s, w).Spending? && o in s.db.operations && s.db.operations[o].holder == Some(w)
    requires FrameOf(s, w).f == Fence(o, s.db.operations[o].version, w)
    requires FrameOf(s, w).intent !in s.db.intents && FrameOf(s, w).intent !in s.journal
    ensures var t, i, row := Step(s, TryArm(w, Commits)), FrameOf(s, w).intent, s.db.operations[o];
            var armed := row.(status := Running, evidence := Evidence(Armed, Some(i), None), version := row.version + 1);
            t == s.(db := s.db.(intents := s.db.intents[i := Intent(Intended, None, 1)], operations := s.db.operations[o := armed]),
                    frames := s.frames[w := Holding(Fence(o, row.version + 1, w), i, false)])
  {
    hide Quiet;
  }

  lemma CalledAlone(s: Sys, w: nat, outcome: Outcome)
    requires FrameOf(s, w).Holding? && !FrameOf(s, w).spent
    ensures var t, i := Step(Step(Step(Step(s, Consume(w)), Announce(w, false)), CallCreate(w, outcome)), AuditCall(w, false)), FrameOf(s, w).intent;
            t == s.(calls := s.calls[i := Calls(s, i) + 1], frames := s.frames[w := Settling(FrameOf(s, w).f, i, outcome)])
  {
    hide Step;
    var i, f := FrameOf(s, w).intent, FrameOf(s, w).f;
    ConsumedAlone(s, w);
    AnnouncedAlone(At(s, w, Holding(f, i, true)), w);
    var s2 := At(s, w, Announced(f, i));
    assert At(At(s, w, Holding(f, i, true)), w, Announced(f, i)) == s2;
    CalledOnce(s2, w, outcome);
    var s3 := At(s2.(calls := s.calls[i := Calls(s, i) + 1]), w, Called(f, i, outcome));
    AuditedAlone(s3, w);
  }

  lemma ConsumedAlone(s: Sys, w: nat)
    requires FrameOf(s, w).Holding? && !FrameOf(s, w).spent
    ensures Step(s, Consume(w)) == At(s, w, Holding(FrameOf(s, w).f, FrameOf(s, w).intent, true))
  {
  }

  lemma AnnouncedAlone(s: Sys, w: nat)
    requires FrameOf(s, w).Holding? && FrameOf(s, w).spent
    ensures Step(s, Announce(w, false)) == At(s, w, Announced(FrameOf(s, w).f, FrameOf(s, w).intent))
  {
  }

  lemma CalledOnce(s: Sys, w: nat, outcome: Outcome)
    requires FrameOf(s, w).Announced?
    ensures var i := FrameOf(s, w).intent;
            Step(s, CallCreate(w, outcome)) == At(s.(calls := s.calls[i := Calls(s, i) + 1]), w, Called(FrameOf(s, w).f, i, outcome))
  {
  }

  lemma AuditedAlone(s: Sys, w: nat)
    requires FrameOf(s, w).Called?
    ensures Step(s, AuditCall(w, false)) == At(s, w, Settling(FrameOf(s, w).f, FrameOf(s, w).intent, FrameOf(s, w).outcome))
  {
  }

  lemma PaidIs(s: Sys, w: nat, o: nat, outcome: Outcome)
    requires FrameOf(s, w).Spending? && o in s.db.operations && s.db.operations[o].holder == Some(w)
    requires FrameOf(s, w).f == Fence(o, s.db.operations[o].version, w)
    requires FrameOf(s, w).intent !in s.db.intents && FrameOf(s, w).intent !in s.journal
    ensures var t, i := Paid(s, w, outcome), FrameOf(s, w).intent;
            && t.db.assets == s.db.assets && t.db.intents == s.db.intents[i := Intent(Intended, None, 1)] && Calls(t, i) == Calls(s, i) + 1
            && o in t.db.operations && t.db.operations[o] == s.db.operations[o].(status := Running, evidence := Evidence(Armed, Some(i), None),
                                                                                 version := s.db.operations[o].version + 1)
            && FrameOf(t, w) == Settling(Fence(o, t.db.operations[o].version, w), i, outcome)
  {
    hide Step;
    ArmedAlone(s, w, o);
    CalledAlone(Step(s, TryArm(w, Commits)), w, outcome);
  }

  lemma FinishedAlone(s: Sys, w: nat, o: nat)
    requires FrameOf(s, w).Finishing? && FrameOf(s, w).f.operation == o && FrameOf(s, w).f.holder == w
    requires o in s.db.operations && s.db.operations[o].holder == Some(w)
    ensures Step(s, Finish(w, Commits)) ==
            s.(db := s.db.(operations := s.db.operations[o := Closed(s.db.operations[o], FrameOf(s, w).result)]), frames := s.frames[w := Idle])
  {
    hide Closed;
  }

  lemma SettledAlone(s: Sys, w: nat, o: nat)
    requires FrameOf(s, w).Settling? && o in s.db.operations && s.db.operations[o].holder == Some(w)
    requires FrameOf(s, w).f == Fence(o, s.db.operations[o].version, w) && FrameOf(s, w).intent in s.db.intents
    ensures var t, frame := Step(s, TrySettle(w, Commits)), FrameOf(s, w);
            var (db, r) := Settle(s.db, frame.intent, frame.f, frame.outcome);
            t == if r.Lost? then At(s, w, Finishing(frame.f, Unsure))
                 else At(s.(db := db), w, Finishing(frame.f, Told(frame.outcome, r.adoption)))
  {
    hide Settle, Told, Quiet;
  }

  lemma SettledIs(s: Sys, w: nat, o: nat, outcome: Outcome)
    requires FrameOf(s, w).Settling? && o in s.db.operations && s.db.operations[o].holder == Some(w) && FrameOf(s, w).outcome == outcome
    requires FrameOf(s, w).f == Fence(o, s.db.operations[o].version, w)
    requires var i := FrameOf(s, w).intent; i in s.db.intents && s.db.intents[i] == Intent(Intended, None, 1)
    requires s.db.operations[o].evidence == Evidence(Armed, Some(FrameOf(s, w).intent), None)
    ensures var t, i := SettledAndFinished(s, w), FrameOf(s, w).intent;
            && o in t.db.operations && i in t.db.intents && t.calls == s.calls
            && EndsAs(s.db.assets, t.db.assets, s.db.operations[o].instance, t.db.intents[i], t.db.operations[o], i, outcome)
  {
    hide Step, Settle, Told, Closed, EndsAs;
    SettledAlone(s, w, o);
    var frame := FrameOf(s, w);
    SettledThenClosed(s.db, frame.intent, frame.f, outcome);
    FinishedAlone(Step(s, TrySettle(w, Commits)), w, o);
  }

  /** The settlement that a worker commits, and then its finish. */
  lemma SettledThenClosed(db: Db, i: nat, f: Fence, outcome: Outcome)
    requires Holds(db, f) && i in db.intents && db.intents[i] == Intent(Intended, None, 1)
    requires db.operations[f.operation].evidence == Evidence(Armed, Some(i), None)
    ensures var (after, r) := Settle(db, i, f, outcome);
            var kept := if r.Lost? then db else after;
            var result := if r.Lost? then Unsure else Told(outcome, r.adoption);
            && f.operation in kept.operations && kept.operations[f.operation].holder == Some(f.holder) && i in kept.intents
            && EndsAs(db.assets, kept.assets, db.operations[f.operation].instance, kept.intents[i],
                      Closed(kept.operations[f.operation], result), i, outcome)
  {
  }

  /** What a create that answered `outcome` makes of the three records. */
  predicate EndsAs(boxes: map<nat, Option<nat>>, boxes': map<nat, Option<nat>>, instance: nat, row: Intent, o: Operation, i: nat, outcome: Outcome) {
    && o.holder == None && o.until == None
    && match outcome
       case DeclinedIt => o.status == Failed && o.evidence.phase == Declined && row.state == Rejected && boxes' == boxes
       case Unknown => o.status == Unclear && o.evidence == Evidence(Quarantine, Some(i), None) && row.state == Ambiguous && boxes' == boxes
       case BoughtIt(None) =>
         o.status == Unclear && o.evidence == Evidence(Armed, Some(i), None) && row.state == Intended && boxes' == boxes
       case BoughtIt(Some(p)) =>
         if exists a :: a in boxes && a != instance && boxes[a] == Some(p)
         then o.status == Unclear && o.evidence == Evidence(Bought, Some(i), Some(p)) && row.state == Created && boxes' == boxes
         else if instance in boxes && boxes[instance].Some? && boxes[instance] != Some(p)
         then o.status == Unclear && o.evidence == Evidence(Armed, Some(i), None) && row.state == Intended && boxes' == boxes
         else o.status == Succeeded && o.evidence == Evidence(Bought, Some(i), Some(p)) && row.state == Created && boxes' == boxes[instance := Some(p)]
  }

  /** Left alone, a worker that takes an operation with nothing written down calls the
      provider once, and the answer is on all three records: a box is adopted and the
      operation has succeeded, a rejection fails it, and anything unsure leaves it open,
      to find. */
  lemma AloneCreates(s: Sys, w: nat, o: nat, until: int, outcome: Outcome)
    requires CanStart(s, w, o) && s.db.operations[o].evidence == NO_EVIDENCE
    requires s.db.operations[o].want !in s.db.intents && s.db.operations[o].want !in s.journal
    ensures var t, i := SettledAndFinished(Paid(ToSpend(s, w, o, until), w, outcome), w), s.db.operations[o].want;
            && Calls(t, i) == Calls(s, i) + 1
            && o in t.db.operations && i in t.db.intents
            && EndsAs(s.db.assets, t.db.assets, s.db.operations[o].instance, t.db.intents[i], t.db.operations[o], i, outcome)
  {
    hide Step, ToSpend, Paid, SettledAndFinished, EndsAs;
    ToSpendIs(s, w, o, until);
    var t := ToSpend(s, w, o, until);
    PaidIs(t, w, o, outcome);
    SettledIs(Paid(t, w, outcome), w, o, outcome);
  }

  /** Found, and adopted when there is something to adopt. */
  function Found(s: Sys, w: nat, found: Search): Sys {
    Step(Step(Step(s, Find(w, found)), Adopt(w, Commits)), Finish(w, Commits))
  }

  /** And one that comes to an operation whose create may have happened searches, adopts the
      box that it finds, and else leaves it open. */
  lemma AloneFinds(s: Sys, w: nat, o: nat, until: int, found: Search)
    requires CanStart(s, w, o) && s.db.operations[o].evidence.phase in {Armed, Quarantine}
    requires s.db.operations[o].evidence.intent == Some(s.db.operations[o].want)
    ensures var t, row := Found(ToSpend(s, w, o, until), w, found), s.db.operations[o];
            && t.db.intents == s.db.intents && t.calls == s.calls && o in t.db.operations
            && t.db.operations[o].holder == None && t.db.operations[o].until == None
            && match found
               case NotFound =>
                 && t.db.operations[o].evidence == Evidence(Quarantine, Some(row.want), None) && t.db.assets == s.db.assets
                 && t.db.operations[o].status == if row.status == Pending then Running else row.status
               case Unproven => t.db.operations[o].status == Unclear && t.db.operations[o].evidence == row.evidence && t.db.assets == s.db.assets
               case SearchFails => t.db.operations[o].status == Unclear && t.db.operations[o].evidence == row.evidence && t.db.assets == s.db.assets
               case Exact(provider) =>
                 if AdoptIn(s.db.assets, row.instance, provider).1 == Adopts
                 then t.db.operations[o].status == Succeeded && t.db.operations[o].evidence == Evidence(Adopted, None, provider)
                      && t.db.assets == AdoptIn(s.db.assets, row.instance, provider).0
                 else t.db.operations[o].status == Unclear && t.db.operations[o].evidence == row.evidence && t.db.assets == s.db.assets
  {
    hide Step, AdoptIn;
    LeasedAlone(s, w, o, until);
    var row := s.db.operations[o];
    var t := Step(Step(s, Lease(w, o, until)), ReadOperation(w));
    GoesToFind(t, w, o, row.want);
    var u := ToSpend(s, w, o, until);
    FoundAlone(u, w, o, found);
    FinishedAlone(Step(Step(u, Find(w, found)), Adopt(w, Commits)), w, o);
    NoneThrows(s.db.assets, row.instance);
  }

  lemma GoesToFind(s: Sys, w: nat, o: nat, want: nat)
    requires FrameOf(s, w).Read? && FrameOf(s, w).o.evidence.phase in {Armed, Quarantine} && FrameOf(s, w).o.evidence.intent == Some(want)
    ensures Step(s, ReadIntent(w)) == At(s, w, Finding(FrameOf(s, w).f, want))
  {
  }

  lemma FoundAlone(s: Sys, w: nat, o: nat, found: Search)
    requires FrameOf(s, w).Finding? && FrameOf(s, w).f.operation == o && o in s.db.operations
    ensures var t, f := Step(Step(s, Find(w, found)), Adopt(w, Commits)), FrameOf(s, w).f;
            t == match found
                 case NotFound => At(s, w, Finishing(f, Waiting(Evidence(Quarantine, Some(FrameOf(s, w).intent), None))))
                 case Unproven => At(s, w, Finishing(f, Unsure))
                 case SearchFails => At(s, w, Finishing(f, Unsure))
                 case Exact(provider) =>
                   var (assets, r) := AdoptIn(s.db.assets, s.db.operations[o].instance, provider);
                   if provider.Some? && r == Adopts then At(s.(db := s.db.(assets := assets)), w, Finishing(f, Done(Some(Evidence(Adopted, None, provider)))))
                   else At(s, w, Finishing(f, Unsure))
  {
    hide AdoptIn;
    var i, f := FrameOf(s, w).intent, FrameOf(s, w).f;
    assert Step(s, Find(w, found)) == At(s, w, Searched(FrameOf(s, w), found));
  }

  /** A worker left alone with an operation whose order was rejected fails it. */
  lemma AloneFails(s: Sys, w: nat, o: nat, until: int)
    requires CanStart(s, w, o) && s.db.operations[o].evidence.phase !in {Armed, Quarantine, Bought}
    requires s.db.operations[o].evidence.intent.Some? ==> s.db.operations[o].evidence.intent.value == s.db.operations[o].want
    requires s.db.operations[o].want in s.db.intents && s.db.intents[s.db.operations[o].want].state == Rejected
    ensures var t := Step(ToSpend(s, w, o, until), Finish(w, Commits));
            && o in t.db.operations && t.db.intents == s.db.intents && t.calls == s.calls && t.db.assets == s.db.assets
            && t.db.operations[o].status == Failed && t.db.operations[o].holder == None
  {
    hide Step, Decided, Decide, IntentOf, RowOf, Leases;
    LeasedAlone(s, w, o, until);
    GoesToEnd(Step(Step(s, Lease(w, o, until)), ReadOperation(w)), w, o, s.db.operations[o].want);
    FinishedAlone(ToSpend(s, w, o, until), w, o);
  }

  /** And with one whose order was bought, it adopts the box. */
  lemma AloneAdopts(s: Sys, w: nat, o: nat, until: int)
    requires CanStart(s, w, o) && s.db.operations[o].evidence.phase !in {Armed, Quarantine}
    requires s.db.operations[o].evidence.intent.Some? ==> s.db.operations[o].evidence.intent.value == s.db.operations[o].want
    requires s.db.operations[o].want in s.db.intents && s.db.intents[s.db.operations[o].want].state == Created
    ensures var u, row := ToSpend(s, w, o, until), s.db.operations[o];
            var order := s.db.intents[row.want];
            var box := if order.provider.Some? then order.provider else row.evidence.provider;
            var t := Step(Step(u, Adopt(w, Commits)), Finish(w, Commits));
            && o in t.db.operations && t.db.intents == s.db.intents && t.calls == s.calls && t.db.operations[o].holder == None
            && (if AdoptIn(s.db.assets, row.instance, box).1 == Adopts
                then t.db.operations[o].status == Succeeded && t.db.operations[o].evidence == Evidence(Bought, None, box)
                     && t.db.assets == AdoptIn(s.db.assets, row.instance, box).0
                else t.db.operations[o].status == Unclear && t.db.assets == s.db.assets)
  {
    hide Step, AdoptIn, Decided, Decide, IntentOf, RowOf, Leases;
    LeasedAlone(s, w, o, until);
    var row := s.db.operations[o];
    GoesToEnd(Step(Step(s, Lease(w, o, until)), ReadOperation(w)), w, o, row.want);
    var u := ToSpend(s, w, o, until);
    NoneThrows(s.db.assets, row.instance);
    AdoptedAlone(u, w, o);
    FinishedAlone(Step(u, Adopt(w, Commits)), w, o);
  }

  lemma GoesToEnd(s: Sys, w: nat, o: nat, want: nat)
    requires FrameOf(s, w).Read? && FrameOf(s, w).o.evidence.phase !in {Armed, Quarantine}
    requires FrameOf(s, w).o.want == want && (FrameOf(s, w).o.evidence.intent.Some? ==> FrameOf(s, w).o.evidence.intent.value == want)
    requires want in s.db.intents && s.db.intents[want].state in {Created, Rejected}
    ensures var frame, order := FrameOf(s, w), s.db.intents[want];
            var box := if order.provider.Some? then order.provider else frame.o.evidence.provider;
            order.state == Created ==>
              Step(s, ReadIntent(w)) == At(s, w, if box.None? then Finishing(frame.f, Unsure) else Adopting(frame.f, want, box, Bought))
    ensures s.db.intents[want].state == Rejected && FrameOf(s, w).o.evidence.phase != Bought ==>
              Step(s, ReadIntent(w)) == At(s, w, Finishing(FrameOf(s, w).f, Fatal))
  {
  }

  lemma AdoptedAlone(s: Sys, w: nat, o: nat)
    requires !FrameOf(s, w).Idle? && FrameOf(s, w).f.operation == o && o in s.db.operations
    ensures Step(s, Adopt(w, Commits)) ==
            if !FrameOf(s, w).Adopting? then s
            else
              var Adopting(f, i, provider, after) := FrameOf(s, w);
              var (assets, r) := AdoptIn(s.db.assets, s.db.operations[o].instance, provider);
              if r == Adopts then At(s.(db := s.db.(assets := assets)), w, Finishing(f, Done(Some(Evidence(after, None, provider)))))
              else At(s, w, Finishing(f, Unsure))
  {
    hide AdoptIn;
  }

  lemma NoneThrows(assets: map<nat, Option<nat>>, instance: nat)
    ensures AdoptIn(assets, instance, None).1 == Throws
  {
  }

  // -------------------------------------------------------------- after a lost fence

  /** Nobody's stack owns the intent. */
  ghost predicate Unowned(s: Sys, i: nat) {
    forall w :: w in s.frames ==> !Owns(s.frames[w], i)
  }

  lemma UnownedStays(s: Sys, e: Event, i: nat)
    requires Sound(s) && i in s.db.intents && Unowned(s, i)
    ensures var t := Step(s, e);
            Unowned(t, i) && i in t.db.intents && t.db.intents[i] == s.db.intents[i] && Calls(t, i) == Calls(s, i)
  {
    hide Quiet, ArmedBy, SettledBy, CalledBy, Migrated, Sound, Unowned, Calls;
    match e
    case Migrate(j) => MigrateUnowned(s, j, i);
    case TryArm(w, commit) => ArmUnowned(s, w, commit, i);
    case CallCreate(w, outcome) => CallUnowned(s, w, outcome, i);
    case TrySettle(w, commit) => SettleUnowned(s, w, commit, i);
    case _ => QuietUnowned(s, e, i);
  }

  lemma QuietUnowned(s: Sys, e: Event, i: nat)
    requires i in s.db.intents && Unowned(s, i)
    ensures var t := Quiet(s, e);
            Unowned(t, i) && i in t.db.intents && t.db.intents[i] == s.db.intents[i] && Calls(t, i) == Calls(s, i)
  {
    hide Quiet, Mover, MayCall;
    QuietIs(s, e, i);
  }

  lemma MigrateUnowned(s: Sys, j: nat, i: nat)
    requires i in s.db.intents && Unowned(s, i)
    ensures var t := Migrated(s, j);
            Unowned(t, i) && i in t.db.intents && t.db.intents[i] == s.db.intents[i] && Calls(t, i) == Calls(s, i)
  {
  }

  lemma ArmUnowned(s: Sys, w: nat, commit: Commit, i: nat)
    requires i in s.db.intents && Unowned(s, i)
    ensures var t := ArmedBy(s, w, commit);
            Unowned(t, i) && i in t.db.intents && t.db.intents[i] == s.db.intents[i] && Calls(t, i) == Calls(s, i)
  {
  }

  lemma CallUnowned(s: Sys, w: nat, outcome: Outcome, i: nat)
    requires i in s.db.intents && Unowned(s, i)
    ensures var t := CalledBy(s, w, outcome);
            Unowned(t, i) && i in t.db.intents && t.db.intents[i] == s.db.intents[i] && Calls(t, i) == Calls(s, i)
  {
  }

  lemma SettleUnowned(s: Sys, w: nat, commit: Commit, i: nat)
    requires i in s.db.intents && Unowned(s, i)
    ensures var t := SettledBy(s, w, commit);
            Unowned(t, i) && i in t.db.intents && t.db.intents[i] == s.db.intents[i] && Calls(t, i) == Calls(s, i)
  {
    hide AdoptIn, Told;
  }

  /** A settlement that is lost leaves the intent as it was armed, and a crash after the
      arming does too. From then on nothing ever changes it and nothing calls for it:
      every handler that comes to it only finds. */
  lemma {:induction false} OnlyFindIsLeft(s: Sys, events: seq<Event>, i: nat)
    requires Sound(s) && i in s.db.intents && Unowned(s, i)
    ensures var t := Run(s, events);
            && Unowned(t, i) && i in t.db.intents && t.db.intents[i] == s.db.intents[i] && Calls(t, i) == Calls(s, i)
            && (forall evidence :: Decide(evidence, RowOf(t.db, i)) != Spend)
            && (s.db.intents[i].state in {Intended, Ambiguous} ==> forall evidence :: Decide(evidence, RowOf(t.db, i)) == FindOnly)
  {
    hide Sound, Step, Unowned, Calls;
    if events != [] {
      var front := events[..|events| - 1];
      OnlyFindIsLeft(s, front, i);
      RunKeeps(s, front);
      UnownedStays(Run(s, front), events[|events| - 1], i);
    }
  }

  /** Only the stack that armed an intent can settle it, and it finds the row as armed:
      the settlement can be lost to the operation's fence, never to the intent's. */
  lemma OnlyTheFenceCanLose(s: Sys, w: nat, commit: Commit)
    requires Sound(s) && FrameOf(s, w).Settling?
    ensures var Settling(f, i, outcome) := FrameOf(s, w);
            && i in s.db.intents && s.db.intents[i] == Intent(Intended, None, 1)
            && (Settle(s.db, i, f, outcome).1.Lost? <==>
                  !Holds(s.db, f) || (outcome.BoughtIt? && AdoptIn(s.db.assets, s.db.operations[f.operation].instance, outcome.provider).1 == Throws))
            && (Settle(s.db, i, f, outcome).1.Lost? ==> Step(s, TrySettle(w, commit)).db == s.db && Unowned(Step(s, TrySettle(w, commit)), i))
  {
    var i := FrameOf(s, w).intent;
    assert IntentSound(s, i);
    assert Owns(s.frames[w], i);
  }
}
