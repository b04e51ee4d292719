/** The DNS challenge records and their crash journal: when a record that was made here
    and not deleted is named by a file that reads, at every point where a run can stop. */
module Dns {

  /** A challenge: a name and the value at it. A journal file is of one pair. */
  datatype Pair = Pair(name: nat, content: nat)

  datatype Txt = Txt(id: nat, pair: Pair)

  datatype File = Readable(ids: seq<nat>, createdAt: int) | Corrupt

  /** Whether a call was applied, and answered; and a crash on either side. */
  datatype Answer = Answered | Lost | Failed | CrashBefore | CrashAfter

  /** What others do in the zone; never to a pair's journal. */
  datatype Foreign = Adds(pair: Pair) | Removes(id: nat)

  datatype Turn = Turn(before: seq<Foreign>, answer: Answer)

  datatype Step<T> = Ok(value: T) | Threw | Crashed

  const PAGE := 100

  // ------------------------------------------------------------------------- the zone

  function AtName(records: seq<Txt>, name: nat): seq<Txt> {
    if records == [] then []
    else (if records[0].pair.name == name then [records[0]] else []) + AtName(records[1..], name)
  }

  function OfPair(records: seq<Txt>, pair: Pair): seq<Txt> {
    if records == [] then []
    else (if records[0].pair == pair then [records[0]] else []) + OfPair(records[1..], pair)
  }

  /** What a list of the name, filtered by the value, shows: one page of it. */
  function Shown(records: seq<Txt>, pair: Pair): seq<Txt> {
    var all := AtName(records, pair.name);
    OfPair(if |all| <= PAGE then all else all[..PAGE], pair)
  }

  function Deleted(records: seq<Txt>, id: nat): seq<Txt> {
    if records == [] then []
    else (if records[0].id == id then [] else [records[0]]) + Deleted(records[1..], id)
  }

  function NotOf(records: seq<Txt>, pair: Pair): seq<Txt> {
    if records == [] then []
    else (if records[0].pair == pair then [] else [records[0]]) + NotOf(records[1..], pair)
  }

  lemma {:induction false} PairIsAtName(records: seq<Txt>, pair: Pair)
    ensures OfPair(AtName(records, pair.name), pair) == OfPair(records, pair)
  {
    if records != [] {
      PairIsAtName(records[1..], pair);
      var rest := AtName(records[1..], pair.name);
      assert ([records[0]] + rest)[1..] == rest && [] + rest == rest;
    }
  }

  lemma {:induction false} OfPairMembers(records: seq<Txt>, pair: Pair)
    ensures forall r :: r in OfPair(records, pair) <==> r in records && r.pair == pair
  {
    if records != [] {
      OfPairMembers(records[1..], pair);
      assert records == [records[0]] + records[1..];
    }
  }

  lemma {:induction false} DeletedMembers(records: seq<Txt>, id: nat)
    ensures forall r :: r in Deleted(records, id) <==> r in records && r.id != id
  {
    if records != [] {
      DeletedMembers(records[1..], id);
      assert records == [records[0]] + records[1..];
    }
  }

  predicate ShowsAll(records: seq<Txt>, pair: Pair) {
    forall r :: r in records && r.pair == pair ==> r in Shown(records, pair)
  }

  /** A list shows every record of the pair exactly when all of them are on its page. */
  lemma ShowsAllIff(records: seq<Txt>, pair: Pair)
    ensures ShowsAll(records, pair) <==>
            var all := AtName(records, pair.name);
            |all| <= PAGE || forall r :: r in all[PAGE..] && r.pair == pair ==> r in all[..PAGE]
  {
    var all := AtName(records, pair.name);
    PairIsAtName(records, pair);
    OfPairMembers(records, pair);
    OfPairMembers(all, pair);
    if |all| > PAGE {
      OfPairMembers(all[..PAGE], pair);
      assert all == all[..PAGE] + all[PAGE..];
    }
  }

  /** And it never shows any other. */
  lemma ShownMembers(records: seq<Txt>, pair: Pair)
    requires DistinctIds(records)
    ensures forall r :: r in Shown(records, pair) ==> r in records && r.pair == pair
    ensures DistinctIds(Shown(records, pair))
  {
    var all := AtName(records, pair.name);
    AtNameMembers(records, pair.name);
    var page := if |all| <= PAGE then all else all[..PAGE];
    OfPairMembers(page, pair);
    OfPairDistinct(page, pair);
  }

  lemma {:induction false} AtNameMembers(records: seq<Txt>, name: nat)
    requires DistinctIds(records)
    ensures forall r :: r in AtName(records, name) ==> r in records
    ensures DistinctIds(AtName(records, name))
  {
    if records != [] {
      AtNameMembers(records[1..], name);
      var rest := AtName(records[1..], name);
      forall i | 0 <= i < |rest| ensures rest[i].id != records[0].id { assert rest[i] in records[1..]; }
    }
  }

  /** One more pass over records: those of one pair deleted one by one are all gone. */
  function DeletedAll(records: seq<Txt>, gone: seq<Txt>): seq<Txt> {
    if gone == [] then records else Deleted(DeletedAll(records, gone[..|gone| - 1]), gone[|gone| - 1].id)
  }

  ghost predicate DistinctIds(records: seq<Txt>) {
    forall i, j :: 0 <= i < j < |records| ==> records[i].id != records[j].id
  }

  // ----------------------------------------------------------------- the crash journal

  predicate Named(r: Txt, journal: map<Pair, File>) { r.pair in journal && journal[r.pair].Readable? }

  /** Every record that was made here and not deleted has a readable file naming it. */
  ghost predicate Journalled(records: seq<Txt>, ours: set<nat>, journal: map<Pair, File>) {
    forall r :: r in records && r.id in ours ==> Named(r, journal)
  }

  /** A record made here without its file had none before either. */
  ghost predicate LosesNone(records: seq<Txt>, ours: set<nat>, journal: map<Pair, File>,
                            records': seq<Txt>, ours': set<nat>, journal': map<Pair, File>) {
    forall r :: r in records' && r.id in ours' && !Named(r, journal') ==> r in records && r.id in ours && !Named(r, journal)
  }

  /** A cleanup loses a record's file exactly when the list does not show the record. */
  lemma CleanupIff(records: seq<Txt>, ours: set<nat>, journal: map<Pair, File>, pair: Pair)
    requires DistinctIds(records) && Journalled(records, ours, journal)
    ensures Journalled(DeletedAll(records, Shown(records, pair)), ours, journal - {pair}) <==>
            forall r :: r in records && r.pair == pair && r.id in ours ==> r in Shown(records, pair)
  {
    hide Shown, DeletedAll, DistinctIds;
    DeletedLeaves(records, pair);
    var left := DeletedAll(records, Shown(records, pair));
    forall r | r in records && r.pair == pair && r.id in ours && r !in Shown(records, pair)
      ensures !Journalled(left, ours, journal - {pair})
    {
      assert r in left && !Named(r, journal - {pair});
    }
  }

  /** Deleted one by one, by their ids, exactly the shown ones are gone. */
  lemma DeletedLeaves(records: seq<Txt>, pair: Pair)
    requires DistinctIds(records)
    ensures forall r :: r in DeletedAll(records, Shown(records, pair)) <==> r in records && r !in Shown(records, pair)
    ensures DistinctIds(DeletedAll(records, Shown(records, pair)))
  {
    hide Shown;
    var shown := Shown(records, pair);
    ShownMembers(records, pair);
    DeletedAllById(records, shown);
    WithoutIdsMembers(records, IdSet(shown));
    DeletedAllDistinct(records, shown);
    forall r | r in records && r.id in IdSet(shown) ensures r in shown {
      var t :| t in shown && t.id == r.id;
      SameId(records, r);
    }
  }

  lemma {:induction false} DeletedAllDistinct(records: seq<Txt>, gone: seq<Txt>)
    requires DistinctIds(records)
    ensures DistinctIds(DeletedAll(records, gone))
  {
    hide DistinctIds;
    if gone != [] {
      DeletedAllDistinct(records, gone[..|gone| - 1]);
      DeletedDistinct(DeletedAll(records, gone[..|gone| - 1]), gone[|gone| - 1].id);
    }
  }

  /** A cleanup is exact when the list shows all of the pair, and only then. */
  lemma CleanupIsExact(records: seq<Txt>, pair: Pair)
    requires DistinctIds(records)
    ensures DeletedAll(records, Shown(records, pair)) == NotOf(records, pair) <==> ShowsAll(records, pair)
  {
    hide Shown;
    ShownMembers(records, pair);
    DeletedLeaves(records, pair);
    NotOfMembers(records, pair);
    if ShowsAll(records, pair) {
      OfPairMembers(records, pair);
      DeletedAllById(records, Shown(records, pair));
      forall r | r in records ensures r.id in IdSet(Shown(records, pair)) <==> r.pair == pair { SameId(records, r); }
      WithoutPair(records, pair, IdSet(Shown(records, pair)));
    }
  }

  class CloudflareDns {
    var records: seq<Txt>
    var nextId: nat
    var journal: map<Pair, File>
    /** Half-written files, and when they were written. */
    var partials: map<Pair, int>
    var script: seq<Turn>
    /** The records that present made. */
    ghost var ours: set<nat>

    ghost predicate Valid()
      reads this
    {
      && (forall r :: r in records ==> r.id < nextId) && (forall id :: id in ours ==> id < nextId)
      && DistinctIds(records)
    }

    constructor (records: seq<Txt>, nextId: nat, journal: map<Pair, File>, partials: map<Pair, int>)
      requires DistinctIds(records) && forall r :: r in records ==> r.id < nextId
      ensures Valid() && this.records == records && this.nextId == nextId && ours == {}
      ensures this.journal == journal && this.partials == partials && script == []
    {
      this.records, this.nextId, script, ours := records, nextId, [], {};
      this.journal, this.partials := journal, partials;
    }

    /** What others do before the next call, and how that call goes. */
    method Take() returns (answer: Answer)
      requires Valid()
      modifies this`records, this`nextId, this`script
      ensures Valid() && nextId >= old(nextId)
      ensures forall r :: r in records && r.id in ours ==> r in old(records)
      ensures old(script) == [] ==> script == [] && answer == Answered && records == old(records) && nextId == old(nextId)
    {
      if script == [] { return Answered; }
      var turn := script[0];
      script, answer := script[1..], turn.answer;
      for i := 0 to |turn.before|
        invariant Valid() && nextId >= old(nextId)
        invariant forall r :: r in records && r.id in ours ==> r in old(records)
      {
        match turn.before[i]
        case Adds(pair) =>
          AddedMembers(records, Txt(nextId, pair));
          records, nextId := records + [Txt(nextId, pair)], nextId + 1;
        case Removes(id) =>
          DeletedMembers(records, id);
          DeletedDistinct(records, id);
          records := Deleted(records, id);
      }
    }

    /** Writes a journal file: first beside it, then renamed over it at once. */
    method WriteIntent(pair: Pair, file: File, now: int) returns (r: Step<()>)
      requires Valid() && file.Readable?
      modifies this`records, this`nextId, this`script, this`journal, this`partials
      ensures Valid()
      ensures journal == old(journal) || journal == old(journal)[pair := file]
      ensures r.Ok? ==> journal == old(journal)[pair := file]
      ensures forall p :: p != pair ==> (p in partials <==> p in old(partials)) && (p in partials && p in old(partials) ==> partials[p] == old(partials)[p])
      ensures forall t :: t in records && t.id in ours ==> t in old(records)
      ensures old(script) == [] ==> script == [] && r.Ok? && records == old(records) && nextId == old(nextId) && partials == old(partials) - {pair}
    {
      var written := Take();
      if written == CrashBefore { return Crashed; }
      if written == Failed { return Threw; }
      partials := partials[pair := now];
      if written == CrashAfter { return Crashed; }
      if written == Lost { return Threw; }
      var renamed := Take();
      if renamed == CrashBefore { return Crashed; }
      if renamed == Failed { return Threw; }
      partials, journal := partials - {pair}, journal[pair := file];
      if renamed == CrashAfter { return Crashed; }
      if renamed == Lost { return Threw; }
      r := Ok(());
    }

    method ListExact(pair: Pair) returns (r: Step<seq<Txt>>)
      requires Valid()
      modifies this`records, this`nextId, this`script
      ensures Valid()
      ensures forall t :: t in records && t.id in ours ==> t in old(records)
      ensures r.Ok? ==> r.value == Shown(records, pair)
      ensures old(script) == [] ==> script == [] && records == old(records) && nextId == old(nextId) && r.Ok?
    {
      var answer := Take();
      if answer == CrashBefore || answer == CrashAfter { return Crashed; }
      if answer != Answered { return Threw; }
      r := Ok(Shown(records, pair));
    }

    /** Adopts what the list shows of the value, else makes one record. */
    method AdoptOrMake(pair: Pair) returns (r: Step<seq<nat>>)
      requires Valid()
      modifies this`records, this`nextId, this`script, this`ours
      ensures Valid() && old(ours) <= ours
      ensures forall t :: t in records && t.id in ours ==> (t in old(records) && t.id in old(ours)) || t.pair == pair
      ensures old(script) == [] ==>
                var left := Shown(old(records), pair);
                && script == [] && r.Ok?
                && (if left != [] then records == old(records) && r.value == Ids(left) && ours == old(ours)
                    else r.value == [old(nextId)] && records == old(records) + [Txt(old(nextId), pair)] && ours == old(ours) + {old(nextId)})
    {
      hide DistinctIds, Shown, Ids;
      var listed := ListExact(pair);
      if listed.Threw? { return Threw; }
      if listed.Crashed? { return Crashed; }
      if listed.value != [] { return Ok(Ids(listed.value)); }
      var made := MakeRecord(pair);
      r := if made.Ok? then Ok([made.value]) else if made.Crashed? then Crashed else Threw;
    }

    /** Journals the challenge before its first write, and again with the records it has.
        Wherever it stops, it leaves no record made here without a file. */
    method Present(pair: Pair, now: int) returns (r: Step<seq<nat>>)
      requires Valid()
      modifies this
      ensures Valid() && old(ours) <= ours
      ensures LosesNone(old(records), old(ours), old(journal), records, ours, journal)
      ensures Journalled(old(records), old(ours), old(journal)) ==> Journalled(records, ours, journal)
      ensures forall p :: p != pair ==> (p in journal <==> p in old(journal)) && (p in journal && p in old(journal) ==> journal[p] == old(journal)[p])
      ensures r.Ok? ==> pair in journal && journal[pair] == Readable(r.value, now)
      ensures old(script) == [] ==>
                var left := Shown(old(records), pair);
                && script == [] && r.Ok?
                && (if left != [] then records == old(records) && r.value == Ids(left) && ours == old(ours)
                    else r.value == [old(nextId)] && records == old(records) + [Txt(old(nextId), pair)] && ours == old(ours) + {old(nextId)})
    {
      hide DistinctIds, Shown, Ids;
      var first := WriteIntent(pair, Readable([], now), now);
      if !first.Ok? { return if first.Crashed? then Crashed else Threw; }
      r := AdoptOrMake(pair);
      if !r.Ok? { return; }
      var last := WriteIntent(pair, Readable(r.value, now), now);
      if !last.Ok? { r := if last.Crashed? then Crashed else Threw; }
    }

    /** The create: it can land without its answer. */
    method MakeRecord(pair: Pair) returns (r: Step<nat>)
      requires Valid()
      modifies this`records, this`nextId, this`script, this`ours
      ensures Valid() && old(ours) <= ours
      ensures forall t :: t in records && t.id in ours ==> (t in old(records) && t.id in old(ours)) || t.pair == pair
      ensures old(script) == [] ==>
                && script == [] && r == Ok(old(nextId)) && ours == old(ours) + {old(nextId)}
                && records == old(records) + [Txt(old(nextId), pair)]
    {
      hide DistinctIds;
      var made := Take();
      if made == CrashBefore { return Crashed; }
      if made == Failed { return Threw; }
      var id := nextId;
      AddedMembers(records, Txt(id, pair));
      records, ours, nextId := records + [Txt(id, pair)], ours + {id}, id + 1;
      if made == CrashAfter { return Crashed; }
      if made == Lost { return Threw; }
      r := Ok(id);
    }

    /** Deletes every record of the value that a new list shows, and then its file. `zone`
        is what was there to list. */
    method Cleanup(pair: Pair) returns (r: Step<()>, ghost zone: seq<Txt>)
      requires Valid()
      modifies this`records, this`nextId, this`script, this`journal
      ensures Valid() && (journal == old(journal) || journal == old(journal) - {pair})
      ensures forall t :: t in records && t.id in ours ==> t in old(records)
      ensures r.Ok? ==> pair !in journal
      ensures r.Ok? || journal != old(journal) ==>
                forall t :: t in records && t.pair == pair && t.id in ours ==> t in zone && t !in Shown(zone, pair)
      ensures old(script) == [] ==>
                && script == [] && r.Ok? && zone == old(records) && journal == old(journal) - {pair}
                && records == DeletedAll(old(records), Shown(old(records), pair))
    {
      hide DistinctIds, Shown;
      var listed := ListExact(pair);
      zone := records;
      if listed.Threw? { return Threw, zone; }
      if listed.Crashed? { return Crashed, zone; }
      ShownMembers(zone, pair);
      r := DeleteEach(listed.value);
      if !r.Ok? { return; }
      var removed := Take();
      if removed == CrashBefore { return Crashed, zone; }
      if removed == Failed { return Threw, zone; }
      journal := journal - {pair};
      if removed == CrashAfter { return Crashed, zone; }
      if removed == Lost { return Threw, zone; }
      r := Ok(());
    }

    method DeleteEach(existing: seq<Txt>) returns (r: Step<()>)
      requires Valid() && DistinctIds(existing) && forall t :: t in existing ==> t in records
      modifies this`records, this`nextId, this`script
      ensures Valid()
      ensures forall t :: t in records && t.id in ours ==> t in old(records)
      ensures r.Ok? ==> forall t :: t in records && t.id in ours ==> t !in existing
      ensures old(script) == [] ==> script == [] && r.Ok? && records == DeletedAll(old(records), existing)
    {
      hide DistinctIds, DeletedAll, Deleted;
      ghost var before, quiet := records, script == [];
      NoneDeleted(before);
      for k := 0 to |existing|
        invariant Valid()
        invariant forall t :: t in records && t.id in ours ==> t in before && t !in existing[..k]
        invariant quiet ==> script == [] && records == DeletedAll(before, existing[..k])
      {
        OneMoreDeleted(before, existing, k);
        if quiet { StillThere(before, existing, k); }
        r := DeleteOne(existing[k].id);
        if !r.Ok? { return; }
        assert existing[..k + 1] == existing[..k] + [existing[k]];
      }
      assert existing[..|existing|] == existing;
      r := Ok(());
    }

    /** One delete; one of a record that is not there any more is an error. */
    method DeleteOne(id: nat) returns (r: Step<()>)
      requires Valid()
      modifies this`records, this`nextId, this`script
      ensures Valid()
      ensures forall t :: t in records && t.id in ours ==> t in old(records)
      ensures r.Ok? ==> forall t :: t in records ==> t.id != id
      ensures old(script) == [] && HasId(old(records), id) ==> script == [] && r.Ok? && records == Deleted(old(records), id)
    {
      hide DistinctIds;
      var answer := Take();
      if answer == CrashBefore { return Crashed; }
      if answer == Failed { return Threw; }
      if !HasId(records, id) { return Threw; }
      DeletedMembers(records, id);
      DeletedDistinct(records, id);
      records := Deleted(records, id);
      if answer == CrashAfter { return Crashed; }
      if answer == Lost { return Threw; }
      r := Ok(());
    }

    /** What a killed run left: every journal file that is old with its records, and every
        old half-written file. A failed cleanup keeps its file; one that does not read
        stays. `zones` are what its cleanups had to list. */
    method ReapOrphans(entries: seq<Entry>, olderThanMs: int, now: int) returns (r: Step<Reaped>, ghost zones: seq<seq<Txt>>)
      requires Valid()
      modifies this`records, this`nextId, this`script, this`journal, this`partials
      ensures Valid()
      ensures forall p :: p in journal ==> p in old(journal) && journal[p] == old(journal)[p]
      ensures forall p :: p in old(journal) && (old(journal)[p].Corrupt? || now - old(journal)[p].createdAt < olderThanMs) ==> p in journal
      ensures forall t :: t in records && t.id in ours && !Named(t, journal) ==>
                t in old(records) && (Named(t, old(journal)) ==> exists z :: z in zones && IsMissed(t, z))
      ensures old(script) == [] ==>
                && r.Ok? && r.value.failed == 0
                && (records, journal) == AfterReap(old(records), old(journal), entries, olderThanMs, now)
                && r.value.removed == |old(journal)| - |journal|
                && (forall p :: p in partials <==> p in old(partials) && !(Half(p) in entries && now - old(partials)[p] >= olderThanMs))
    {
      hide DistinctIds, IsMissed, DeletedAll, Shown;
      var result := Reaped(0, 0, 0);
      zones := [];
      ghost var files, halves, zone, quiet := journal, partials, records, script == [];
      for k := 0 to |entries|
        invariant Valid()
        invariant forall p :: p in journal ==> p in files && journal[p] == files[p]
        invariant forall p :: p in files && !Expired(files[p], olderThanMs, now) ==> p in journal
        invariant forall t :: t in records && t.id in ours ==> t in zone
        invariant forall t :: t in records && t.id in ours && !Named(t, journal) && Named(t, files) ==> exists z :: z in zones && IsMissed(t, z)
        invariant quiet ==> script == [] && result.failed == 0 && result.removed == |files| - |journal|
        invariant quiet ==> (records, journal) == AfterReap(zone, files, entries[..k], olderThanMs, now)
        invariant forall p :: p in partials <==> p in halves && !(Half(p) in entries[..k] && now - halves[p] >= olderThanMs)
        invariant forall p :: p in partials ==> partials[p] == halves[p]
      {
        assert entries[..k + 1] == entries[..k] + [entries[k]];
        assert entries[..k + 1][..k] == entries[..k];
        match entries[k]
        case Half(pair) =>
          if pair in partials && now - partials[pair] >= olderThanMs { partials := partials - {pair}; }
        case Json(pair) =>
          if pair !in journal { continue; }
          if journal[pair].Corrupt? {
            result := result.(unreadable := result.unreadable + 1);
            continue;
          }
          if now - journal[pair].createdAt < olderThanMs { continue; }
          ghost var before, was := journal, records;
          var cleaned;
          ghost var listed;
          cleaned, listed := Cleanup(pair);
          OneFewer(before, pair);
          OnlyMissed(was, records, ours, before, journal, pair, listed);
          zones := zones + [listed];
          match cleaned {
            case Ok(_) => result := result.(removed := result.removed + 1);
            case Threw => result := result.(failed := result.failed + 1);
            case Crashed => return Crashed, zones;
          }
      }
      assert entries[..|entries|] == entries;
      r := Ok(result);
    }

    /** A run that loses one: a hundred other values at the name, and one presented and
        cleaned up. */
    static method CleanupLosesOne() returns (dns: CloudflareDns)
      ensures dns.Valid() && Txt(PAGE, Pair(0, 0)) in dns.records && PAGE in dns.ours && dns.journal == map[]
      ensures !Journalled(dns.records, dns.ours, dns.journal)
    {
      var pair, made, others := Pair(0, 0), Txt(PAGE, Pair(0, 0)), seq(PAGE, (i: nat) => Txt(i, Pair(0, 1)));
      dns := new CloudflareDns(others, PAGE, map[], map[]);
      assert others + [] == others;
      NoneShown(others, []);
      var r := dns.Present(pair, 0);
      assert dns.records == others + [made];
      NoneShown(others, [made]);
      var c, zone := dns.Cleanup(pair);
      assert dns.records[PAGE] == made;
    }
  }

  /** The list showed the zone without the record. */
  predicate IsMissed(t: Txt, zone: seq<Txt>) { t in zone && t !in Shown(zone, t.pair) }

  lemma OneFewer(journal: map<Pair, File>, pair: Pair)
    requires pair in journal
    ensures |journal - {pair}| == |journal| - 1
  {
    assert (journal - {pair}).Keys == journal.Keys - {pair};
    assert |journal| == |journal.Keys| && |journal - {pair}| == |(journal - {pair}).Keys|;
  }

  lemma OnlyMissed(records: seq<Txt>, records': seq<Txt>, ours: set<nat>, journal: map<Pair, File>, journal': map<Pair, File>,
                   pair: Pair, zone: seq<Txt>)
    requires journal' == journal || journal' == journal - {pair}
    requires forall t :: t in records' && t.id in ours ==> t in records
    requires journal' != journal ==> forall t :: t in records' && t.pair == pair && t.id in ours ==> t in zone && t !in Shown(zone, pair)
    ensures forall t :: t in records' && t.id in ours && !Named(t, journal') ==> !Named(t, journal) || IsMissed(t, zone)
  {
  }

  /** With a full page of another value first, nothing of the value is shown. */
  lemma NoneShown(others: seq<Txt>, more: seq<Txt>)
    requires |others| == PAGE && forall r :: r in others ==> r.pair == Pair(0, 1)
    ensures Shown(others + more, Pair(0, 0)) == []
  {
    AllAtName(others, more);
    var all := AtName(others + more, 0);
    assert (if |all| <= PAGE then all else all[..PAGE]) == others;
    OfPairMembers(others, Pair(0, 0));
    var shown := OfPair(others, Pair(0, 0));
    HasFirst(shown);
  }

  lemma HasFirst(records: seq<Txt>)
    ensures records != [] ==> records[0] in records
  {
  }

  lemma {:induction false} AllAtName(others: seq<Txt>, more: seq<Txt>)
    requires forall r :: r in others ==> r.pair == Pair(0, 1)
    ensures AtName(others + more, 0) == others + AtName(more, 0)
  {
    if others == [] {
      assert others + more == more;
    } else {
      assert (others + more)[1..] == others[1..] + more;
      AllAtName(others[1..], more);
    }
  }

  // ------------------------------------------------------------------------ the reap

  /** The zone and the journal after a reap that nothing disturbs. */
  function AfterReap(records: seq<Txt>, journal: map<Pair, File>, entries: seq<Entry>, olderThanMs: int, now: int): (seq<Txt>, map<Pair, File>) {
    if entries == [] then (records, journal)
    else
      var (zone, files) := AfterReap(records, journal, entries[..|entries| - 1], olderThanMs, now);
      match entries[|entries| - 1]
      case Half(_) => (zone, files)
      case Json(pair) =>
        if pair in files && Expired(files[pair], olderThanMs, now)
        then (DeletedAll(zone, Shown(zone, pair)), files - {pair}) else (zone, files)
  }

  /** The records whose value's turn came and whose list did not show them. */
  ghost function Missed(records: seq<Txt>, journal: map<Pair, File>, entries: seq<Entry>, olderThanMs: int, now: int): set<Txt> {
    if entries == [] then {}
    else
      var front := entries[..|entries| - 1];
      var (zone, files) := AfterReap(records, journal, front, olderThanMs, now);
      Missed(records, journal, front, olderThanMs, now) +
      match entries[|entries| - 1]
      case Half(_) => {}
      case Json(pair) =>
        if pair in files && Expired(files[pair], olderThanMs, now)
        then set t | t in zone && t.pair == pair && t !in Shown(zone, pair) else {}
  }

  /** A reap leaves the records of the values that it does not reap, the ones its lists
      missed, and no others; of the files those that are not old or not listed. */
  lemma {:induction false} ReapLeaves(records: seq<Txt>, journal: map<Pair, File>, entries: seq<Entry>, olderThanMs: int, now: int)
    requires DistinctIds(records)
    ensures var (zone, files) := AfterReap(records, journal, entries, olderThanMs, now);
            var missed := Missed(records, journal, entries, olderThanMs, now);
            && DistinctIds(zone)
            && (forall p :: p in files <==> p in journal && !Reaps(p, journal, entries, olderThanMs, now))
            && (forall p :: p in files ==> files[p] == journal[p])
            && (forall t :: t in missed ==> t in records && Reaps(t.pair, journal, entries, olderThanMs, now))
            && (forall t :: t in zone <==> (t in records && !Reaps(t.pair, journal, entries, olderThanMs, now)) || t in missed)
  {
    hide DistinctIds, Shown, DeletedAll;
    if entries != [] {
      var front, last := entries[..|entries| - 1], entries[|entries| - 1];
      assert entries == front + [last];
      ReapLeaves(records, journal, front, olderThanMs, now);
      var (zone, files) := AfterReap(records, journal, front, olderThanMs, now);
      if last.Json? && last.pair in files && Expired(files[last.pair], olderThanMs, now) {
        DeletedLeaves(zone, last.pair);
        ShownMembers(zone, last.pair);
      }
    }
  }

  /** So a reap is exact if and only if its lists miss nothing, and loses no record's file
      if and only if they miss nothing that was made here. */
  lemma ReapIff(records: seq<Txt>, ours: set<nat>, journal: map<Pair, File>, entries: seq<Entry>, olderThanMs: int, now: int)
    requires DistinctIds(records) && Journalled(records, ours, journal)
    ensures var (zone, files) := AfterReap(records, journal, entries, olderThanMs, now);
            var missed := Missed(records, journal, entries, olderThanMs, now);
            && ((forall t :: t in zone <==> t in records && !Reaps(t.pair, journal, entries, olderThanMs, now)) <==> missed == {})
            && (Journalled(zone, ours, files) <==> forall t :: t in missed ==> t.id !in ours)
  {
    hide AfterReap, Missed, DistinctIds;
    ReapLeaves(records, journal, entries, olderThanMs, now);
    var (zone, files) := AfterReap(records, journal, entries, olderThanMs, now);
    var missed := Missed(records, journal, entries, olderThanMs, now);
    forall t | t in missed ensures t in zone && !Named(t, files) {}
    if t :| t in missed {
      assert t in zone && Reaps(t.pair, journal, entries, olderThanMs, now);
    }
  }

  /** Which they do not while each name's records fit the page. */
  lemma {:induction false} FittingNamesMissNone(records: seq<Txt>, journal: map<Pair, File>, entries: seq<Entry>, olderThanMs: int, now: int)
    requires forall p :: Json(p) in entries ==> |AtName(records, p.name)| <= PAGE
    ensures Missed(records, journal, entries, olderThanMs, now) == {}
  {
    if entries != [] {
      var front, last := entries[..|entries| - 1], entries[|entries| - 1];
      assert entries == front + [last];
      FittingNamesMissNone(records, journal, front, olderThanMs, now);
      if last.Json? {
        hide Shown;
        var zone := AfterReap(records, journal, front, olderThanMs, now).0;
        AtNameShrinks(records, journal, front, olderThanMs, now, last.pair.name);
        ShowsAllIff(zone, last.pair);
      }
    }
  }

  lemma {:induction false} AtNameShrinks(records: seq<Txt>, journal: map<Pair, File>, entries: seq<Entry>, olderThanMs: int, now: int, name: nat)
    ensures |AtName(AfterReap(records, journal, entries, olderThanMs, now).0, name)| <= |AtName(records, name)|
  {
    hide Shown;
    if entries != [] {
      var front, last := entries[..|entries| - 1], entries[|entries| - 1];
      AtNameShrinks(records, journal, front, olderThanMs, now, name);
      var zone := AfterReap(records, journal, front, olderThanMs, now).0;
      if last.Json? {
        DeletedAllById(zone, Shown(zone, last.pair));
        FewerAtName(zone, IdSet(Shown(zone, last.pair)), name);
      }
    }
  }

  lemma {:induction false} FewerAtName(records: seq<Txt>, ids: set<nat>, name: nat)
    ensures |AtName(WithoutIds(records, ids), name)| <= |AtName(records, name)|
  {
    if records != [] {
      FewerAtName(records[1..], ids, name);
      var rest := WithoutIds(records[1..], ids);
      assert ([records[0]] + rest)[1..] == rest && [] + rest == rest;
    }
  }

  /** What a reap counts; and the entries of the directory it reads. */
  datatype Reaped = Reaped(removed: nat, failed: nat, unreadable: nat)

  datatype Entry = Json(pair: Pair) | Half(pair: Pair)

  predicate Expired(f: File, olderThanMs: int, now: int) {
    f.Readable? && now - f.createdAt >= olderThanMs
  }

  predicate Reaps(p: Pair, journal: map<Pair, File>, entries: seq<Entry>, olderThanMs: int, now: int) {
    Json(p) in entries && p in journal && Expired(journal[p], olderThanMs, now)
  }

  /** A file is reaped when the directory lists it, it reads, and it is as old as asked. */
  lemma ReapsIff(p: Pair, journal: map<Pair, File>, entries: seq<Entry>, olderThanMs: int, now: int)
    requires p in journal && journal[p].Readable?
    ensures Reaps(p, journal, entries, olderThanMs, now) <==> Json(p) in entries && journal[p].createdAt + olderThanMs <= now
  {
  }

  lemma {:induction false} NotOfMembers(records: seq<Txt>, pair: Pair)
    ensures forall r :: r in NotOf(records, pair) <==> r in records && r.pair != pair
  {
    if records != [] {
      NotOfMembers(records[1..], pair);
      assert records == [records[0]] + records[1..];
    }
  }

  predicate HasId(records: seq<Txt>, id: nat) { exists r :: r in records && r.id == id }

  function IdSet(records: seq<Txt>): set<nat> { set r | r in records :: r.id }

  function WithoutIds(records: seq<Txt>, ids: set<nat>): seq<Txt> {
    if records == [] then []
    else (if records[0].id in ids then [] else [records[0]]) + WithoutIds(records[1..], ids)
  }

  lemma {:induction false} DeletedFrom(records: seq<Txt>, ids: set<nat>, id: nat)
    ensures Deleted(WithoutIds(records, ids), id) == WithoutIds(records, ids + {id})
  {
    if records != [] {
      DeletedFrom(records[1..], ids, id);
      var rest := WithoutIds(records[1..], ids);
      assert ([records[0]] + rest)[1..] == rest && [] + rest == rest;
    }
  }

  lemma {:induction false} NoIds(records: seq<Txt>)
    ensures WithoutIds(records, {}) == records
  {
    if records != [] { NoIds(records[1..]); }
  }

  lemma {:induction false} DeletedAllById(records: seq<Txt>, gone: seq<Txt>)
    ensures DeletedAll(records, gone) == WithoutIds(records, IdSet(gone))
  {
    if gone == [] {
      assert IdSet(gone) == {};
      NoIds(records);
    } else {
      var front, last := gone[..|gone| - 1], gone[|gone| - 1];
      DeletedAllById(records, front);
      DeletedFrom(records, IdSet(front), last.id);
      assert IdSet(gone) == IdSet(front) + {last.id} by { assert gone == front + [last]; }
    }
  }

  lemma {:induction false} WithoutPair(records: seq<Txt>, pair: Pair, ids: set<nat>)
    requires forall r :: r in records ==> (r.id in ids <==> r.pair == pair)
    ensures WithoutIds(records, ids) == NotOf(records, pair)
  {
    if records != [] {
      assert forall r :: r in records[1..] ==> r in records;
      WithoutPair(records[1..], pair, ids);
    }
  }

  lemma SameId(records: seq<Txt>, r: Txt)
    requires DistinctIds(records) && r in records
    ensures forall t :: t in records && t.id == r.id ==> t == r
  {
  }

  lemma NoneDeleted(records: seq<Txt>)
    ensures DeletedAll(records, []) == records
  {
  }

  lemma OneMoreDeleted(records: seq<Txt>, gone: seq<Txt>, k: nat)
    requires k < |gone|
    ensures DeletedAll(records, gone[..k + 1]) == Deleted(DeletedAll(records, gone[..k]), gone[k].id)
  {
    assert gone[..k + 1][..k] == gone[..k];
  }

  /** Deleting a part of them leaves the next one there. */
  lemma StillThere(records: seq<Txt>, existing: seq<Txt>, k: nat)
    requires DistinctIds(existing) && k < |existing| && existing[k] in records
    ensures HasId(DeletedAll(records, existing[..k]), existing[k].id)
  {
    var next := existing[k];
    DeletedAllById(records, existing[..k]);
    WithoutIdsMembers(records, IdSet(existing[..k]));
    assert next.id !in IdSet(existing[..k]);
    assert next in WithoutIds(records, IdSet(existing[..k]));
  }

  lemma {:induction false} WithoutIdsMembers(records: seq<Txt>, ids: set<nat>)
    ensures forall r :: r in WithoutIds(records, ids) <==> r in records && r.id !in ids
  {
    if records != [] {
      WithoutIdsMembers(records[1..], ids);
      assert records == [records[0]] + records[1..];
    }
  }

  lemma {:induction false} OfPairDistinct(records: seq<Txt>, pair: Pair)
    requires DistinctIds(records)
    ensures DistinctIds(OfPair(records, pair))
  {
    if records != [] {
      OfPairDistinct(records[1..], pair);
      OfPairMembers(records[1..], pair);
      var rest := OfPair(records[1..], pair);
      forall i | 0 <= i < |rest| ensures rest[i].id != records[0].id { assert rest[i] in records[1..]; }
    }
  }

  function Ids(records: seq<Txt>): seq<nat> { seq(|records|, i requires 0 <= i < |records| => records[i].id) }

  lemma AddedMembers(records: seq<Txt>, r: Txt)
    requires forall t :: t in records ==> t.id < r.id
    ensures forall t :: t in records + [r] <==> t in records || t == r
    ensures DistinctIds(records) ==> DistinctIds(records + [r])
  {
    forall i | 0 <= i < |records| ensures records[i].id < r.id { assert records[i] in records; }
  }

  lemma {:induction false} DeletedDistinct(records: seq<Txt>, id: nat)
    requires DistinctIds(records)
    ensures DistinctIds(Deleted(records, id))
  {
    if records != [] {
      DeletedDistinct(records[1..], id);
      var rest := Deleted(records[1..], id);
      forall i | 0 <= i < |rest| ensures rest[i].id != records[0].id {
        DeletedMembers(records[1..], id);
        assert rest[i] in records[1..];
      }
    }
  }
}
