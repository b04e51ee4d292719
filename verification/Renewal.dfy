/** The certificate service's one slot, and the cooldown that keeps one office's slow
    renewals from holding it. */
module Renewal {
  import opened Basics

  const FLOOR_MS := 20_000
  const FACTOR := 10

  datatype Hold = Hold(take: int, release: int)

  datatype Verdict = Cooldown | Busy | Taken

  /** Until when an office waits after a hold. */
  function Until(h: Hold): int { h.release + Max(FLOOR_MS, FACTOR * (h.release - h.take)) }

  function UntilOf(cooldowns: map<nat, int>, office: nat): int { if office in cooldowns then cooldowns[office] else 0 }

  // ------------------------------------------------------------------------ fairness

  /** An office's holds: each ends after it starts, and the next waits out its cooldown. */
  ghost predicate Spaced(holds: seq<Hold>) {
    && (forall i :: 0 <= i < |holds| ==> holds[i].take <= holds[i].release)
    && (forall i {:trigger Waits(holds, i)} :: 0 <= i < |holds| - 1 ==> Waits(holds, i))
  }

  ghost predicate Waits(holds: seq<Hold>, i: nat)
    requires i + 1 < |holds|
  {
    Until(holds[i]) <= holds[i + 1].take
  }

  /** The time that holds i to j, without the last, kept the slot. */
  function Kept(holds: seq<Hold>, i: nat, j: nat): int
    requires i <= j < |holds|
    decreases j
  {
    if i == j then 0 else Kept(holds, i, j - 1) + holds[j - 1].release - holds[j - 1].take
  }

  /** Over any consecutive holds of one office, eleven times the time they kept the slot,
      all but the last, fits between the first take and the last; and so does the floor
      after each. */
  lemma {:induction false} ElevenTimes(holds: seq<Hold>, i: nat, j: nat)
    requires Spaced(holds) && i <= j < |holds|
    ensures 11 * Kept(holds, i, j) <= holds[j].take - holds[i].take
    ensures Kept(holds, i, j) + FLOOR_MS * (j - i) <= holds[j].take - holds[i].take
    decreases j
  {
    if i < j {
      ElevenTimes(holds, i, j - 1);
      assert Waits(holds, j - 1);
    }
  }

  lemma OneMoreHold(holds: seq<Hold>, h: Hold)
    requires Spaced(holds) && h.take <= h.release
    requires holds != [] ==> Until(holds[|holds| - 1]) <= h.take
    ensures Spaced(holds + [h])
  {
    var next := holds + [h];
    forall i {:trigger Waits(next, i)} | 0 <= i < |next| - 1 ensures Waits(next, i) {
      if i < |holds| - 1 { assert Waits(holds, i); }
    }
  }

  // ------------------------------------------------------------------------- the slot

  function HoldsOf(holds: map<nat, seq<Hold>>, office: nat): seq<Hold> { if office in holds then holds[office] else [] }

  function StillOn(cooldowns: map<nat, int>, now: int): map<nat, int> {
    map id | id in cooldowns && cooldowns[id] > now :: cooldowns[id]
  }

  /** Who holds the slot, and since when: an office, or a reap. */
  datatype Holder = Free | ByOffice(office: nat, since: int) | ByReap

  /** The office's holds are spaced, its cooldown is that of its last one, and a cooldown
      that was dropped is over. */
  ghost predicate OfficeSound(done: seq<Hold>, until: int, kept: map<nat, int>, office: nat, clock: int) {
    && Spaced(done)
    && until == (if done == [] then 0 else Until(done[|done| - 1]))
    && (if office in kept then kept[office] == until else until <= clock)
  }

  lemma LastUntil(done: seq<Hold>, until: int, kept: map<nat, int>, office: nat, clock: int)
    requires OfficeSound(done, until, kept, office, clock)
    ensures Spaced(done) && (done != [] ==> until == Until(done[|done| - 1]))
  {
  }

  /** What a release makes of every office's. */
  lemma OfficeReleased(
    done: map<nat, seq<Hold>>, untils: map<nat, int>, cooldowns: map<nat, int>, office: nat, h: Hold, now: int, other: nat)
    requires OfficeSound(HoldsOf(done, other), UntilOf(untils, other), cooldowns, other, now)
    requires Spaced(HoldsOf(done, office) + [h])
    ensures OfficeSound(HoldsOf(done[office := HoldsOf(done, office) + [h]], other), UntilOf(untils[office := Until(h)], other),
                        StillOn(cooldowns, now)[office := Until(h)], other, now)
  {
    hide Spaced;
  }

  class CertificateService {
    var busy: bool
    var cooldownUntil: map<nat, int>
    ghost var holder: Holder
    ghost var clock: int
    /** Every hold ever, and every cooldown as last set, never pruned. */
    ghost var holds: map<nat, seq<Hold>>
    ghost var unpruned: map<nat, int>

    ghost predicate Valid()
      reads this
    {
      && clock >= 0 && busy == !holder.Free?
      && (holder.ByOffice? ==> 0 <= holder.since <= clock && UntilOf(unpruned, holder.office) <= holder.since)
      && (forall office: nat :: OfficeSound(HoldsOf(holds, office), UntilOf(unpruned, office), cooldownUntil, office, clock))
    }

    constructor (now: int)
      requires now >= 0
      ensures Valid() && !busy && cooldownUntil == map[] && clock == now
    {
      busy, cooldownUntil, holder, clock, holds, unpruned := false, map[], Free, now, map[], map[];
    }

    lemma SoundLater(now: int)
      requires Valid() && clock <= now
      ensures forall office: nat :: OfficeSound(HoldsOf(holds, office), UntilOf(unpruned, office), cooldownUntil, office, now)
    {
      forall office: nat ensures OfficeSound(HoldsOf(holds, office), UntilOf(unpruned, office), cooldownUntil, office, now) {
        assert OfficeSound(HoldsOf(holds, office), UntilOf(unpruned, office), cooldownUntil, office, clock);
      }
    }

    /** A renewal asks for the slot. The verdict is the one that no pruning would give. */
    method Take(office: nat, now: int) returns (verdict: Verdict)
      requires Valid() && clock <= now
      modifies this`busy, this`holder, this`clock
      ensures Valid() && clock == now
      ensures verdict == if now < UntilOf(unpruned, office) then Cooldown else if old(busy) then Busy else Taken
      ensures verdict == Cooldown <==>
                HoldsOf(holds, office) != []
                && var last := HoldsOf(holds, office)[|HoldsOf(holds, office)| - 1];
                   now - last.release < (if 10 * (last.release - last.take) > 20_000 then 10 * (last.release - last.take) else 20_000)
      ensures holder == if verdict == Taken then ByOffice(office, now) else old(holder)
      ensures verdict == Taken ==> old(holder) == Free
    {
      SoundLater(now);
      assert OfficeSound(HoldsOf(holds, office), UntilOf(unpruned, office), cooldownUntil, office, now);
      clock := now;
      if now < UntilOf(cooldownUntil, office) { return Cooldown; }
      if busy { return Busy; }
      busy, holder := true, ByOffice(office, now);
      verdict := Taken;
    }

    /** Drops the cooldowns that are over. */
    method Prune(now: int)
      modifies this`cooldownUntil
      ensures cooldownUntil == StillOn(old(cooldownUntil), now)
    {
      var left := cooldownUntil.Keys;
      ghost var all := cooldownUntil;
      while left != {}
        invariant left <= cooldownUntil.Keys <= all.Keys
        invariant forall id :: id in all ==> (id in cooldownUntil <==> id in left || all[id] > now)
        invariant forall id :: id in cooldownUntil ==> cooldownUntil[id] == all[id]
        decreases |left|
      {
        var id :| id in left;
        left := left - {id};
        if cooldownUntil[id] <= now { cooldownUntil := cooldownUntil - {id}; }
      }
    }

    /** The end of a renewal, however it went: expired cooldowns are dropped, its own is
        set, and the slot is free. */
    method Release(office: nat, takenAt: int, now: int)
      requires Valid() && clock <= now && holder == ByOffice(office, takenAt)
      modifies this
      ensures Valid() && clock == now && !busy && holder == Free
      ensures holds == old(holds)[office := HoldsOf(old(holds), office) + [Hold(takenAt, now)]]
      ensures cooldownUntil == StillOn(old(cooldownUntil), now)[office := Until(Hold(takenAt, now))]
      ensures office in cooldownUntil
              && cooldownUntil[office] == now + if 10 * (now - takenAt) > 20_000 then 10 * (now - takenAt) else 20_000
    {
      hide OfficeSound, Spaced;
      ghost var h := Hold(takenAt, now);
      SoundLater(now);
      assert OfficeSound(HoldsOf(holds, office), UntilOf(unpruned, office), cooldownUntil, office, clock);
      LastUntil(HoldsOf(holds, office), UntilOf(unpruned, office), cooldownUntil, office, clock);
      ghost var cooldowns, done, untils := cooldownUntil, holds, unpruned;
      Prune(now);
      cooldownUntil := cooldownUntil[office := now + Max(FLOOR_MS, FACTOR * (now - takenAt))];
      OneMoreHold(HoldsOf(holds, office), h);
      unpruned, holds := unpruned[office := Until(h)], holds[office := HoldsOf(holds, office) + [h]];
      busy, holder, clock := false, Free, now;
      forall other: nat ensures OfficeSound(HoldsOf(holds, other), UntilOf(unpruned, other), cooldownUntil, other, clock) {
        OfficeReleased(done, untils, cooldowns, office, h, now, other);
      }
    }

    /** A reap of its own takes the slot only when it is free. */
    method TakeReap(now: int) returns (taken: bool)
      requires Valid() && clock <= now
      modifies this`busy, this`holder, this`clock
      ensures Valid() && clock == now && taken == !old(busy)
      ensures holder == if taken then ByReap else old(holder)
    {
      SoundLater(now);
      clock := now;
      if busy { return false; }
      busy, holder := true, ByReap;
      taken := true;
    }

    method ReleaseReap(now: int)
      requires Valid() && clock <= now && holder.ByReap?
      modifies this`busy, this`holder, this`clock
      ensures Valid() && clock == now && !busy && holder == Free
    {
      SoundLater(now);
      busy, holder, clock := false, Free, now;
    }

    /** At every point of every run: one office's holds leave the others ten parts of
        the time in eleven. */
    lemma Fair(office: nat, i: nat, j: nat)
      requires Valid() && i <= j < |HoldsOf(holds, office)|
      ensures var done := HoldsOf(holds, office);
              11 * Kept(done, i, j) <= done[j].take - done[i].take
    {
      assert OfficeSound(HoldsOf(holds, office), UntilOf(unpruned, office), cooldownUntil, office, clock);
      ElevenTimes(HoldsOf(holds, office), i, j);
    }
  }
}
