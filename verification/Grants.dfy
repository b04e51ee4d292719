/** The grants of one extension worker: their phases, the tabs they own, and the offers
    that it sends again after a connection loss. Each method is what runs between two
    awaits; between them any other may run. */
module Grants {
  import opened Basics

  datatype Phase = Offering | On | Revoking

  /** Offered from the popup, sent again, or opened by an agent. */
  datatype Kind = Asked | Resuming | Opening

  /** A grant: its browser tab once it has one, and the tabs of its popups. `attached`:
      the open that it is of has succeeded. */
  datatype Grant = Grant(
    tab: Option<nat>, phase: Phase, kind: Kind, byAgent: bool, pinned: bool, popups: set<nat>, attached: bool)

  /** What is kept of an offer to send it again. */
  datatype Entry = Entry(tab: nat, byAgent: bool, pinned: bool)

  /** `ready`: there is a connection, and the office has said so. `offers` wait for the
      office's answer; `accepted` are popup offers it took that have not gone on yet. */
  datatype State = State(
    ready: bool, resumes: bool, tabs: map<nat, Grant>, offers: set<nat>, accepted: set<nat>, resumable: map<nat, Entry>)

  predicate OwnsTab(g: Grant, tab: nat) { g.tab == Some(tab) || tab in g.popups }

  predicate Taken(tabs: map<nat, Grant>, tab: nat) {
    exists id :: id in tabs && OwnsTab(tabs[id], tab)
  }

  // ------------------------------------------------------------------- what must hold

  /** No browser tab belongs to two grants, or twice to one. */
  ghost predicate Apart(tabs: map<nat, Grant>) {
    && (forall a, b, t :: a in tabs && b in tabs && OwnsTab(tabs[a], t) && OwnsTab(tabs[b], t) ==> a == b)
    && (forall a :: a in tabs && tabs[a].tab.Some? ==> tabs[a].tab.value !in tabs[a].popups)
  }

  /** Two entries are never of one tab. */
  ghost predicate EntriesApart(resumable: map<nat, Entry>) {
    forall a, b :: a in resumable && b in resumable && resumable[a].tab == resumable[b].tab ==> a == b
  }

  /** The entry is a live grant, with the same tab, and of an agent if that is. */
  ghost predicate LiveEntry(s: State, id: nat) {
    id in s.resumable ==>
      && id in s.tabs && s.tabs[id].tab == Some(s.resumable[id].tab) && s.resumable[id].byAgent == s.tabs[id].byAgent
      && (s.tabs[id].phase == On || (s.tabs[id].phase == Offering && s.tabs[id].kind == Resuming))
  }

  /** A grant that is ON has its tab, and only an offering one waits for an answer. */
  ghost predicate SoundGrant(s: State, id: nat) {
    && (id in s.tabs && (s.tabs[id].phase == On || s.tabs[id].kind != Opening || s.tabs[id].attached) ==> s.tabs[id].tab.Some?)
    && (id in s.tabs && s.tabs[id].phase == On && s.tabs[id].kind == Opening ==> s.tabs[id].attached)
    && (id in s.offers ==> id in s.tabs && s.tabs[id].phase == Offering && id !in s.accepted)
    && (id in s.accepted && id in s.tabs ==> s.tabs[id].kind == Asked && s.tabs[id].phase != On)
  }

  /** An ended offer is not kept, and can never be ON again. */
  ghost predicate StaysEnded(s: State, id: nat) {
    && id !in s.resumable
    && (id in s.tabs ==>
          s.tabs[id].phase == Revoking || (s.tabs[id].phase == Offering && id !in s.offers && id !in s.accepted))
  }

  ghost predicate Sound(s: State, ended: set<nat>, used: set<nat>) {
    && Apart(s.tabs) && EntriesApart(s.resumable)
    && (forall id: nat :: SoundGrant(s, id))
    && (forall id :: id in ended ==> StaysEnded(s, id))
    && (if s.ready then forall id: nat :: LiveEntry(s, id) else s.tabs == map[] && s.offers == {} && s.accepted == {})
    && s.tabs.Keys + s.resumable.Keys + s.accepted + ended <= used
  }

  function Rank(p: Phase): nat { match p case Offering => 0 case On => 1 case Revoking => 2 }

  /** The grants of one connection only go offering, on, revoking, and keep their tab. */
  ghost predicate Forward(before: map<nat, Grant>, after: map<nat, Grant>) {
    forall id :: id in before && id in after ==>
      Rank(before[id].phase) <= Rank(after[id].phase) && (before[id].tab.Some? ==> after[id].tab == before[id].tab)
  }

  // --------------------------------------------------------------------- one grant moved

  /** A grant that owns no more than before, but for a tab that no grant had. */
  lemma ApartMoved(tabs: map<nat, Grant>, id: nat, g: Grant)
    requires Apart(tabs)
    requires forall t :: OwnsTab(g, t) ==> (id in tabs && OwnsTab(tabs[id], t)) || !Taken(tabs, t)
    requires g.tab.Some? ==> g.tab.value !in g.popups
    ensures Apart(tabs[id := g])
  {
    var next := tabs[id := g];
    forall a, b, t | a in next && b in next && OwnsTab(next[a], t) && OwnsTab(next[b], t) ensures a == b {
      assert a in tabs && a != id ==> OwnsTab(tabs[a], t);
      assert b in tabs && b != id ==> OwnsTab(tabs[b], t);
    }
  }

  lemma ApartLess(tabs: map<nat, Grant>, id: nat)
    requires Apart(tabs)
    ensures Apart(tabs - {id})
  {
    var next := tabs - {id};
    forall a, b, t | a in next && b in next && OwnsTab(next[a], t) && OwnsTab(next[b], t) ensures a == b {
      assert OwnsTab(tabs[a], t) && OwnsTab(tabs[b], t);
    }
  }

  lemma EntriesOfLiveApart(s: State)
    requires Apart(s.tabs) && forall id: nat :: LiveEntry(s, id)
    ensures EntriesApart(s.resumable)
  {
    forall a, b | a in s.resumable && b in s.resumable && s.resumable[a].tab == s.resumable[b].tab ensures a == b {
      assert LiveEntry(s, a) && LiveEntry(s, b);
      assert OwnsTab(s.tabs[a], s.resumable[a].tab) && OwnsTab(s.tabs[b], s.resumable[a].tab);
    }
  }

  /** While connected: a step that touches one grant and one entry keeps all sound if it
      keeps these sound. */
  lemma OneMoved(s: State, t: State, id: nat, ended: set<nat>, ended': set<nat>, used: set<nat>, used': set<nat>)
    requires Sound(s, ended, used) && s.ready && t.ready && used' == used + {id} && ended <= ended' <= ended + {id}
    requires Apart(t.tabs)
    requires forall j: nat :: j != id ==>
               && (j in t.tabs <==> j in s.tabs) && (j in t.tabs && j in s.tabs ==> t.tabs[j] == s.tabs[j])
               && (j in t.offers <==> j in s.offers) && (j in t.accepted <==> j in s.accepted)
               && (j in t.resumable <==> j in s.resumable) && (j in t.resumable && j in s.resumable ==> t.resumable[j] == s.resumable[j])
    requires SoundGrant(t, id) && LiveEntry(t, id) && (id in ended' ==> StaysEnded(t, id))
    ensures Sound(t, ended', used')
  {
    hide Apart;
    forall j: nat ensures SoundGrant(t, j) && LiveEntry(t, j) {
      assert SoundGrant(s, j) && LiveEntry(s, j);
    }
    forall j | j in ended' ensures StaysEnded(t, j) {
      if j != id { assert StaysEnded(s, j); }
    }
    EntriesOfLiveApart(t);
  }

  lemma Parts(s: State, ended: set<nat>, used: set<nat>, id: nat)
    requires Sound(s, ended, used)
    ensures Apart(s.tabs) && SoundGrant(s, id) && (s.ready ==> LiveEntry(s, id)) && (id in ended ==> StaysEnded(s, id))
    ensures id in s.tabs || id in s.resumable || id in s.accepted || id in ended ==> id in used
    ensures id in s.tabs && s.tabs[id].tab.Some? ==> s.tabs[id].tab.value !in s.tabs[id].popups
  {
  }

  /** `remember`: an office that resumes offers, and a pin unless an agent opened it. */
  function Remembered(s: State, id: nat, g: Grant): map<nat, Entry>
    requires g.tab.Some?
  {
    if !s.resumes || (!g.byAgent && !g.pinned) then s.resumable
    else s.resumable[id := Entry(g.tab.value, g.byAgent, g.pinned)]
  }

  function Pinned(g: Grant, pinned: bool): Grant { g.(pinned := g.pinned || pinned) }

  /** The grant goes ON, and its entry is kept. */
  function NowOn(s: State, id: nat, g: Grant): State
    requires g.tab.Some?
  {
    s.(tabs := s.tabs[id := g.(phase := On)], resumable := Remembered(s, id, g))
  }

  lemma TurnsOn(s: State, ended: set<nat>, used: set<nat>, id: nat, g: Grant)
    requires Sound(s, ended, used) && s.ready && (id in s.offers || id in s.accepted)
    requires id in s.tabs && s.tabs[id].phase == Offering && g.tab.Some? && g == s.tabs[id].(pinned := g.pinned)
    requires g.kind == Opening ==> g.attached
    ensures var t := NowOn(s.(offers := s.offers - {id}, accepted := s.accepted - {id}), id, g);
            && Apart(t.tabs) && SoundGrant(t, id) && LiveEntry(t, id) && id !in ended
            && t.tabs - {id} == s.tabs - {id} && t.resumable - {id} == s.resumable - {id}
            && Forward(s.tabs, t.tabs) && t.ready && t.resumes == s.resumes
            && t.offers == s.offers - {id} && t.accepted == s.accepted - {id}
  {
    hide Sound, Apart;
    Parts(s, ended, used, id);
    ApartMoved(s.tabs, id, g.(phase := On));
  }

  // --------------------------------------------------------------- the session storage

  /** A list that may come back: entries of different tabs, with ids once made. */
  ghost predicate Fine(list: map<nat, Entry>, used: set<nat>) { EntriesApart(list) && list.Keys <= used }

  ghost predicate Pending(stored: map<nat, Entry>, writes: seq<map<nat, Entry>>, used: set<nat>) {
    Fine(stored, used) && forall k :: 0 <= k < |writes| ==> Fine(writes[k], used)
  }

  /** What is stored, then each list under way. */
  function Lists(stored: map<nat, Entry>, writes: seq<map<nat, Entry>>): seq<map<nat, Entry>> { [stored] + writes }

  /** A changed list is written. */
  function Queue(writes: seq<map<nat, Entry>>, before: map<nat, Entry>, after: map<nat, Entry>): seq<map<nat, Entry>> {
    if after == before then writes else writes + [after]
  }

  /** Write `k` takes the id's entry away, or brings it. */
  predicate Drops(lists: seq<map<nat, Entry>>, k: nat, id: nat) { k + 1 < |lists| && id in lists[k] && id !in lists[k + 1] }

  predicate Adds(lists: seq<map<nat, Entry>>, k: nat, id: nat) { k + 1 < |lists| && id !in lists[k] && id in lists[k + 1] }

  /** Of the writes under way, the first that changes the id's entry takes it away. */
  ghost predicate EndPending(lists: seq<map<nat, Entry>>, id: nat) {
    exists k: nat :: Drops(lists, k, id) && forall j: nat :: j < k ==> !Adds(lists, j, id)
  }

  /** An entry that is no longer kept is still stored exactly when its end is still to be
      written. */
  lemma StoredIffEndPending(lists: seq<map<nat, Entry>>, id: nat)
    requires lists != [] && id !in lists[|lists| - 1]
    ensures id in lists[0] <==> EndPending(lists, id)
  {
    if id in lists[0] {
      FirstDrop(lists, 0, id);
    } else if EndPending(lists, id) {
      var k: nat :| Drops(lists, k, id) && forall j: nat :: j < k ==> !Adds(lists, j, id);
      NeverAdded(lists, k, id);
    }
  }

  lemma {:induction false} FirstDrop(lists: seq<map<nat, Entry>>, n: nat, id: nat)
    requires n < |lists| && id !in lists[|lists| - 1]
    requires forall j: nat :: j <= n ==> id in lists[j]
    ensures EndPending(lists, id)
    decreases |lists| - n
  {
    if id in lists[n + 1] { FirstDrop(lists, n + 1, id); } else { assert Drops(lists, n, id); }
  }

  lemma {:induction false} NeverAdded(lists: seq<map<nat, Entry>>, k: nat, id: nat)
    requires k < |lists| && id !in lists[0]
    requires forall j: nat :: j < k ==> !Adds(lists, j, id)
    ensures id !in lists[k]
  {
    if k > 0 {
      NeverAdded(lists, k - 1, id);
      assert !Adds(lists, k - 1, id);
    }
  }

  lemma PendingGrows(s: State, ended: set<nat>, used: set<nat>, stored: map<nat, Entry>, writes: seq<map<nat, Entry>>)
    requires Sound(s, ended, used) && Pending(stored, writes, used)
    ensures Pending(stored, writes + [s.resumable], used)
  {
    hide Apart, EntriesApart, SoundGrant, LiveEntry, StaysEnded;
    assert Fine(s.resumable, used);
  }

  lemma MoreUsed(stored: map<nat, Entry>, writes: seq<map<nat, Entry>>, used: set<nat>, id: nat)
    requires Pending(stored, writes, used)
    ensures Pending(stored, writes, used + {id})
  {
    hide EntriesApart;
    forall k | 0 <= k < |writes| ensures Fine(writes[k], used + {id}) { assert Fine(writes[k], used); }
  }

  // ------------------------------------------------------------------------ every run

  /** What can happen between two awaits; nothing does when it cannot. */
  datatype Step =
    | Asks(id: nat, tab: nat) | Opens(id: nat) | GetsTab(id: nat, tab: nat) | OpenGoes(id: nat) | OpenFails(id: nat)
    | Takes(id: nat, pinned: bool) | AwaitEnds(id: nat) | Refuses(id: nat) | Revokes(id: nat) | Detaches(id: nat)
    | PopupComes(id: nat, tab: nat) | PopupsGo(id: nat, gone: set<nat>)
    | Loses(terminal: bool, order: seq<nat>) | Connects(takesOffers: bool, allowed: set<nat>)
    | StopsAway(id: nat) | Forgets | Writes | Restarts

  /** The offer that a step ends: by Off, by a revoke or by a refusal. */
  function Ends(step: Step, s: State): set<nat> {
    match step
    case AwaitEnds(id) => if s.ready && id in s.accepted && id in s.tabs && s.tabs[id].phase != Offering then {id} else {}
    case Refuses(id) => if s.ready && id in s.offers then {id} else {}
    case Revokes(id) => if s.ready && id in s.tabs then {id} else {}
    case StopsAway(id) => if id in s.resumable && id !in s.tabs then {id} else {}
    case _ => {}
  }

  /** The offers that a step sends again. */
  function SendsAgain(step: Step, s: State): set<nat> {
    match step
    case Connects(takesOffers, allowed) =>
      if !s.ready && takesOffers then set id | id in s.resumable && (s.resumable[id].byAgent ==> id in allowed) else {}
    case _ => {}
  }

  /** It ends or begins a connection. */
  predicate Switches(step: Step) { step.Loses? || step.Connects? || step.Restarts? }

  /** One step of a run: the states, the lists before it and the ids made by then, the
      offers it sent again, the ended ones that it brought back, and those ended by then. */
  datatype Event = Event(
    step: Step, before: State, after: State, lists: seq<map<nat, Entry>>, used: set<nat>, used': set<nat>,
    sent: set<nat>, back: set<nat>, ended: set<nat>)

  ghost predicate Follows(was: set<nat>, e: Event) {
    && e.sent == SendsAgain(e.step, e.before) && e.sent !! was
    && e.back == (if e.step.Restarts? then set id | id in was && EndPending(e.lists, id) else {})
    && e.ended == was - e.back + Ends(e.step, e.before)
    && (!Switches(e.step) ==> Moves(e.before.tabs, e.after.tabs, e.used, e.used'))
  }

  /** On one connection: the grants go forward, keep their tab, and a new one has a new
      id. */
  ghost predicate Moves(before: map<nat, Grant>, after: map<nat, Grant>, used: set<nat>, used': set<nat>) {
    && Forward(before, after) && used <= used' && before.Keys <= used && after.Keys <= used'
    && forall id :: id in after && id !in before ==> id !in used
  }

  ghost predicate Recorded(start: set<nat>, log: seq<Event>) {
    AllFollow(start, log) && Chained(log)
  }

  ghost predicate AllFollow(start: set<nat>, log: seq<Event>) {
    forall i :: 0 <= i < |log| ==> Follows(EndedBefore(start, log, i), log[i])
  }

  ghost predicate Chained(log: seq<Event>) {
    forall i :: 0 < i < |log| ==> log[i].before == log[i - 1].after && log[i].used == log[i - 1].used'
  }

  ghost function EndedBefore(start: set<nat>, log: seq<Event>, i: nat): set<nat>
    requires i <= |log|
  {
    if i == 0 then start else log[i - 1].ended
  }

  /** In every run: an offer ended at one step is sent at no later one, on whichever
      connection, unless a restart between them brought it back, with its end unwritten. */
  lemma {:induction false} NeverSentAgain(start: set<nat>, log: seq<Event>, i: nat, j: nat, id: nat)
    requires Recorded(start, log) && i < j < |log| && id in Ends(log[i].step, log[i].before)
    requires forall k :: i < k < j && log[k].step.Restarts? ==> !EndPending(log[k].lists, id)
    ensures id !in SendsAgain(log[j].step, log[j].before) && id in log[j - 1].ended
    decreases j
  {
    hide Ends, SendsAgain, EndPending, Follows, Chained;
    assert Follows(EndedBefore(start, log, j - 1), log[j - 1]) && Follows(EndedBefore(start, log, j), log[j]);
    if j - 1 > i {
      NeverSentAgain(start, log, i, j - 1, id);
      StaysOut(log[j - 2].ended, log[j - 1], id);
    } else {
      EndsNow(EndedBefore(start, log, i), log[i], id);
    }
    NotSent(log[j - 1].ended, log[j], id);
  }

  /** Over any stretch of one connection: a grant that is there at both ends was there
      throughout, only went from offering to on to revoking, and has kept its tab. */
  lemma {:induction false} OnlyForward(start: set<nat>, log: seq<Event>, i: nat, j: nat, id: nat)
    requires Recorded(start, log) && i <= j < |log|
    requires forall k :: i <= k <= j ==> !Switches(log[k].step)
    requires id in log[i].before.tabs && id in log[j].after.tabs
    ensures var g, h := log[i].before.tabs[id], log[j].after.tabs[id];
            Rank(g.phase) <= Rank(h.phase) && (g.tab.Some? ==> h.tab == g.tab)
    ensures forall k :: i <= k <= j ==> id in log[k].before.tabs
    decreases j
  {
    hide Ends, SendsAgain, EndPending;
    StepMoves(start, log, j);
    StepMoves(start, log, i);
    if i < j {
      UsedStays(start, log, i, j, id);
      OnlyForward(start, log, i, j - 1, id);
    }
  }

  lemma StepMoves(start: set<nat>, log: seq<Event>, k: nat)
    requires Recorded(start, log) && k < |log| && !Switches(log[k].step)
    ensures Moves(log[k].before.tabs, log[k].after.tabs, log[k].used, log[k].used')
    ensures k > 0 ==> log[k].before == log[k - 1].after && log[k].used == log[k - 1].used'
  {
    hide Ends, SendsAgain, EndPending, Moves;
    assert Follows(EndedBefore(start, log, k), log[k]);
  }

  lemma {:induction false} UsedStays(start: set<nat>, log: seq<Event>, i: nat, j: nat, id: nat)
    requires Recorded(start, log) && i <= j < |log| && id in log[i].before.tabs
    requires forall k :: i <= k <= j ==> !Switches(log[k].step)
    ensures id in log[j].used
    decreases j
  {
    hide Follows;
    StepMoves(start, log, j);
    if i < j {
      UsedStays(start, log, i, j - 1, id);
      StepMoves(start, log, j - 1);
    }
  }

  lemma NoRecord(start: set<nat>)
    ensures Recorded(start, []) && EndedBefore(start, [], 0) == start
  {
  }

  lemma RecordGrows(start: set<nat>, log: seq<Event>, e: Event)
    requires Recorded(start, log) && Follows(EndedBefore(start, log, |log|), e)
    requires log != [] ==> e.before == log[|log| - 1].after && e.used == log[|log| - 1].used'
    ensures Recorded(start, log + [e]) && EndedBefore(start, log + [e], |log| + 1) == e.ended
  {
    hide Follows, AllFollow, Chained;
    AllFollowGrows(start, log, e);
    ChainedGrows(log, e);
  }

  lemma AllFollowGrows(start: set<nat>, log: seq<Event>, e: Event)
    requires AllFollow(start, log) && Follows(EndedBefore(start, log, |log|), e)
    ensures AllFollow(start, log + [e]) && EndedBefore(start, log + [e], |log| + 1) == e.ended
  {
    hide Follows;
    forall i | 0 <= i < |log| + 1 ensures Follows(EndedBefore(start, log + [e], i), (log + [e])[i]) {
      assert EndedBefore(start, log + [e], i) == EndedBefore(start, log, i);
    }
  }

  lemma ChainedGrows(log: seq<Event>, e: Event)
    requires Chained(log) && (log != [] ==> e.before == log[|log| - 1].after && e.used == log[|log| - 1].used')
    ensures Chained(log + [e])
  {
  }

  lemma StaysOut(was: set<nat>, e: Event, id: nat)
    requires Follows(was, e) && id in was && (e.step.Restarts? ==> !EndPending(e.lists, id))
    ensures id in e.ended
  {
    hide EndPending;
  }

  lemma EndsNow(was: set<nat>, e: Event, id: nat)
    requires Follows(was, e) && id in Ends(e.step, e.before)
    ensures id in e.ended
  {
    hide EndPending, Ends, SendsAgain;
  }

  lemma NotSent(was: set<nat>, e: Event, id: nat)
    requires Follows(was, e) && id in was
    ensures id !in SendsAgain(e.step, e.before)
  {
    hide EndPending, Ends, SendsAgain;
  }

  class Worker {
    var s: State
    /** The session storage: as last written, and the writes under way. */
    var stored: map<nat, Entry>
    var writes: seq<map<nat, Entry>>
    /** Offers ended by Off, by a revoke or by a refusal. */
    ghost var ended: set<nat>
    /** Every id that was ever made; a new one is none of these. */
    var used: set<nat>

    ghost predicate Valid()
      reads this
    {
      Sound(s, ended, used) && Pending(stored, writes, used) && Lists(stored, writes)[|writes|] == s.resumable
    }

    constructor ()
      ensures Valid() && s == State(false, false, map[], {}, {}, map[]) && ended == {} && used == {}
      ensures stored == map[] && writes == []
    {
      s, stored, writes := State(false, false, map[], {}, {}, map[]), map[], [];
      ended, used := {}, {};
    }

    /** Replaces the state, and has a changed list written. */
    method Become(t: State)
      requires Sound(t, ended, used) && Pending(stored, writes, used) && Lists(stored, writes)[|writes|] == s.resumable
      modifies this`s, this`writes
      ensures Valid() && s == t && writes == Queue(old(writes), old(s).resumable, s.resumable)
    {
      hide Sound, Pending;
      PendingGrows(t, ended, used, stored, writes);
      if t.resumable != s.resumable { writes := writes + [t.resumable]; }
      s := t;
    }

    /** The popup's offer, of a tab that no grant has. */
    method Offer(id: nat, tab: nat) returns (sent: bool)
      requires Valid() && s.ready && id !in used
      modifies this`s, this`writes, this`used
      ensures Valid() && Forward(old(s).tabs, s.tabs) && writes == Queue(old(writes), old(s).resumable, s.resumable)
      ensures sent <==> !Taken(old(s).tabs, tab)
      ensures used == if sent then old(used) + {id} else old(used)
      ensures s == if sent then old(s).(tabs := old(s).tabs[id := Grant(Some(tab), Offering, Asked, false, false, {}, false)],
                                        offers := old(s).offers + {id}) else old(s)
    {
      hide Sound, Apart, Pending;
      sent := !Taken(s.tabs, tab);
      if !sent { return; }
      Parts(s, ended, used, id);
      var g := Grant(Some(tab), Offering, Asked, false, false, {}, false);
      var t := s.(tabs := s.tabs[id := g], offers := s.offers + {id});
      ApartMoved(s.tabs, id, g);
      OneMoved(s, t, id, ended, ended, used, used + {id});
      MoreUsed(stored, writes, used, id);
      used := used + {id};
      Become(t);
    }

    /** The office opens a tab for an agent: a grant with no tab yet. */
    method OpenTab(id: nat)
      requires Valid() && s.ready && id !in used
      modifies this`s, this`writes, this`used
      ensures used == old(used) + {id}
      ensures Valid() && Forward(old(s).tabs, s.tabs) && writes == Queue(old(writes), old(s).resumable, s.resumable)
      ensures s == old(s).(tabs := old(s).tabs[id := Grant(None, Offering, Opening, true, false, {}, false)], offers := old(s).offers + {id})
    {
      hide Sound, Apart, Pending;
      Parts(s, ended, used, id);
      var g := Grant(None, Offering, Opening, true, false, {}, false);
      var t := s.(tabs := s.tabs[id := g], offers := s.offers + {id});
      ApartMoved(s.tabs, id, g);
      OneMoved(s, t, id, ended, ended, used, used + {id});
      MoreUsed(stored, writes, used, id);
      used := used + {id};
      Become(t);
    }

    /** One grant, or its entry, changed. */
    method Change(id: nat, t: State, ghost ends: bool)
      requires Valid() && s.ready && t.ready && t.resumes == s.resumes && id in used
      requires Apart(t.tabs) && SoundGrant(t, id) && LiveEntry(t, id) && (ends || id in ended ==> StaysEnded(t, id))
      requires t.tabs - {id} == s.tabs - {id} && t.resumable - {id} == s.resumable - {id}
      requires t.offers - {id} == s.offers - {id} && t.accepted - {id} == s.accepted - {id}
      modifies this`s, this`writes, this`ended
      ensures Valid() && s == t && ended == if ends then old(ended) + {id} else old(ended)
      ensures writes == Queue(old(writes), old(s).resumable, s.resumable)
    {
      hide Sound, Apart, Pending;
      OtherSame(s, t, id);
      assert used + {id} == used;
      ghost var now := if ends then ended + {id} else ended;
      OneMoved(s, t, id, ended, now, used, used);
      ended := now;
      Become(t);
    }

    /** The new tab is there, for a grant that still waits for it. */
    method TabOpened(id: nat, tab: nat)
      requires Valid() && id in s.tabs && s.tabs[id].tab == None && !Taken(s.tabs, tab)
      requires tab !in s.tabs[id].popups
      modifies this`s, this`writes, this`ended
      ensures Valid() && Forward(old(s).tabs, s.tabs) && ended == old(ended) && writes == Queue(old(writes), old(s).resumable, s.resumable)
      ensures s == old(s).(tabs := old(s).tabs[id := old(s).tabs[id].(tab := Some(tab))])
    {
      hide Sound, Apart, Pending;
      Parts(s, ended, used, id);
      OnlyWhenReady(s, ended, used, id);
      var g := s.tabs[id].(tab := Some(tab));
      ApartMoved(s.tabs, id, g);
      Change(id, s.(tabs := s.tabs[id := g]), false);
    }

    /** The open succeeds, if nothing ended it meanwhile. */
    method OpenDone(id: nat)
      requires Valid() && id in s.tabs && s.tabs[id].kind == Opening && s.tabs[id].phase == Offering && s.tabs[id].tab.Some?
      modifies this`s, this`writes, this`ended
      ensures Valid() && Forward(old(s).tabs, s.tabs) && ended == old(ended) && writes == Queue(old(writes), old(s).resumable, s.resumable)
      ensures s == old(s).(tabs := old(s).tabs[id := old(s).tabs[id].(attached := true)])
    {
      hide Sound, Apart, Pending;
      Parts(s, ended, used, id);
      OnlyWhenReady(s, ended, used, id);
      var g := s.tabs[id].(attached := true);
      ApartMoved(s.tabs, id, g);
      Change(id, s.(tabs := s.tabs[id := g]), false);
    }

    /** The open fails: its grant is gone, unless a revoke already ends it. */
    method OpenFailed(id: nat)
      requires Valid() && id in s.tabs && s.tabs[id].kind == Opening && !s.tabs[id].attached
      modifies this`s, this`writes, this`ended
      ensures Valid() && Forward(old(s).tabs, s.tabs) && ended == old(ended) && writes == Queue(old(writes), old(s).resumable, s.resumable)
      ensures s == if old(s).tabs[id].phase == Revoking then old(s)
                   else old(s).(tabs := old(s).tabs - {id}, offers := old(s).offers - {id})
      ensures old(s).tabs[id].phase != On && (old(s).tabs[id].phase == Offering ==> id !in old(s).resumable)
    {
      hide Sound, Apart, Pending;
      Parts(s, ended, used, id);
      OnlyWhenReady(s, ended, used, id);
      if s.tabs[id].phase == Revoking { return; }
      ApartLess(s.tabs, id);
      Change(id, s.(tabs := s.tabs - {id}, offers := s.offers - {id}), false);
    }

    /** The office takes an offer. A resumed offer or an opened tab is ON at once; the
        popup's own goes on after its await. The office answers an open once it has
        succeeded. */
    method Offered(id: nat, pinned: bool)
      requires Valid() && s.ready
      requires id in s.tabs && s.tabs[id].kind == Opening ==> s.tabs[id].attached
      modifies this`s, this`writes, this`ended
      ensures Valid() && Forward(old(s).tabs, s.tabs) && ended == old(ended) && writes == Queue(old(writes), old(s).resumable, s.resumable)
      ensures id in old(s).offers ==> id in old(s).tabs && (old(s).tabs[id].kind != Asked ==> old(s).tabs[id].tab.Some?)
      ensures s == if id !in old(s).offers then old(s)
                   else if old(s).tabs[id].kind == Asked
                   then old(s).(tabs := old(s).tabs[id := Pinned(old(s).tabs[id], pinned)],
                                offers := old(s).offers - {id}, accepted := old(s).accepted + {id})
                   else NowOn(old(s).(offers := old(s).offers - {id}), id, Pinned(old(s).tabs[id], pinned))
      ensures id in old(s).offers ==>
                var g := old(s).tabs[id];
                && s.tabs == old(s).tabs[id := g.(pinned := g.pinned || pinned, phase := if g.kind == Asked then Offering else On)]
                && s.resumable == if g.kind != Asked && s.resumes && (g.byAgent || g.pinned || pinned)
                                  then old(s).resumable[id := Entry(g.tab.value, g.byAgent, g.pinned || pinned)]
                                  else old(s).resumable
    {
      hide Sound, Apart, Pending;
      Parts(s, ended, used, id);
      if id !in s.offers { return; }
      var g := Pinned(s.tabs[id], pinned);
      if g.kind == Asked {
        ApartMoved(s.tabs, id, g);
        Change(id, s.(tabs := s.tabs[id := g], offers := s.offers - {id}, accepted := s.accepted + {id}), false);
        return;
      }
      TurnsOn(s, ended, used, id, g);
      assert s.accepted - {id} == s.accepted;
      Change(id, NowOn(s.(offers := s.offers - {id}), id, g), false);
    }

    /** The popup's offer goes on after its await, if nothing ended it meanwhile. */
    method GoesOn(id: nat)
      requires Valid() && s.ready && id in s.accepted
      modifies this`s, this`writes, this`ended
      ensures Valid() && Forward(old(s).tabs, s.tabs) && writes == Queue(old(writes), old(s).resumable, s.resumable)
      ensures id in old(s).tabs && old(s).tabs[id].phase == Offering ==> old(s).tabs[id].tab.Some?
      ensures s == if id in old(s).tabs && old(s).tabs[id].phase == Offering
                   then NowOn(old(s).(accepted := old(s).accepted - {id}), id, old(s).tabs[id])
                   else old(s).(accepted := old(s).accepted - {id})
      ensures id in old(s).tabs && old(s).tabs[id].phase == Offering ==>
                var g := old(s).tabs[id];
                && s.tabs == old(s).tabs[id := g.(phase := On)]
                && s.resumable == if s.resumes && (g.byAgent || g.pinned)
                                  then old(s).resumable[id := Entry(g.tab.value, g.byAgent, g.pinned)]
                                  else old(s).resumable
      ensures ended == if id in old(s).tabs && old(s).tabs[id].phase != Offering then old(ended) + {id} else old(ended)
    {
      hide Sound, Apart, Pending;
      Parts(s, ended, used, id);
      if id in s.tabs && s.tabs[id].phase == Offering {
        TurnsOn(s, ended, used, id, s.tabs[id]);
        assert s.offers - {id} == s.offers;
        Change(id, NowOn(s.(accepted := s.accepted - {id}), id, s.tabs[id]), false);
      } else {
        Change(id, s.(accepted := s.accepted - {id}), false);
        ghost var t := s;
        Revoke(id);
        assert s.tabs == t.tabs && s.offers == t.offers && s.resumable == t.resumable;
      }
    }

    /** The office refuses an offer: its entry goes now, its grant with the revoke that
        follows. */
    method OfferRefused(id: nat)
      requires Valid() && s.ready
      modifies this`s, this`writes, this`ended
      ensures Valid() && Forward(old(s).tabs, s.tabs) && writes == Queue(old(writes), old(s).resumable, s.resumable)
      ensures ended == if id in old(s).offers then old(ended) + {id} else old(ended)
      ensures id in old(s).offers ==> id in old(s).tabs
      ensures s == if id !in old(s).offers then old(s)
                   else old(s).(resumable := old(s).resumable - {id}, offers := old(s).offers - {id},
                                tabs := if old(s).tabs[id].kind != Opening then old(s).tabs
                                        else old(s).tabs[id := old(s).tabs[id].(phase := Revoking)])
    {
      hide Sound, Apart, Pending;
      Parts(s, ended, used, id);
      if id !in s.offers { return; }
      Change(id, s.(resumable := s.resumable - {id}, offers := s.offers - {id}), true);
      if s.tabs[id].kind == Opening {
        ghost var t := s;
        Revoke(id);
        assert s.offers == t.offers && s.resumable == t.resumable;
      }
    }

    /** Off, a detach by the office, a metadata mismatch, a refusal. */
    method Revoke(id: nat)
      requires Valid() && s.ready
      modifies this`s, this`writes, this`ended
      ensures Valid() && Forward(old(s).tabs, s.tabs) && writes == Queue(old(writes), old(s).resumable, s.resumable)
      ensures if id in old(s).tabs
              then ended == old(ended) + {id}
                   && s == old(s).(tabs := old(s).tabs[id := old(s).tabs[id].(phase := Revoking)], offers := old(s).offers - {id},
                                   resumable := old(s).resumable - {id})
              else s == old(s) && ended == old(ended)
    {
      hide Sound, Apart, Pending;
      Parts(s, ended, used, id);
      if id !in s.tabs { return; }
      var g := s.tabs[id].(phase := Revoking);
      ApartMoved(s.tabs, id, g);
      Change(id, s.(tabs := s.tabs[id := g], offers := s.offers - {id}, resumable := s.resumable - {id}), true);
    }

    /** The debugger is detached: the grant is gone. */
    method Released(id: nat)
      requires Valid() && id in s.tabs && s.tabs[id].phase == Revoking
      modifies this`s, this`writes, this`ended
      ensures Valid() && Forward(old(s).tabs, s.tabs) && s == old(s).(tabs := old(s).tabs - {id})
      ensures ended == old(ended) && writes == Queue(old(writes), old(s).resumable, s.resumable)
    {
      hide Sound, Apart, Pending;
      Parts(s, ended, used, id);
      OnlyWhenReady(s, ended, used, id);
      ApartLess(s.tabs, id);
      Change(id, s.(tabs := s.tabs - {id}), false);
    }

    /** A popup of a grant that is ON, when no grant has the tab. */
    method PopupTaken(id: nat, tab: nat) returns (ok: bool)
      requires Valid() && id in s.tabs
      modifies this`s, this`writes, this`ended
      ensures Valid() && Forward(old(s).tabs, s.tabs) && ended == old(ended) && writes == Queue(old(writes), old(s).resumable, s.resumable)
      ensures ok <==> old(s).tabs[id].phase == On && !Taken(old(s).tabs, tab)
      ensures s == if ok then old(s).(tabs := old(s).tabs[id := old(s).tabs[id].(popups := old(s).tabs[id].popups + {tab})]) else old(s)
    {
      hide Sound, Apart, Pending;
      Parts(s, ended, used, id);
      OnlyWhenReady(s, ended, used, id);
      ok := s.tabs[id].phase == On && !Taken(s.tabs, tab);
      if !ok { return; }
      var g := s.tabs[id].(popups := s.tabs[id].popups + {tab});
      assert !OwnsTab(s.tabs[id], tab);
      ApartMoved(s.tabs, id, g);
      Change(id, s.(tabs := s.tabs[id := g]), false);
    }

    method PopupsGone(id: nat, gone: set<nat>)
      requires Valid() && id in s.tabs
      modifies this`s, this`writes, this`ended
      ensures Valid() && Forward(old(s).tabs, s.tabs) && ended == old(ended) && writes == Queue(old(writes), old(s).resumable, s.resumable)
      ensures s == old(s).(tabs := old(s).tabs[id := old(s).tabs[id].(popups := old(s).tabs[id].popups - gone)])
    {
      hide Sound, Apart, Pending;
      Parts(s, ended, used, id);
      OnlyWhenReady(s, ended, used, id);
      var g := s.tabs[id].(popups := s.tabs[id].popups - gone);
      ApartMoved(s.tabs, id, g);
      Change(id, s.(tabs := s.tabs[id := g]), false);
    }

    /** The connection ends. What was ON is kept to send again, unless the member or the
        office ended the connection; a resume still in flight keeps its entry. */
    method Close(terminal: bool, order: seq<nat>)
      requires Valid() && s.ready
      requires forall id :: id in s.tabs <==> id in order
      modifies this`s, this`writes, this`ended
      ensures Valid() && !s.ready && ended == old(ended)
      ensures forall id :: id in s.resumable <==> IsKept(old(s), id, terminal)
      ensures forall id :: id in s.resumable ==>
                id in old(s).tabs && old(s).tabs[id].tab == Some(s.resumable[id].tab) && s.resumable[id].byAgent == old(s).tabs[id].byAgent
      ensures forall id :: id in s.resumable ==>
                s.resumable[id].pinned ==
                  var g := old(s).tabs[id];
                  if g.phase == On && s.resumes && (g.byAgent || g.pinned) then g.pinned else id in old(s).resumable && old(s).resumable[id].pinned
    {
      hide Sound, Apart, Pending, Queue, KeptSo, IsKept;
      ghost var before := s;
      NoneClosed(s, ended, used, terminal);
      for k := 0 to |order|
        invariant Valid() && ended == old(ended) && s == before.(resumable := s.resumable)
        invariant forall id: nat :: KeptSo(before, s.resumable, id, id in order[..k], terminal)
      {
        ghost var was := s;
        CloseOne(order[k], terminal);
        OneClosed(before, was, s.resumable, order[k], order[..k], order[..k + 1], terminal);
      }
      assert order[..|order|] == order;
      AfterClose(s, ended, used);
      AllClosed(before, s.resumable, order, terminal);
      Become(s.(ready := false, tabs := map[], offers := {}, accepted := {}));
    }

    /** One grant's entry, at the end of its connection. */
    method CloseOne(id: nat, terminal: bool)
      requires Valid() && s.ready && id in s.tabs
      modifies this`s, this`writes, this`ended
      ensures Valid() && ended == old(ended) && s == old(s).(resumable := s.resumable)
      ensures KeptSo(old(s), s.resumable, id, true, terminal)
      ensures forall j :: j != id ==> (j in s.resumable <==> j in old(s).resumable)
      ensures forall j :: j != id && j in s.resumable ==> s.resumable[j] == old(s).resumable[j]
    {
      hide Sound, Apart, Pending;
      Parts(s, ended, used, id);
      if s.tabs[id].phase != On { return; }
      Change(id, s.(resumable := if terminal then s.resumable - {id} else Remembered(s, id, s.tabs[id])), false);
    }

    /** A new connection's ready: every kept offer is sent again, or, when the office does
        not take it, forgotten. */
    method Ready(takesOffers: bool, allowed: set<nat>) returns (sent: set<nat>)
      requires Valid() && !s.ready
      modifies this`s, this`writes
      ensures Valid() && s.ready && s.resumes == takesOffers
      ensures sent == if takesOffers then set id | id in old(s).resumable && (old(s).resumable[id].byAgent ==> id in allowed) else {}
      ensures sent !! ended && s.resumable.Keys == sent && s.tabs == Resumed(s.resumable) && s.offers == sent
      ensures forall id :: id in sent ==> s.resumable[id] == old(s).resumable[id]
      ensures forall id :: id in sent ==>
                var e := old(s).resumable[id];
                id in s.tabs && s.tabs[id] == Grant(Some(e.tab), Offering, Resuming, e.byAgent, e.pinned, {}, false)
      ensures s.accepted == {} && writes == Queue(old(writes), old(s).resumable, s.resumable)
    {
      hide Sound, Apart, Pending;
      sent := if takesOffers then set id | id in s.resumable && (s.resumable[id].byAgent ==> id in allowed) else {};
      var kept := map id | id in s.resumable && id in sent :: s.resumable[id];
      SentAgain(s, kept, ended, used, takesOffers);
      assert kept.Keys == sent;
      Become(State(true, takesOffers, Resumed(kept), sent, {}, kept));
    }

    /** Off while the office is away: the offer ends without a grant. */
    method StopAway(id: nat)
      requires Valid() && id in s.resumable && id !in s.tabs
      modifies this`s, this`writes, this`ended
      ensures Valid() && ended == old(ended) + {id} && s == old(s).(resumable := old(s).resumable - {id})
      ensures writes == Queue(old(writes), old(s).resumable, s.resumable)
    {
      hide Apart;
      assert LiveEntry(s, id) || !s.ready;
      ended := ended + {id};
      Become(s.(resumable := s.resumable - {id}));
    }

    /** Disconnect, pairing and unpairing forget every kept offer. */
    method ClearResumable()
      requires Valid()
      modifies this`s, this`writes
      ensures Valid() && s == old(s).(resumable := map[]) && writes == Queue(old(writes), old(s).resumable, s.resumable)
    {
      hide Sound;
      ForgotAll(s, ended, used);
      Become(s.(resumable := map[]));
    }

    // ---------------------------------------------------------------- the worker's end

    method Written()
      requires Valid() && writes != []
      modifies this`stored, this`writes
      ensures Valid() && stored == old(writes)[0] && writes == old(writes)[1..]
    {
      hide Sound;
      assert Lists(writes[0], writes[1..]) == writes;
      stored, writes := writes[0], writes[1..];
    }

    /** Chrome stops the worker and starts another, with what was written. An ended
        offer is back exactly when its end was still to be written. */
    method Restart()
      requires Valid()
      modifies this`s, this`writes, this`ended
      ensures Valid() && s == State(false, false, map[], {}, {}, stored) && writes == []
      ensures ended == old(ended) - s.resumable.Keys
      ensures forall id :: id in old(ended) ==> (id in s.resumable <==> EndPending(Lists(stored, old(writes)), id))
      ensures old(writes) == [] ==> s.resumable == old(s).resumable && ended == old(ended)
    {
      hide Apart, EntriesApart;
      forall id | id in ended ensures id in stored <==> EndPending(Lists(stored, writes), id) {
        assert StaysEnded(s, id);
        StoredIffEndPending(Lists(stored, writes), id);
      }
      assert forall id :: id in ended ==> StaysEnded(s, id);
      s, writes, ended := State(false, false, map[], {}, {}, stored), [], ended - stored.Keys;
      NoTabs();
    }

    /** A connection is lost, and the office is back and takes offers. Sent again are, with
        their tabs, the ON offers that were kept or can be, of a pin or an agent, unless the
        member or the office ended the connection, and the resumes still in flight; of those
        an agent opened, the ones that the setting still allows. */
    method LoseAndReturn(terminal: bool, order: seq<nat>, allowed: set<nat>) returns (sent: set<nat>)
      requires Valid() && s.ready
      requires forall id :: id in s.tabs <==> id in order
      modifies this
      ensures Valid() && s.ready && ended == old(ended)
      ensures forall id :: id in sent <==>
                && id in old(s).tabs && (old(s).tabs[id].byAgent ==> id in allowed)
                && (if old(s).tabs[id].phase == On
                    then !terminal && (id in old(s).resumable || (old(s).resumes && (old(s).tabs[id].byAgent || old(s).tabs[id].pinned)))
                    else id in old(s).resumable)
      ensures s.tabs.Keys == sent && forall id :: id in sent ==> old(s).tabs[id].tab.Some? && s.tabs[id].tab == old(s).tabs[id].tab
    {
      hide Sound, Apart, Pending, EntriesApart, Queue;
      ghost var before := s;
      forall id | id in s.resumable ensures id in s.tabs { Parts(s, ended, used, id); }
      Close(terminal, order);
      sent := Ready(true, allowed);
    }

    // -------------------------------------------------------------------- every run

    /** One step, when it can happen. */
    method Take(step: Step) returns (sent: set<nat>, ghost back: set<nat>)
      requires Valid()
      modifies this
      ensures Valid()
      ensures Follows(old(ended), Event(step, old(s), s, Lists(old(stored), old(writes)), old(used), used, sent, back, ended))
      ensures step.PopupComes? || step.PopupsGo? || KeepsPopups(old(s).tabs, s.tabs)
    {
      hide Sound, Apart, Pending, EndPending, EntriesApart;
      hide Forward, Queue, IsKept, Moves;
      sent, back := {}, {};
      NoMove(s, ended, used);
      NoneAway(s, ended, used);
      match step
      case Loses(terminal, order) =>
        if s.ready && s.tabs.Keys == (set id | id in order) {
          Close(terminal, order);
          NoneAway(s, ended, used);
        }
      case Connects(takesOffers, allowed) => if !s.ready { sent := Ready(takesOffers, allowed); }
      case StopsAway(id) => if id in s.resumable && id !in s.tabs { StopAway(id); }
      case Forgets => ClearResumable();
      case Writes => if writes != [] { Written(); }
      case Restarts =>
        back := set id | id in ended && EndPending(Lists(stored, writes), id);
        Restart();
      case _ => TakeGrant(step);
    }

    /** A step of one grant. */
    method TakeGrant(step: Step)
      requires Valid() && !step.Loses? && !step.Connects? && !step.StopsAway? && !step.Forgets? && !step.Writes? && !step.Restarts?
      modifies this
      ensures Valid() && ended == old(ended) + Ends(step, old(s))
      ensures Moves(old(s).tabs, s.tabs, old(used), used)
      ensures step.PopupComes? || step.PopupsGo? || KeepsPopups(old(s).tabs, s.tabs)
    {
      hide Valid, Apart, Queue, Moves, Forward;
      SoundKeys();
      ghost var before, was := s, used;
      NoMove(s, ended, used);
      if step.Asks? || step.Opens? {
        TakeNew(step);
      } else {
        TakeOld(step);
        SoundKeys();
        MovesOn(before.tabs, s.tabs, was, used);
      }
    }

    lemma SoundKeys()
      requires Valid()
      ensures s.tabs.Keys <= used && Sound(s, ended, used)
    {
    }

    /** A step that makes a grant. */
    method TakeNew(step: Step)
      requires Valid() && (step.Asks? || step.Opens?)
      modifies this
      ensures Valid() && ended == old(ended)
      ensures Moves(old(s).tabs, s.tabs, old(used), used) && KeepsPopups(old(s).tabs, s.tabs)
    {
      hide Valid, Apart, Queue, Forward;
      SoundKeys();
      NoMove(s, ended, used);
      match step
      case Asks(id, tab) => if s.ready && id !in used { var ok := Offer(id, tab); }
      case Opens(id) => if s.ready && id !in used { OpenTab(id); }
      SoundKeys();
    }

    /** A step of a grant that is there: on its way to ON first, and then the others. */
    method TakeOld(step: Step)
      requires Valid() && !step.Loses? && !step.Connects? && !step.StopsAway? && !step.Forgets? && !step.Writes? && !step.Restarts?
      requires !step.Asks? && !step.Opens?
      modifies this
      ensures Valid() && ended == old(ended) + Ends(step, old(s)) && used == old(used)
      ensures Forward(old(s).tabs, s.tabs) && s.tabs.Keys <= old(s).tabs.Keys
      ensures step.PopupComes? || step.PopupsGo? || KeepsPopups(old(s).tabs, s.tabs)
    {
      hide Valid, Apart, Queue, Forward, KeepsPopups;
      SoundKeys();
      NoMove(s, ended, used);
      if step.GetsTab? || step.OpenGoes? || step.OpenFails? || step.Takes? || step.AwaitEnds? {
        TakeStart(step);
        return;
      }
      match step
      case Refuses(id) => if s.ready { RefuseOrRevoke(step); }
      case Revokes(id) => if s.ready { RefuseOrRevoke(step); }
      case Detaches(id) =>
        if id in s.tabs && s.tabs[id].phase == Revoking {
          ghost var before := s.tabs;
          Released(id);
          OneGone(before, id);
        }
      case PopupComes(id, tab) => if id in s.tabs { var ok := PopupTaken(id, tab); }
      case PopupsGo(id, gone) => if id in s.tabs { PopupsGone(id, gone); }
    }

    method TakeStart(step: Step)
      requires Valid() && (step.GetsTab? || step.OpenGoes? || step.OpenFails? || step.Takes? || step.AwaitEnds?)
      modifies this
      ensures Valid() && ended == old(ended) + Ends(step, old(s)) && used == old(used)
      ensures Forward(old(s).tabs, s.tabs) && s.tabs.Keys <= old(s).tabs.Keys && KeepsPopups(old(s).tabs, s.tabs)
    {
      hide Valid, Apart, Queue, Forward, KeepsPopups;
      SoundKeys();
      NoMove(s, ended, used);
      ghost var before := s.tabs;
      match step
      case GetsTab(id, tab) =>
        if id in s.tabs && s.tabs[id].tab == None && !Taken(s.tabs, tab) && tab !in s.tabs[id].popups {
          TabOpened(id, tab);
          OneKept(before, id, s.tabs[id]);
        }
      case OpenGoes(id) =>
        if id in s.tabs && s.tabs[id].kind == Opening && s.tabs[id].phase == Offering && s.tabs[id].tab.Some? {
          OpenDone(id);
          OneKept(before, id, s.tabs[id]);
        }
      case OpenFails(id) =>
        if id in s.tabs && s.tabs[id].kind == Opening && !s.tabs[id].attached {
          OpenFailed(id);
          OneGone(before, id);
        }
      case Takes(id, pinned) =>
        if s.ready && (id in s.tabs && s.tabs[id].kind == Opening ==> s.tabs[id].attached) {
          Offered(id, pinned);
          if id in before { OneKept(before, id, s.tabs[id]); }
        }
      case AwaitEnds(id) =>
        if s.ready && id in s.accepted {
          GoesOn(id);
          if id in before { OneKept(before, id, s.tabs[id]); }
        }
    }

    method RefuseOrRevoke(step: Step)
      requires Valid() && s.ready && (step.Refuses? || step.Revokes?)
      modifies this
      ensures Valid() && ended == old(ended) + Ends(step, old(s)) && used == old(used)
      ensures Forward(old(s).tabs, s.tabs) && s.tabs.Keys <= old(s).tabs.Keys && KeepsPopups(old(s).tabs, s.tabs)
    {
      hide Valid, Apart, Queue, Forward, KeepsPopups;
      SoundKeys();
      NoMove(s, ended, used);
      ghost var before := s.tabs;
      if step.Refuses? { OfferRefused(step.id); } else { Revoke(step.id); }
      if step.id in before { OneKept(before, step.id, s.tabs[step.id]); }
    }

    /** Any steps, recorded; `NeverSentAgain` is of every such record. */
    method Run(steps: seq<Step>) returns (ghost log: seq<Event>)
      requires Valid()
      modifies this
      ensures Valid() && |log| == |steps| && Recorded(old(ended), log)
      ensures forall i :: 0 <= i < |log| ==> log[i].step == steps[i]
      ensures ended == EndedBefore(old(ended), log, |log|)
    {
      hide Valid, Follows, Recorded, EndedBefore;
      log := [];
      assert Recorded(ended, log) && EndedBefore(ended, log, 0) == ended by { NoRecord(ended); }
      for i := 0 to |steps|
        invariant Valid() && |log| == i && Recorded(old(ended), log)
        invariant forall k :: 0 <= k < i ==> log[k].step == steps[k]
        invariant ended == EndedBefore(old(ended), log, i)
        invariant i > 0 ==> log[i - 1].after == s && log[i - 1].used' == used
      {
        ghost var before, lists, was := s, Lists(stored, writes), used;
        ghost var back;
        var sent;
        sent, back := Take(steps[i]);
        RecordGrows(old(ended), log, Event(steps[i], before, s, lists, was, used, sent, back, ended));
        log := log + [Event(steps[i], before, s, lists, was, used, sent, back, ended)];
      }
    }

    static method OnAndWritten() returns (w: Worker)
      ensures fresh(w) && w.Valid() && w.s.ready && w.writes == [] && w.ended == {}
      ensures w.s.tabs == map[0 := Grant(Some(7), On, Asked, false, true, {}, false)]
      ensures w.s.resumable == map[0 := Entry(7, false, true)] && w.stored == w.s.resumable
    {
      hide Sound, Apart, Pending, EntriesApart, Forward;
      w := new Worker();
      var sent := w.Ready(true, {});
      assert w.s == State(true, true, map[], {}, {}, map[]) && w.writes == [];
      var ok := w.Offer(0, 7);
      assert w.s.tabs[0] == Grant(Some(7), Offering, Asked, false, false, {}, false) && w.s.offers == {0} && w.writes == [];
      w.Offered(0, true);
      w.GoesOn(0);
      assert w.writes == [map[0 := Entry(7, false, true)]];
      w.Written();
    }

    /** An offer that is ON and written, revoked, and sent again after a restart. */
    static method EndedAndSentAgain() returns (sent: set<nat>, ghost revoked: set<nat>)
      ensures sent == {0} && revoked == {0}
    {
      hide Sound, Apart, Pending, Forward, EndPending;
      var w := OnAndWritten();
      w.Revoke(0);
      revoked := w.ended;
      w.Restart();
      sent := w.Ready(true, {});
    }
  }

  // ------------------------------------------------------------------------- the loss

  /** The offer is sent again after this connection's end. */
  predicate IsKept(s: State, id: nat, terminal: bool) {
    if id in s.tabs && s.tabs[id].phase == On
    then !terminal && (id in s.resumable || (s.resumes && (s.tabs[id].byAgent || s.tabs[id].pinned)))
    else id in s.resumable
  }

  predicate StillPinned(s: State, id: nat, closed: bool)
    requires id in s.tabs
  {
    var g := s.tabs[id];
    if closed && g.phase == On && s.resumes && (g.byAgent || g.pinned) then g.pinned else id in s.resumable && s.resumable[id].pinned
  }

  /** What is left of an entry, before and after its grant is closed. */
  predicate KeptSo(s: State, after: map<nat, Entry>, id: nat, closed: bool, terminal: bool) {
    && (id in after <==> if closed then IsKept(s, id, terminal) else id in s.resumable)
    && (id in after ==> id in s.tabs && after[id].pinned == StillPinned(s, id, closed))
  }

  lemma NoneClosed(s: State, ended: set<nat>, used: set<nat>, terminal: bool)
    requires Sound(s, ended, used) && s.ready
    ensures forall id: nat :: KeptSo(s, s.resumable, id, false, terminal)
  {
    hide Sound, IsKept;
    forall id: nat ensures KeptSo(s, s.resumable, id, false, terminal) { Parts(s, ended, used, id); }
  }

  lemma OneClosed(before: State, s: State, after: map<nat, Entry>, id: nat, done: seq<nat>, next: seq<nat>, terminal: bool)
    requires s == before.(resumable := s.resumable) && next == done + [id] && id in s.tabs
    requires forall j: nat :: KeptSo(before, s.resumable, j, j in done, terminal)
    requires KeptSo(s, after, id, true, terminal)
    requires forall j: nat :: j != id ==> (j in after <==> j in s.resumable)
    requires forall j: nat :: j != id && j in after ==> after[j] == s.resumable[j]
    ensures forall j: nat :: KeptSo(before, after, j, j in next, terminal)
  {
    forall j: nat ensures KeptSo(before, after, j, j in next, terminal) {
      assert KeptSo(before, s.resumable, j, j in done, terminal);
      assert j in next <==> j in done || j == id;
    }
  }

  lemma AllClosed(before: State, after: map<nat, Entry>, order: seq<nat>, terminal: bool)
    requires forall id :: id in before.tabs ==> id in order
    requires forall id: nat :: KeptSo(before, after, id, id in order, terminal)
    ensures forall id: nat :: id in after <==> IsKept(before, id, terminal)
    ensures forall id: nat :: id in after ==> id in before.tabs && after[id].pinned == StillPinned(before, id, true)
  {
    forall id: nat ensures id in after <==> IsKept(before, id, terminal)
      ensures id in after ==> id in before.tabs && after[id].pinned == StillPinned(before, id, true)
    {
      assert KeptSo(before, after, id, id in order, terminal);
    }
  }

  /** No grant's tab or popups change, and a new grant has no popups. */
  ghost predicate KeepsPopups(before: map<nat, Grant>, after: map<nat, Grant>) {
    && (forall id :: id in after ==> after[id].popups == if id in before then before[id].popups else {})
    && (forall id :: id in after && id in before && before[id].tab.Some? ==> after[id].tab == before[id].tab)
  }

  lemma OneKept(before: map<nat, Grant>, id: nat, g: Grant)
    requires id in before && g.popups == before[id].popups && (before[id].tab.Some? ==> g.tab == before[id].tab)
    ensures KeepsPopups(before, before[id := g]) && KeepsPopups(before, before) && before[id := before[id]] == before
  {
  }

  lemma OneGone(before: map<nat, Grant>, id: nat)
    ensures KeepsPopups(before, before - {id})
  {
  }

  lemma NoneAway(s: State, ended: set<nat>, used: set<nat>)
    requires Sound(s, ended, used)
    ensures !s.ready ==> s.tabs == map[]
  {
    hide Apart, EntriesApart, SoundGrant, LiveEntry, StaysEnded;
  }

  lemma NoMove(s: State, ended: set<nat>, used: set<nat>)
    requires Sound(s, ended, used)
    ensures Moves(s.tabs, s.tabs, used, used) && Forward(s.tabs, s.tabs) && KeepsPopups(s.tabs, s.tabs)
  {
    hide Apart;
  }

  lemma MovesOn(before: map<nat, Grant>, after: map<nat, Grant>, used: set<nat>, used': set<nat>)
    requires Forward(before, after) && used == used' && before.Keys <= used && after.Keys <= before.Keys
    ensures Moves(before, after, used, used')
  {
    hide Forward;
  }

  lemma NoTabs()
    ensures Apart(map[])
  {
  }

  lemma ForgotAll(s: State, ended: set<nat>, used: set<nat>)
    requires Sound(s, ended, used)
    ensures Sound(s.(resumable := map[]), ended, used)
  {
    hide Apart;
    var t := s.(resumable := map[]);
    forall id: nat ensures SoundGrant(t, id) && (s.ready ==> LiveEntry(t, id)) { assert SoundGrant(s, id); }
    forall id | id in ended ensures StaysEnded(t, id) { assert StaysEnded(s, id); }
  }

  lemma AfterClose(s: State, ended: set<nat>, used: set<nat>)
    requires Sound(s, ended, used) && s.ready
    ensures Sound(s.(ready := false, tabs := map[], offers := {}, accepted := {}), ended, used)
    ensures forall id :: id in s.resumable ==>
              id in s.tabs && s.tabs[id].tab == Some(s.resumable[id].tab) && s.resumable[id].byAgent == s.tabs[id].byAgent
  {
    hide Apart;
    NoTabs();
    var t := s.(ready := false, tabs := map[], offers := {}, accepted := {});
    forall id: nat ensures SoundGrant(t, id) {}
    forall id | id in ended ensures StaysEnded(t, id) { assert StaysEnded(s, id); }
    forall id | id in s.resumable
      ensures id in s.tabs && s.tabs[id].tab == Some(s.resumable[id].tab) && s.resumable[id].byAgent == s.tabs[id].byAgent
    {
      assert LiveEntry(s, id);
    }
  }

  /** The grants that send the kept offers again. */
  function Resumed(resumable: map<nat, Entry>): map<nat, Grant> {
    map id | id in resumable :: Grant(Some(resumable[id].tab), Offering, Resuming, resumable[id].byAgent, resumable[id].pinned, {}, false)
  }

  lemma ResumedApart(resumable: map<nat, Entry>)
    requires EntriesApart(resumable)
    ensures Apart(Resumed(resumable))
  {
    var tabs := Resumed(resumable);
    forall a, b, t | a in tabs && b in tabs && OwnsTab(tabs[a], t) && OwnsTab(tabs[b], t) ensures a == b {
      assert resumable[a].tab == t && resumable[b].tab == t;
    }
  }

  lemma SentAgain(s: State, kept: map<nat, Entry>, ended: set<nat>, used: set<nat>, resumes: bool)
    requires Sound(s, ended, used) && kept.Keys <= s.resumable.Keys
    requires forall id :: id in kept ==> kept[id] == s.resumable[id]
    ensures Sound(State(true, resumes, Resumed(kept), kept.Keys, {}, kept), ended, used) && kept.Keys !! ended
  {
    hide Apart;
    ResumedApart(kept);
    var t := State(true, resumes, Resumed(kept), kept.Keys, {}, kept);
    forall id: nat ensures SoundGrant(t, id) && LiveEntry(t, id) {}
    forall id | id in ended ensures id !in kept && StaysEnded(t, id) { assert StaysEnded(s, id); }
  }

  lemma OtherSame(s: State, t: State, id: nat)
    requires t.tabs - {id} == s.tabs - {id} && t.resumable - {id} == s.resumable - {id}
    requires t.offers - {id} == s.offers - {id} && t.accepted - {id} == s.accepted - {id}
    ensures forall j: nat :: j != id ==>
              && (j in t.tabs <==> j in s.tabs) && (j in t.tabs && j in s.tabs ==> t.tabs[j] == s.tabs[j])
              && (j in t.offers <==> j in s.offers) && (j in t.accepted <==> j in s.accepted)
              && (j in t.resumable <==> j in s.resumable) && (j in t.resumable && j in s.resumable ==> t.resumable[j] == s.resumable[j])
  {
    forall j: nat | j != id
      ensures (j in t.tabs <==> j in s.tabs) && (j in t.tabs && j in s.tabs ==> t.tabs[j] == s.tabs[j])
      ensures (j in t.offers <==> j in s.offers) && (j in t.accepted <==> j in s.accepted)
      ensures (j in t.resumable <==> j in s.resumable) && (j in t.resumable && j in s.resumable ==> t.resumable[j] == s.resumable[j])
    {
      assert j in t.tabs - {id} <==> j in s.tabs - {id};
      assert j in t.tabs - {id} ==> (t.tabs - {id})[j] == (s.tabs - {id})[j];
      assert j in t.offers - {id} <==> j in s.offers - {id};
      assert j in t.accepted - {id} <==> j in s.accepted - {id};
      assert j in t.resumable - {id} <==> j in s.resumable - {id};
      assert j in t.resumable - {id} ==> (t.resumable - {id})[j] == (s.resumable - {id})[j];
    }
  }

  lemma OnlyWhenReady(s: State, ended: set<nat>, used: set<nat>, id: nat)
    requires Sound(s, ended, used) && id in s.tabs
    ensures s.ready
  {
  }
}
