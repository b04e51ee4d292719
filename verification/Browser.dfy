/** The worker and the popup chain of each of its grants, together: a browser tab is in
    one place of one chain, in every run. */
module Browser {
  import opened Basics
  import Popups
  import Grants

  /** What happens to a grant's chain, beside the steps of the worker. */
  datatype Step =
    | OfWorker(step: Grants.Step)
    | OwnTarget(id: nat)
    | PopupOpens(tab: nat, source: nat, session: nat)
    | AttachEnds(id: nat, targetFound: bool)
    | Retires(id: nat, tab: nat)

  ghost predicate Holds(g: Grants.Grant, c: Popups.GrantTab)
    reads c
  {
    c.Valid() && g.tab == Some(c.tabId) && g.popups == Popups.TabsOf(c.popups)
  }

  /** A chain of a grant that has only just got its tab. */
  predicate IsNew(c: Popups.GrantTab)
    reads c
  {
    c.popups == [] && c.leaf == c.tabId && c.attaching == None && !c.found
  }

  lemma HoldsIs(g: Grants.Grant, c: Popups.GrantTab)
    ensures Holds(g, c) <==> c.Valid() && g.tab == Some(c.tabId) && g.popups == Popups.TabsOf(c.popups)
  {
  }

  class Browser {
    const worker: Grants.Worker
    /** Of each grant that has its tab. */
    var chains: map<nat, Popups.GrantTab>

    ghost predicate Valid()
      reads this, worker, chains.Values
    {
      worker.Valid() && Joined(worker.s.tabs) && Separate()
    }

    /** A grant's tab and popups are those of its chain. */
    ghost predicate Joined(tabs: map<nat, Grants.Grant>)
      reads this, chains.Values
    {
      && (forall id :: id in chains <==> id in tabs && tabs[id].tab.Some?)
      && (forall id :: id in tabs && tabs[id].tab.None? ==> tabs[id].popups == {})
      && (forall id :: id in chains ==> Holds(tabs[id], chains[id]))
    }

    ghost predicate Separate()
      reads this
    {
      forall a, b :: a in chains && b in chains && chains[a] == chains[b] ==> a == b
    }

    constructor ()
      ensures Valid() && fresh(worker) && chains == map[]
    {
      worker := new Grants.Worker();
      chains := map[];
    }

    /** With a worker whose grants have no popups yet. */
    constructor Of(worker: Grants.Worker)
      requires worker.Valid()
      ensures this.worker == worker && chains == map[]
    {
      this.worker := worker;
      chains := map[];
    }

    /** A step of the worker that touches no popup: the grants that stay keep their chains,
        and one that gets its tab begins one. */
    method TakeStep(step: Grants.Step) returns (sent: set<nat>, ghost back: set<nat>)
      requires Valid() && !step.PopupComes? && !step.PopupsGo?
      modifies this`chains, worker
      ensures Valid() && forall id :: id in chains ==> fresh(chains[id]) || chains[id] in old(chains).Values
      ensures forall id :: id in chains ==> if id in old(chains) then chains[id] == old(chains)[id] else IsNew(chains[id])
      ensures Grants.Follows(old(worker.ended), Grants.Event(step, old(worker.s), worker.s, Grants.Lists(old(worker.stored), old(worker.writes)),
                                                             old(worker.used), worker.used, sent, back, worker.ended))
    {
      hide Grants.Follows;
      sent, back := worker.Take(step);
      Rejoin();
    }

    method ChainOf(id: nat) returns (c: Popups.GrantTab)
      requires id in worker.s.tabs && worker.s.tabs[id].tab.Some?
      requires if id in chains then Holds(worker.s.tabs[id], chains[id]) else worker.s.tabs[id].popups == {}
      ensures Holds(worker.s.tabs[id], c) && if id in chains then c == chains[id] else fresh(c) && IsNew(c)
    {
      if id in chains { return chains[id]; }
      c := new Popups.GrantTab(worker.s.tabs[id].tab.value);
      assert Popups.TabsOf(c.popups) == {};
    }

    /** The chains of the grants that are there now. */
    method Rejoin()
      requires Separate()
      requires forall id :: id in worker.s.tabs && id in chains ==> Holds(worker.s.tabs[id], chains[id])
      requires forall id :: id in worker.s.tabs && (id !in chains || worker.s.tabs[id].tab.None?) ==> worker.s.tabs[id].popups == {}
      modifies this`chains
      ensures Joined(worker.s.tabs) && Separate()
      ensures forall id :: id in chains ==>
                if id in old(chains) then chains[id] == old(chains)[id] else fresh(chains[id]) && IsNew(chains[id])
    {
      hide Holds;
      var next: map<nat, Popups.GrantTab> := map[];
      var todo := worker.s.tabs.Keys;
      while todo != {}
        invariant todo <= worker.s.tabs.Keys
        invariant chains == old(chains)
        invariant forall id :: id in next <==> id in worker.s.tabs && id !in todo && worker.s.tabs[id].tab.Some?
        invariant forall id :: id in next ==> Holds(worker.s.tabs[id], next[id])
        invariant forall id :: id in next ==> if id in chains then next[id] == chains[id] else fresh(next[id]) && IsNew(next[id])
        invariant forall a, b :: a in next && b in next && next[a] == next[b] ==> a == b
        decreases todo
      {
        var id :| id in todo;
        todo := todo - {id};
        if worker.s.tabs[id].tab.Some? {
          var c := ChainOf(id);
          next := next[id := c];
        }
      }
      chains := next;
    }

    /** The grant's own page is attached. */
    method OwnTarget(id: nat)
      requires Valid() && id in chains
      modifies chains[id]
      ensures Valid() && chains[id].found && chains[id].popups == old(chains[id].popups) && chains[id].attaching == old(chains[id].attaching)
    {
      hide Grants.Worker.Valid;
      chains[id].OwnTarget();
    }

    /** A grant that would take a popup of the page. */
    predicate WouldTake(id: nat, source: nat)
      reads this, worker, chains.Values
    {
      id in chains && id in worker.s.tabs && worker.s.tabs[id].phase == Grants.On && chains[id].Accepts(source)
    }

    /** At most one grant would: the leaf of a chain is a tab of its grant. */
    lemma OneWouldTake(a: nat, b: nat, source: nat)
      requires Valid() && WouldTake(a, source) && WouldTake(b, source)
      ensures a == b
    {
      LeafIsOwned(a);
      LeafIsOwned(b);
      TabsAreApart(a, b, source);
    }

    lemma OnlyOne(source: nat)
      requires Valid()
      ensures forall id :: WouldTake(id, source) ==> id in chains
      ensures forall a, b :: WouldTake(a, source) && WouldTake(b, source) ==> a == b
    {
      hide Grants.Worker.Valid;
      forall a, b | WouldTake(a, source) && WouldTake(b, source) ensures a == b { OneWouldTake(a, b, source); }
    }

    lemma LeafIsOwned(id: nat)
      requires Valid() && id in chains
      ensures id in worker.s.tabs && Grants.OwnsTab(worker.s.tabs[id], chains[id].leaf)
    {
      assert Holds(worker.s.tabs[id], chains[id]);
    }

    /** No tab is in two chains. */
    lemma TabsAreApart(a: nat, b: nat, tab: nat)
      requires worker.Valid() && a in worker.s.tabs && b in worker.s.tabs
      requires Grants.OwnsTab(worker.s.tabs[a], tab) && Grants.OwnsTab(worker.s.tabs[b], tab)
      ensures a == b
    {
      hide Grants.Pending;
    }

    lemma WouldTakeIff(id: nat, source: nat)
      requires Valid() && id in chains
      ensures WouldTake(id, source) <==>
              var c := chains[id];
              && worker.s.tabs[id].phase == Grants.On && c.attaching.None? && |c.popups| < 8 && (forall p :: p in c.popups ==> p.ready)
              && source == (if c.popups == [] then c.tabId else c.popups[|c.popups| - 1].tab) && (source == c.tabId ==> c.found)
    {
      hide Grants.Worker.Valid;
      assert Holds(worker.s.tabs[id], chains[id]);
      chains[id].AcceptsIff(source);
    }

    lemma NoneHas(tab: nat)
      ensures Grants.Taken(worker.s.tabs, tab) <==>
              exists id :: id in worker.s.tabs && (worker.s.tabs[id].tab == Some(tab) || tab in worker.s.tabs[id].popups)
    {
      hide Grants.Worker.Valid;
      forall id | id in worker.s.tabs
        ensures Grants.OwnsTab(worker.s.tabs[id], tab) <==> worker.s.tabs[id].tab == Some(tab) || tab in worker.s.tabs[id].popups
      {
      }
    }

    /** A page opened a tab. A grant takes it exactly when no grant has it, the grant is ON,
        its chain is attached and has room, and the page is the last of it; the grant's own
        page must have its target. No other grant is touched. */
    method PopupOpens(tab: nat, source: nat, session: nat) returns (taker: Option<nat>)
      requires Valid()
      requires forall id, p :: id in chains && p in chains[id].popups ==> p.session != session
      modifies worker, chains.Values
      ensures Valid() && chains == old(chains)
      ensures taker.Some? ==> taker.value in chains
      ensures forall id :: id in chains ==>
                (taker == Some(id) <==>
                   && !(exists a :: a in old(worker.s).tabs && (old(worker.s).tabs[a].tab == Some(tab) || tab in old(worker.s).tabs[a].popups))
                   && old(worker.s).tabs[id].phase == Grants.On
                   && old(chains[id].attaching).None? && |old(chains[id].popups)| < 8 && (forall p :: p in old(chains[id].popups) ==> p.ready)
                   && source == (if old(chains[id].popups) == [] then chains[id].tabId else old(chains[id].popups)[|old(chains[id].popups)| - 1].tab)
                   && (source == chains[id].tabId ==> old(chains[id].found)))
      ensures taker.Some? <==> !Grants.Taken(old(worker.s).tabs, tab) && exists id :: old(WouldTake(id, source))
      ensures taker.Some? ==>
                && old(WouldTake(taker.value, source))
                && chains[taker.value].popups == old(chains[taker.value].popups) + [Popups.Popup(session, tab, source, false)]
                && worker.s.tabs == old(worker.s).tabs[taker.value := old(worker.s).tabs[taker.value].(popups := old(worker.s).tabs[taker.value].popups + {tab})]
                && chains[taker.value].attaching == Some(Popups.Attach(Popups.Popup(session, tab, source, false), false))
      ensures forall id :: id in chains && taker != Some(id) ==> chains[id].popups == old(chains[id].popups)
    {
      hide Holds, Grants.Worker.Valid, Grants.Taken, WouldTake;
      forall id | id in chains
        ensures WouldTake(id, source) <==>
                var c := chains[id];
                && worker.s.tabs[id].phase == Grants.On && c.attaching.None? && |c.popups| < 8 && (forall p :: p in c.popups ==> p.ready)
                && source == (if c.popups == [] then c.tabId else c.popups[|c.popups| - 1].tab) && (source == c.tabId ==> c.found)
      {
        WouldTakeIff(id, source);
      }
      NoneHas(tab);
      OnlyOne(source);
      taker := FindTaker(source);
      if taker.None? || Grants.Taken(worker.s.tabs, tab) { return None; }
      TakePopup(taker.value, tab, source, session);
    }

    method TakePopup(id: nat, tab: nat, source: nat, session: nat)
      requires Valid() && WouldTake(id, source) && !Grants.Taken(worker.s.tabs, tab)
      requires forall p :: p in chains[id].popups ==> p.session != session
      modifies worker, chains[id]
      ensures Valid()
      ensures chains[id].popups == old(chains[id].popups) + [Popups.Popup(session, tab, source, false)]
      ensures chains[id].attaching == Some(Popups.Attach(Popups.Popup(session, tab, source, false), false))
      ensures worker.s.tabs == old(worker.s).tabs[id := old(worker.s).tabs[id].(popups := old(worker.s).tabs[id].popups + {tab})]
    {
      hide Holds, Grants.Worker.Valid, Popups.GrantTab.Valid, Grants.Forward, Grants.Queue, Grants.Taken, Popups.TabsOf;
      var c := chains[id];
      WouldTakeIff(id, source);
      HoldsIs(worker.s.tabs[id], c);
      NotOfIt(id, tab);
      c.OnCreatedNavigationTarget(tab, source, session, false);
      var ok := worker.PopupTaken(id, tab);
      Popups.TabsGrow(old(c.popups), Popups.Popup(session, tab, source, false));
      HoldsIs(worker.s.tabs[id], c);
      OthersHold(id);
    }

    /** The chains of the other grants are as they were. */
    twostate lemma OthersHold(id: nat)
      requires old(Valid()) && id in chains && chains == old(chains)
      requires unchanged(this) && forall j :: j in chains && chains[j] != chains[id] ==> unchanged(chains[j])
      requires worker.s.tabs.Keys == old(worker.s.tabs.Keys)
      requires forall j :: j in worker.s.tabs && j != id ==> worker.s.tabs[j] == old(worker.s.tabs[j])
      ensures forall j :: j in chains && j != id ==> Holds(worker.s.tabs[j], chains[j])
    {
      forall j | j in chains && j != id ensures Holds(worker.s.tabs[j], chains[j]) {
        assert old(Holds(worker.s.tabs[j], chains[j]));
        assert chains[j] != chains[id];
      }
    }

    /** The search for it. */
    method FindTaker(source: nat) returns (taker: Option<nat>)
      requires Valid()
      ensures taker.Some? ==> WouldTake(taker.value, source) && old(WouldTake(taker.value, source))
      ensures taker.None? ==> forall id :: !old(WouldTake(id, source))
    {
      hide Holds, Grants.Worker.Valid;
      var todo := chains.Keys;
      taker := None;
      while todo != {}
        invariant todo <= chains.Keys && forall id :: id in chains && id !in todo ==> !old(WouldTake(id, source))
        decreases todo
      {
        var id :| id in todo;
        todo := todo - {id};
        if worker.s.tabs[id].phase == Grants.On && chains[id].Accepts(source) { return Some(id); }
      }
    }

    /** An attach ends. The popup is the leaf then, if the grant is ON, still has it, and
        still has its opener as the leaf; else it goes. */
    method AttachEnds(id: nat, targetFound: bool)
      requires Valid() && id in chains && chains[id].attaching.Some?
      modifies worker, chains[id]
      ensures Valid() && chains[id].attaching == None && worker.s.tabs.Keys == old(worker.s).tabs.Keys
      ensures worker.s.tabs[id] == old(worker.s).tabs[id].(popups := worker.s.tabs[id].popups)
      ensures chains[id].popups ==
              (if targetFound && !old(chains[id].attaching.value.failed) && old(worker.s.tabs[id].phase) == Grants.On
                  && |old(chains[id].popups)| > old(chains[id].Attached())
               then Popups.Readied(old(chains[id].popups)) else old(chains[id].popups)[..old(chains[id].Attached())])
    {
      hide Holds, Grants.Worker.Valid, Grants.Forward, Grants.Queue, Popups.TabsOf, Popups.PopupChain;
      var c := chains[id];
      HoldsIs(worker.s.tabs[id], c);
      var was, ok := c.popups, false;
      if targetFound && !c.attaching.value.failed { ok := c.AttachDone(worker.s.tabs[id].phase == Grants.On); }
      if ok {
        Popups.SameTabsReadied(was);
      } else {
        c.AttachFailed();
        OthersHold(id);
        Forget(id, was);
        return;
      }
      HoldsIs(worker.s.tabs[id], c);
      OthersHold(id);
    }

    /** The popups that the chain lost leave the grant. */
    method Forget(id: nat, was: seq<Popups.Popup>)
      requires worker.Valid() && Separate() && JoinedBut(id, worker.s.tabs, was)
      modifies worker
      ensures Valid() && worker.s.tabs.Keys == old(worker.s).tabs.Keys
      ensures worker.s.tabs[id] == old(worker.s).tabs[id].(popups := worker.s.tabs[id].popups)
    {
      hide Holds, Grants.Worker.Valid, Grants.Forward, Grants.Queue, Popups.TabsOf, Popups.GrantTab.Valid, Separate;
      var c := chains[id];
      ghost var before, left := worker.s.tabs, Popups.TabsOf(c.popups);
      assert was[..|c.popups|] == c.popups;
      Popups.FewerTabs(was, |c.popups|);
      ButTheRest(Popups.TabsOf(was), left);
      worker.PopupsGone(id, Popups.TabsOf(was) - Popups.TabsOf(c.popups));
      assert worker.s.tabs == before[id := before[id].(popups := left)];
      HoldsIs(worker.s.tabs[id], c);
      forall j | j in chains && j != id ensures Holds(worker.s.tabs[j], chains[j]) { assert old(Holds(worker.s.tabs[j], chains[j])); }
    }

    lemma ButTheRest(all: set<nat>, left: set<nat>)
      requires left <= all
      ensures all - (all - left) == left
    {
    }

    /** The grant still has the popups of a longer chain. */
    ghost predicate JoinedBut(id: nat, tabs: map<nat, Grants.Grant>, was: seq<Popups.Popup>)
      reads this, chains.Values
    {
      && (forall j :: j in chains <==> j in tabs && tabs[j].tab.Some?)
      && (forall j :: j in tabs && tabs[j].tab.None? ==> tabs[j].popups == {})
      && (forall j :: j in chains && j != id ==> Holds(tabs[j], chains[j]))
      && id in chains && chains[id].Valid() && tabs[id].tab == Some(chains[id].tabId)
      && tabs[id].popups == Popups.TabsOf(was) && chains[id].popups <= was
    }

    /** A popup's debugger or tab is gone. */
    method Retires(id: nat, tab: nat) returns (sent: seq<Popups.Popup>)
      requires Valid() && id in chains && tab != chains[id].tabId
      modifies worker, chains[id]
      ensures Valid() && Popups.ChildrenFirst(sent) && chains[id].popups <= old(chains[id].popups)
      ensures forall k :: 0 <= k < |old(chains[id].popups)| && old(chains[id].popups)[k].tab == tab ==>
                chains[id].popups == old(chains[id].popups)[..k] && chains[id].leaf == Popups.Opener(old(chains[id].popups), chains[id].tabId, k)
      ensures (forall p :: p in old(chains[id].popups) ==> p.tab != tab) ==> chains[id].popups == old(chains[id].popups)
    {
      hide Holds, Grants.Worker.Valid, Grants.Forward, Grants.Queue, Popups.TabsOf, Popups.PopupChain, Popups.ChildrenFirst,
           Popups.GrantTab.Valid;
      var c := chains[id];
      HoldsIs(worker.s.tabs[id], c);
      var was := c.popups;
      sent := c.RetireDebugger(tab);
      OthersHold(id);
      Forget(id, was);
    }

    lemma NotOfIt(id: nat, tab: nat)
      requires Valid() && id in chains && !Grants.Taken(worker.s.tabs, tab)
      ensures tab != chains[id].tabId && forall i :: 0 <= i < |chains[id].popups| ==> chains[id].popups[i].tab != tab
    {
      assert Holds(worker.s.tabs[id], chains[id]);
      assert !Grants.OwnsTab(worker.s.tabs[id], tab);
      forall i | 0 <= i < |chains[id].popups| ensures chains[id].popups[i].tab != tab {
        assert chains[id].popups[i].tab in Popups.TabsOf(chains[id].popups);
      }
    }

    /** A worker with one grant, ON in tab 7, its page attached. */
    static method WithAGrant() returns (b: Browser)
      ensures fresh(b) && fresh(b.worker) && b.Valid() && b.chains.Keys == {0} && fresh(b.chains[0])
      ensures b.worker.s.tabs == map[0 := Grants.Grant(Some(7), Grants.On, Grants.Asked, false, true, {}, false)]
      ensures b.chains[0].tabId == 7 && b.chains[0].popups == [] && b.chains[0].attaching == None && b.chains[0].found
    {
      hide Grants.Worker.Valid, Popups.PopupChain;
      var w := Grants.Worker.OnAndWritten();
      b := new Browser.Of(w);
      b.Rejoin();
      b.OwnTarget(0);
    }

    /** And a popup of it, being attached. */
    static method WithAnOpened() returns (b: Browser)
      ensures fresh(b) && fresh(b.worker) && b.Valid() && b.chains.Keys == {0} && fresh(b.chains[0])
      ensures b.worker.s.tabs == map[0 := Grants.Grant(Some(7), Grants.On, Grants.Asked, false, true, {2}, false)]
      ensures b.chains[0].tabId == 7 && b.chains[0].popups == [Popups.Popup(0, 2, 7, false)]
      ensures b.chains[0].attaching == Some(Popups.Attach(Popups.Popup(0, 2, 7, false), false))
    {
      hide Browser.Valid, Grants.Taken, Popups.GrantTab.Valid;
      b := WithAGrant();
      ghost var none: set<nat> := {};
      assert none + {2} == {2};
      var taker := b.PopupOpens(2, 7, 0);
      assert taker == Some(0);
    }

    /** And attached. */
    static method WithAPopup() returns (b: Browser)
      ensures fresh(b) && fresh(b.worker) && b.Valid() && b.chains.Keys == {0} && fresh(b.chains[0])
      ensures b.worker.s.tabs.Keys == {0} && b.worker.s.tabs[0].phase == Grants.On && b.worker.s.tabs[0].tab == Some(7)
      ensures b.worker.s.tabs[0].popups == {2}
      ensures b.chains[0].tabId == 7 && b.chains[0].popups == [Popups.Popup(0, 2, 7, true)] && b.chains[0].attaching == None
    {
      hide Browser.Valid, Popups.GrantTab.Valid;
      b := WithAnOpened();
      b.AttachEnds(0, true);
      b.IsOneChain(0);
      assert Popups.TabsOf(b.chains[0].popups) == {2};
    }

    /** A popup of a popup is taken: a grant's own page opens one tab, and that one another. */
    static method PopupOfAPopup() returns (b: Browser)
      ensures fresh(b) && b.Valid() && 0 in b.chains && b.chains[0].tabId == 7
      ensures b.chains[0].popups == [Popups.Popup(0, 2, 7, true), Popups.Popup(1, 3, 2, false)]
    {
      hide Browser.Valid, Grants.Taken, Popups.GrantTab.Valid;
      b := WithAPopup();
      var taker := b.PopupOpens(3, 2, 1);
      assert taker == Some(0);
    }

    // -------------------------------------------------------------------- every run

    /** One step, when it can happen. */
    method Take(step: Step)
      requires Valid()
      modifies this`chains, worker, chains.Values
      ensures Valid() && forall id :: id in chains ==> fresh(chains[id]) || chains[id] in old(chains).Values
    {
      hide Valid, Holds;
      match step
      case OfWorker(s) => if !s.PopupComes? && !s.PopupsGo? { var sent, back := TakeStep(s); }
      case OwnTarget(id) => if id in chains { OwnTarget(id); }
      case PopupOpens(tab, source, session) =>
        if forall id | id in chains :: forall p | p in chains[id].popups :: p.session != session {
          var taker := PopupOpens(tab, source, session);
        }
      case AttachEnds(id, targetFound) => if id in chains && chains[id].attaching.Some? { AttachEnds(id, targetFound); }
      case Retires(id, tab) => if id in chains && tab != chains[id].tabId { var sent := Retires(id, tab); }
    }

    /** Any steps, from any point of a run on. */
    method Run(steps: seq<Step>)
      requires Valid()
      modifies this`chains, worker, chains.Values
      ensures Valid()
    {
      hide Valid;
      for i := 0 to |steps|
        invariant Valid() && forall id :: id in chains ==> fresh(chains[id]) || chains[id] in old(chains).Values
      {
        Take(steps[i]);
      }
    }

    /** So at every point of every run: a grant's popups are one chain from its own tab, of
        eight at most; the attached ones lead to its leaf, and one more is being attached
        there at most. */
    lemma IsOneChain(id: nat)
      requires Valid() && id in chains
      ensures var c := chains[id];
              && worker.s.tabs[id].tab == Some(c.tabId) && worker.s.tabs[id].popups == Popups.TabsOf(c.popups)
              && Popups.PopupChain(c.popups, c.tabId) && |c.popups| <= Popups.MAX_POPUPS
              && c.leaf == Popups.Opener(c.popups, c.tabId, c.Attached())
              && |c.popups| <= c.Attached() + 1 && (c.Attached() < |c.popups| ==> c.attaching.Some?)
    {
      hide Grants.Worker.Valid;
      assert Holds(worker.s.tabs[id], chains[id]);
    }

    /** And a browser tab is in one place of one chain. */
    lemma OnePlace(a: nat, i: nat, b: nat, j: nat)
      requires Valid() && a in chains && b in chains && i < |chains[a].popups| && j < |chains[b].popups|
      ensures chains[a].popups[i].tab == chains[b].popups[j].tab ==> a == b && i == j
      ensures chains[a].popups[i].tab != chains[b].tabId
      ensures chains[a].tabId == chains[b].tabId ==> a == b
    {
      hide Grants.Worker.Valid;
      IsOneChain(a);
      IsOneChain(b);
      assert chains[a].popups[i].tab in Popups.TabsOf(chains[a].popups);
      assert chains[b].popups[j].tab in Popups.TabsOf(chains[b].popups);
      if chains[a].popups[i].tab == chains[b].popups[j].tab { TabsAreApart(a, b, chains[a].popups[i].tab); }
      if chains[a].popups[i].tab == chains[b].tabId { TabsAreApart(a, b, chains[b].tabId); }
      if chains[a].tabId == chains[b].tabId { TabsAreApart(a, b, chains[a].tabId); }
    }
  }
}
