/** The popups of one grant: how a closed one takes its own popups with it, and the one
    chain that they always form. */
module Popups {
  import opened Basics

  /** In insertion order; `ready` once its attach has found the page's target. */
  datatype Popup = Popup(session: nat, tab: nat, parent: nat, ready: bool)

  const MAX_POPUPS := 8

  // -------------------------------------------------------------------- descendants

  /** `tab` is `d` steps of parents away from `top`. */
  ghost predicate Reaches(ps: seq<Popup>, top: nat, tab: nat, d: nat)
    decreases d
  {
    if d == 0 then tab == top
    else exists i :: 0 <= i < |ps| && ps[i].tab == tab && Reaches(ps, top, ps[i].parent, d - 1)
  }

  /** The tab is `top` or a descendant of it. */
  ghost predicate Below(ps: seq<Popup>, top: nat, tab: nat) {
    exists d: nat :: Reaches(ps, top, tab, d)
  }

  lemma ChildIsBelow(ps: seq<Popup>, top: nat, i: nat)
    requires i < |ps| && Below(ps, top, ps[i].parent)
    ensures Below(ps, top, ps[i].tab)
  {
    var d: nat :| Reaches(ps, top, ps[i].parent, d);
    assert Reaches(ps, top, ps[i].tab, d + 1);
  }

  ghost predicate Closed(ps: seq<Popup>, tabs: set<nat>) {
    forall i :: 0 <= i < |ps| && ps[i].parent in tabs ==> ps[i].tab in tabs
  }

  lemma {:induction false} ClosedHasAllBelow(ps: seq<Popup>, tabs: set<nat>, top: nat, tab: nat, d: nat)
    requires Closed(ps, tabs) && top in tabs && Reaches(ps, top, tab, d)
    ensures tab in tabs
    decreases d
  {
    if d > 0 {
      var i :| 0 <= i < |ps| && ps[i].tab == tab && Reaches(ps, top, ps[i].parent, d - 1);
      ClosedHasAllBelow(ps, tabs, top, ps[i].parent, d - 1);
    }
  }

  /** The fixpoint loop, on any popups whatever: it ends, with exactly the descendants. */
  method Descendants(ps: seq<Popup>, top: nat) returns (removed: set<nat>)
    ensures forall tab :: tab in removed <==> Below(ps, top, tab)
  {
    hide Below;
    assert Below(ps, top, top) by { TopIsBelow(ps, top); }
    removed := {top};
    ghost var all := {top} + set i | 0 <= i < |ps| :: ps[i].tab;
    var changed := true;
    while changed
      invariant top in removed && removed <= all
      invariant forall tab :: tab in removed ==> Below(ps, top, tab)
      invariant !changed ==> Closed(ps, removed)
      decreases all - removed, changed
    {
      changed := false;
      ghost var before := removed;
      for i := 0 to |ps|
        invariant top in removed && before <= removed <= all
        invariant forall tab :: tab in removed ==> Below(ps, top, tab)
        invariant if changed then removed != before
                  else removed == before && forall j :: 0 <= j < i && ps[j].parent in removed ==> ps[j].tab in removed
      {
        var node := ps[i];
        if node.parent in removed && node.tab !in removed {
          ChildIsBelow(ps, top, i);
          removed := removed + {node.tab};
          changed := true;
        }
      }
    }
    forall tab | Below(ps, top, tab) ensures tab in removed { BelowIsIn(ps, removed, top, tab); }
  }

  lemma TopIsBelow(ps: seq<Popup>, top: nat)
    ensures Below(ps, top, top)
  {
    assert Reaches(ps, top, top, 0);
  }

  lemma BelowIsIn(ps: seq<Popup>, tabs: set<nat>, top: nat, tab: nat)
    requires Closed(ps, tabs) && top in tabs && Below(ps, top, tab)
    ensures tab in tabs
  {
    var d: nat :| Reaches(ps, top, tab, d);
    ClosedHasAllBelow(ps, tabs, top, tab, d);
  }

  // ------------------------------------------------------------- children before parents

  function Within(ps: seq<Popup>, tabs: set<nat>): seq<Popup> {
    if ps == [] then [] else (if ps[0].tab in tabs then [ps[0]] else []) + Within(ps[1..], tabs)
  }

  function Without(ps: seq<Popup>, tabs: set<nat>): seq<Popup> {
    if ps == [] then [] else (if ps[0].tab in tabs then [] else [ps[0]]) + Without(ps[1..], tabs)
  }

  ghost predicate Distinct(ps: seq<Popup>) {
    forall i, j :: 0 <= i < j < |ps| ==> ps[i].tab != ps[j].tab && ps[i].session != ps[j].session
  }

  /** A popup is inserted after the one that opened it. */
  ghost predicate Ordered(ps: seq<Popup>) {
    forall i, j :: 0 <= i <= j < |ps| ==> ps[i].parent != ps[j].tab
  }

  /** No popup is removed before a popup it opened. */
  ghost predicate ChildrenFirst(out: seq<Popup>) {
    forall i, j :: 0 <= i <= j < |out| ==> out[j].parent != out[i].tab
  }

  predicate Childless(ps: seq<Popup>, i: nat)
    requires i < |ps|
  {
    forall j :: 0 <= j < |ps| ==> ps[j].parent != ps[i].tab
  }

  lemma {:induction false} WithinMembers(ps: seq<Popup>, tabs: set<nat>)
    ensures forall c :: c in Within(ps, tabs) <==> c in ps && c.tab in tabs
  {
    if ps != [] {
      WithinMembers(ps[1..], tabs);
      assert ps == [ps[0]] + ps[1..];
    }
  }

  lemma {:induction false} WithinIs(ps: seq<Popup>, tabs: set<nat>)
    ensures forall c :: c in Within(ps, tabs) <==> c in ps && c.tab in tabs
    ensures Distinct(ps) ==> Distinct(Within(ps, tabs))
    ensures Ordered(ps) ==> Ordered(Within(ps, tabs))
  {
    WithinMembers(ps, tabs);
    if ps != [] {
      WithinIs(ps[1..], tabs);
      TailKeeps(ps);
      if ps[0].tab in tabs { HeadKeeps(ps, Within(ps[1..], tabs)); }
      assert [] + Within(ps[1..], tabs) == Within(ps[1..], tabs);
    }
  }

  lemma TailKeeps(ps: seq<Popup>)
    requires ps != []
    ensures Distinct(ps) ==> Distinct(ps[1..])
    ensures Ordered(ps) ==> Ordered(ps[1..])
  {
  }

  lemma HeadKeeps(ps: seq<Popup>, rest: seq<Popup>)
    requires ps != [] && forall c :: c in rest ==> c in ps[1..]
    ensures Distinct(ps) && Distinct(rest) ==> Distinct([ps[0]] + rest)
    ensures Ordered(ps) && Ordered(rest) ==> Ordered([ps[0]] + rest)
  {
    forall i | 0 <= i < |rest| ensures exists j :: 0 < j < |ps| && rest[i] == ps[j] {
      assert rest[i] in ps[1..];
      var j :| 0 <= j < |ps[1..]| && ps[1..][j] == rest[i];
      assert ps[j + 1] == rest[i];
    }
  }

  function At(ps: seq<Popup>, i: nat): seq<Popup>
    requires i < |ps|
  {
    ps[..i] + ps[i + 1..]
  }

  /** findIndex: the first popup that no other has as its parent; it never misses. */
  method FirstChildless(ps: seq<Popup>) returns (index: nat)
    requires ps != [] && Ordered(ps)
    ensures index < |ps| && Childless(ps, index)
    ensures forall i :: 0 <= i < index ==> !Childless(ps, i)
  {
    assert Childless(ps, |ps| - 1);
    index := 0;
    while !Childless(ps, index)
      invariant index < |ps|
      invariant forall i :: 0 <= i < index ==> !Childless(ps, i)
      decreases |ps| - index
    {
      index := index + 1;
    }
  }

  lemma SpliceKeeps(ps: seq<Popup>, i: nat)
    requires i < |ps|
    ensures Ordered(ps) ==> Ordered(At(ps, i))
    ensures Distinct(ps) ==> Distinct(At(ps, i)) && forall j :: 0 <= j < |At(ps, i)| ==> At(ps, i)[j].tab != ps[i].tab
    ensures multiset(At(ps, i)) == multiset(ps) - multiset{ps[i]}
  {
    assert ps == ps[..i] + [ps[i]] + ps[i + 1..];
    forall j | 0 <= j < |At(ps, i)| ensures At(ps, i)[j] == ps[if j < i then j else j + 1] {}
  }

  /** None of those out is the parent of one still in. */
  ghost predicate NoneBefore(out: seq<Popup>, retiring: seq<Popup>) {
    forall i, j :: 0 <= i < |out| && 0 <= j < |retiring| ==> retiring[j].parent != out[i].tab
  }

  lemma OneOut(out: seq<Popup>, retiring: seq<Popup>, index: nat)
    requires index < |retiring| && Childless(retiring, index)
    requires NoneBefore(out, retiring) && ChildrenFirst(out)
    ensures NoneBefore(out + [retiring[index]], At(retiring, index)) && ChildrenFirst(out + [retiring[index]])
  {
    var rest := At(retiring, index);
    forall j | 0 <= j < |rest| ensures rest[j] == retiring[if j < index then j else j + 1] {}
  }

  /** The removal loop: all of them, each before the popup that opened it. */
  method ChildrenFirstOrder(ps: seq<Popup>) returns (out: seq<Popup>)
    requires Ordered(ps) && Distinct(ps)
    ensures multiset(out) == multiset(ps) && ChildrenFirst(out)
  {
    hide Ordered, Distinct, ChildrenFirst, NoneBefore, Childless;
    var retiring := ps;
    out := [];
    NoneOut(ps);
    while retiring != []
      invariant Ordered(retiring) && Distinct(retiring)
      invariant ChildrenFirst(out) && NoneBefore(out, retiring)
      invariant multiset(out) + multiset(retiring) == multiset(ps)
      decreases |retiring|
    {
      var index := FirstChildless(retiring);
      SpliceKeeps(retiring, index);
      OneOut(out, retiring, index);
      var node := retiring[index];
      retiring := retiring[..index] + retiring[index + 1..];
      out := out + [node];
    }
    assert retiring == [];
  }

  lemma NoneOut(ps: seq<Popup>)
    ensures ChildrenFirst([]) && NoneBefore([], ps)
  {
  }

  // ----------------------------------------------------------------- one popup retired

  function DropSession(ps: seq<Popup>, session: nat): seq<Popup> {
    if ps == [] then [] else (if ps[0].session == session then [] else [ps[0]]) + DropSession(ps[1..], session)
  }

  function DropAll(ps: seq<Popup>, out: seq<Popup>): seq<Popup> {
    if out == [] then ps else DropSession(DropAll(ps, out[..|out| - 1]), out[|out| - 1].session)
  }

  /** Deleting each retired session leaves the popups that are not retired, in order. */
  lemma {:induction false} DropAllIs(ps: seq<Popup>, out: seq<Popup>)
    requires Distinct(ps) && forall i :: 0 <= i < |out| ==> out[i] in ps
    ensures DropAll(ps, out) == Without(ps, TabsOf(out))
  {
    if out == [] {
      assert TabsOf(out) == {};
      NoneToDrop(ps);
    } else {
      var front, last := out[..|out| - 1], out[|out| - 1];
      DropAllIs(ps, front);
      DropOne(ps, TabsOf(front), last);
      assert TabsOf(out) == TabsOf(front) + {last.tab};
    }
  }

  function TabsOf(ps: seq<Popup>): set<nat> { set i | 0 <= i < |ps| :: ps[i].tab }

  lemma TabsGrow(ps: seq<Popup>, p: Popup)
    ensures TabsOf(ps + [p]) == TabsOf(ps) + {p.tab}
  {
    forall t | t in TabsOf(ps) + {p.tab} ensures t in TabsOf(ps + [p]) {
      if t in TabsOf(ps) {
        var i :| 0 <= i < |ps| && ps[i].tab == t;
        assert (ps + [p])[i].tab == t;
      } else {
        assert (ps + [p])[|ps|].tab == t;
      }
    }
  }

  lemma FewerTabs(ps: seq<Popup>, n: nat)
    requires n <= |ps|
    ensures TabsOf(ps[..n]) <= TabsOf(ps)
  {
    forall t | t in TabsOf(ps[..n]) ensures t in TabsOf(ps) {
      var i :| 0 <= i < n && ps[..n][i].tab == t;
      assert ps[i].tab == t;
    }
  }

  lemma {:induction false} NoneToDrop(ps: seq<Popup>)
    ensures Without(ps, {}) == ps
  {
    if ps != [] { NoneToDrop(ps[1..]); }
  }

  lemma {:induction false} DropOne(ps: seq<Popup>, tabs: set<nat>, node: Popup)
    requires forall i :: 0 <= i < |ps| ==> (ps[i].session == node.session <==> ps[i].tab == node.tab)
    ensures DropSession(Without(ps, tabs), node.session) == Without(ps, tabs + {node.tab})
  {
    if ps != [] {
      DropOne(ps[1..], tabs, node);
      var rest := Without(ps[1..], tabs);
      assert [] + rest == rest && ([ps[0]] + rest)[1..] == rest;
    }
  }

  lemma SameTabs(a: seq<Popup>, b: seq<Popup>)
    requires multiset(a) == multiset(b)
    ensures TabsOf(a) == TabsOf(b)
    ensures forall i :: 0 <= i < |a| ==> a[i] in b
  {
    forall c | c in a ensures c in b { assert c in multiset(a); }
    forall c | c in b ensures c in a { assert c in multiset(b); }
    forall t ensures t in TabsOf(a) <==> t in TabsOf(b) {
      if t in TabsOf(a) {
        var i :| 0 <= i < |a| && a[i].tab == t;
        assert a[i] in b;
      }
      if t in TabsOf(b) {
        var i :| 0 <= i < |b| && b[i].tab == t;
        assert b[i] in a;
      }
    }
  }

  lemma {:induction false} WithoutSame(ps: seq<Popup>, some: set<nat>, other: set<nat>)
    requires forall i :: 0 <= i < |ps| ==> (ps[i].tab in some <==> ps[i].tab in other)
    ensures Without(ps, some) == Without(ps, other)
  {
    if ps != [] { WithoutSame(ps[1..], some, other); }
  }

  /** A popup goes with all that descend from it and nothing else, children first; the
      popups that stay keep their order. */
  method RetireTree(ps: seq<Popup>, top: nat) returns (left: seq<Popup>, out: seq<Popup>, ghost removed: set<nat>)
    requires Distinct(ps) && Ordered(ps)
    ensures forall tab :: tab in removed <==> Below(ps, top, tab)
    ensures left == Without(ps, removed)
    ensures multiset(out) == multiset(Within(ps, removed)) && ChildrenFirst(out)
  {
    hide Below, Distinct, Ordered, ChildrenFirst, Without, Within;
    var gone := Descendants(ps, top);
    removed := gone;
    WithinIs(ps, gone);
    out := ChildrenFirstOrder(Within(ps, gone));
    SameTabs(out, Within(ps, gone));
    left := ps;
    for i := 0 to |out|
      invariant left == DropAll(ps, out[..i])
    {
      assert out[..i + 1][..i] == out[..i];
      left := DropSession(left, out[i].session);
    }
    assert out[..|out|] == out;
    InPopups(ps, gone, out);
    DropAllIs(ps, out);
    WithoutSame(ps, TabsOf(out), gone);
  }

  lemma InPopups(ps: seq<Popup>, tabs: set<nat>, out: seq<Popup>)
    requires multiset(out) == multiset(Within(ps, tabs))
    ensures forall i :: 0 <= i < |out| ==> out[i] in ps
    ensures forall i :: 0 <= i < |ps| ==> (ps[i].tab in TabsOf(out) <==> ps[i].tab in tabs)
  {
    hide Within, Distinct, Ordered;
    WithinIs(ps, tabs);
    SameTabs(out, Within(ps, tabs));
    forall i | 0 <= i < |out| ensures out[i] in ps && out[i].tab in tabs {
      assert out[i] in Within(ps, tabs);
    }
    forall i | 0 <= i < |ps| && ps[i].tab in tabs ensures ps[i].tab in TabsOf(out) {
      assert ps[i] in Within(ps, tabs);
      assert ps[i].tab in TabsOf(Within(ps, tabs));
    }
  }

  // ------------------------------------------------------------------------ one chain

  /** Each popup was opened by the one before it, the first by the grant's tab. */
  ghost predicate PopupChain(ps: seq<Popup>, root: nat) {
    && Distinct(ps)
    && (forall i :: 0 <= i < |ps| ==> ps[i].tab != root)
    && (forall i {:trigger Opener(ps, root, i)} :: 0 <= i < |ps| ==> ps[i].parent == Opener(ps, root, i))
  }

  function Opener(ps: seq<Popup>, root: nat, i: nat): nat
    requires i <= |ps|
  {
    if i == 0 then root else ps[i - 1].tab
  }

  lemma ChainIsOrdered(ps: seq<Popup>, root: nat)
    requires PopupChain(ps, root)
    ensures Ordered(ps)
  {
    forall i, j | 0 <= i <= j < |ps| ensures ps[i].parent != ps[j].tab {
      assert ps[i].parent == Opener(ps, root, i);
    }
  }

  lemma ChainPrefix(ps: seq<Popup>, root: nat, k: nat)
    requires PopupChain(ps, root) && k <= |ps|
    ensures PopupChain(ps[..k], root) && Opener(ps[..k], root, k) == Opener(ps, root, k)
    ensures k < |ps| ==> ps[k].parent == Opener(ps, root, k)
  {
    forall i {:trigger Opener(ps[..k], root, i)} | 0 <= i < k ensures ps[..k][i].parent == Opener(ps[..k], root, i) {
      assert Opener(ps[..k], root, i) == Opener(ps, root, i);
    }
    if k < |ps| { assert ps[k].parent == Opener(ps, root, k); }
  }

  lemma OpenerOfPrefix(ps: seq<Popup>, root: nat, k: nat)
    requires k <= |ps|
    ensures Opener(ps[..k], root, k) == Opener(ps, root, k)
  {
  }

  lemma ChainParts(ps: seq<Popup>, root: nat)
    requires PopupChain(ps, root)
    ensures Distinct(ps)
  {
  }

  lemma ChainGrows(ps: seq<Popup>, root: nat, p: Popup)
    requires PopupChain(ps, root) && p.parent == Opener(ps, root, |ps|) && p.tab != root
    requires forall i :: 0 <= i < |ps| ==> ps[i].tab != p.tab && ps[i].session != p.session
    ensures PopupChain(ps + [p], root) && Opener(ps + [p], root, |ps|) == Opener(ps, root, |ps|)
  {
    var next := ps + [p];
    forall i {:trigger Opener(next, root, i)} | 0 <= i < |next| ensures next[i].parent == Opener(next, root, i) {
      assert Opener(next, root, i) == Opener(ps, root, i);
    }
  }

  /** The last popup is now attached. */
  function Readied(ps: seq<Popup>): seq<Popup>
    requires ps != []
  {
    ps[|ps| - 1 := ps[|ps| - 1].(ready := true)]
  }

  lemma SameTabsReadied(ps: seq<Popup>)
    ensures ps != [] ==> TabsOf(Readied(ps)) == TabsOf(ps)
  {
    if ps != [] {
      forall i | 0 <= i < |ps| ensures Readied(ps)[i].tab == ps[i].tab {}
    }
  }

  lemma ChainReadied(ps: seq<Popup>, root: nat)
    requires PopupChain(ps, root) && ps != []
    ensures PopupChain(Readied(ps), root)
  {
    var next := Readied(ps);
    forall i {:trigger Opener(next, root, i)} | 0 <= i < |next| ensures next[i].parent == Opener(next, root, i) {
      assert Opener(next, root, i) == Opener(ps, root, i);
    }
  }

  lemma {:induction false} BelowInChain(ps: seq<Popup>, root: nat, k: nat, tab: nat, d: nat)
    requires PopupChain(ps, root) && k < |ps| && Reaches(ps, ps[k].tab, tab, d)
    ensures exists i :: k <= i < |ps| && ps[i].tab == tab
    decreases d
  {
    if d > 0 {
      var i :| 0 <= i < |ps| && ps[i].tab == tab && Reaches(ps, ps[k].tab, ps[i].parent, d - 1);
      BelowInChain(ps, root, k, ps[i].parent, d - 1);
      assert ps[i].parent == Opener(ps, root, i);
    }
  }

  lemma {:induction false} RestIsBelow(ps: seq<Popup>, root: nat, k: nat, i: nat)
    requires PopupChain(ps, root) && k <= i < |ps|
    ensures Below(ps, ps[k].tab, ps[i].tab)
    decreases i
  {
    if i == k {
      TopIsBelow(ps, ps[k].tab);
    } else {
      RestIsBelow(ps, root, k, i - 1);
      assert ps[i].parent == Opener(ps, root, i);
      ChildIsBelow(ps, ps[k].tab, i);
    }
  }

  /** On a chain, retiring a popup keeps exactly the part before it. */
  lemma ChainRetires(ps: seq<Popup>, root: nat, k: nat, removed: set<nat>)
    requires PopupChain(ps, root) && k < |ps|
    requires forall tab :: tab in removed <==> Below(ps, ps[k].tab, tab)
    ensures Without(ps, removed) == ps[..k] && Within(ps, removed) == ps[k..]
  {
    hide Without, Within, PopupChain;
    forall i | 0 <= i < |ps| ensures ps[i].tab in removed <==> i >= k {
      if i >= k {
        RestIsBelow(ps, root, k, i);
      } else if Below(ps, ps[k].tab, ps[i].tab) {
        NotBelow(ps, root, k, i);
      }
    }
    SplitAt(ps, removed, k);
  }

  lemma NotBelow(ps: seq<Popup>, root: nat, k: nat, i: nat)
    requires PopupChain(ps, root) && i < k < |ps|
    ensures !Below(ps, ps[k].tab, ps[i].tab)
  {
    if Below(ps, ps[k].tab, ps[i].tab) {
      var d: nat :| Reaches(ps, ps[k].tab, ps[i].tab, d);
      BelowInChain(ps, root, k, ps[i].tab, d);
    }
  }

  lemma {:induction false} SplitAt(ps: seq<Popup>, tabs: set<nat>, k: nat)
    requires k <= |ps| && forall i :: 0 <= i < |ps| ==> (ps[i].tab in tabs <==> i >= k)
    ensures Without(ps, tabs) == ps[..k] && Within(ps, tabs) == ps[k..]
  {
    if ps != [] {
      SplitAt(ps[1..], tabs, if k == 0 then 0 else k - 1);
      if k > 0 { assert ps[..k] == [ps[0]] + ps[1..][..k - 1]; }
    }
  }

  method IndexOfTab(ps: seq<Popup>, tab: nat) returns (k: nat)
    ensures k <= |ps| && (k < |ps| ==> ps[k].tab == tab)
    ensures forall i :: 0 <= i < k ==> ps[i].tab != tab
  {
    k := 0;
    while k < |ps| && ps[k].tab != tab
      invariant k <= |ps| && forall i :: 0 <= i < k ==> ps[i].tab != tab
    {
      k := k + 1;
    }
  }

  // -------------------------------------------------------------------- a grant's tab

  /** The attach in flight: of this popup, opened by that tab. */
  datatype Attach = Attach(popup: Popup, failed: bool)

  class GrantTab {
    const tabId: nat
    var popups: seq<Popup>
    /** leafTabId, or the grant's own tab. */
    var leaf: nat
    var attaching: Option<Attach>
    /** The grant's own page has its target. */
    var found: bool

    /** The attached popups are one chain from the tab to the leaf; one more, the last,
        may be attaching at the leaf. */
    ghost predicate Valid()
      reads this
    {
      && PopupChain(popups, tabId) && |popups| <= MAX_POPUPS
      && var m := Attached();
         && (forall i :: 0 <= i < m ==> popups[i].ready)
         && leaf == Opener(popups, tabId, m)
         && (m < |popups| ==> attaching.Some? && attaching.value.popup == popups[m])
         && (attaching.Some? ==> !attaching.value.popup.ready)
    }

    /** How many popups are attached: all, or all but the last. */
    function Attached(): nat
      reads this
    {
      if popups != [] && !popups[|popups| - 1].ready then |popups| - 1 else |popups|
    }

    constructor (tabId: nat)
      ensures Valid() && popups == [] && leaf == tabId && this.tabId == tabId && attaching == None && !found
    {
      this.tabId, popups, leaf, attaching, found := tabId, [], tabId, None, false;
    }

    method OwnTarget()
      requires Valid()
      modifies this`found
      ensures Valid() && found
    {
      found := true;
    }

    /** A popup of this page would be taken: it is the leaf and has its target, none is
        being attached, and there is room. */
    predicate Accepts(source: nat)
      reads this
    {
      source == leaf && (leaf == tabId ==> found) && attaching.None? && |popups| < MAX_POPUPS
    }

    /** That is: it is the last page of the chain, all of it attached. */
    lemma AcceptsIff(source: nat)
      requires Valid()
      ensures Accepts(source) <==>
              && attaching.None? && |popups| < 8 && (forall p :: p in popups ==> p.ready)
              && source == (if popups == [] then tabId else popups[|popups| - 1].tab) && (source == tabId ==> found)
    {
      hide PopupChain;
      if Accepts(source) { forall p | p in popups ensures p.ready {} }
    }

    /** A page of the grant opened a tab. It is taken only from the leaf, one at a time,
        eight at most, and when no grant has the tab. */
    method OnCreatedNavigationTarget(tab: nat, source: nat, session: nat, taken: bool)
      requires Valid()
      requires tab == tabId || (exists i :: 0 <= i < |popups| && popups[i].tab == tab) ==> taken
      requires forall i :: 0 <= i < |popups| ==> popups[i].session != session
      modifies this
      ensures Valid() && leaf == old(leaf) && found == old(found)
      ensures if !taken && old(attaching).None? && |old(popups)| < 8 && (forall p :: p in old(popups) ==> p.ready)
                 && source == (if old(popups) == [] then tabId else old(popups)[|old(popups)| - 1].tab) && (source == tabId ==> old(found))
              then popups == old(popups) + [Popup(session, tab, source, false)] && attaching == Some(Attach(popups[|popups| - 1], false))
              else popups == old(popups) && attaching == old(attaching)
    {
      hide PopupChain;
      AcceptsIff(source);
      if !Accepts(source) || taken { return; }
      var popup := Popup(session, tab, leaf, false);
      ChainGrows(popups, tabId, popup);
      popups, attaching := popups + [popup], Some(Attach(popup, false));
    }

    /** The attach found its target: the popup is the new leaf, if the grant is still ON,
        the popup is still one of its and the opener is still the leaf. */
    method AttachDone(on: bool) returns (ok: bool)
      requires Valid() && attaching.Some? && !attaching.value.failed
      modifies this
      ensures Valid() && found == old(found)
      ensures ok <==> on && |old(popups)| > old(Attached())
      ensures ok ==> popups == Readied(old(popups))
      ensures ok ==> leaf == popups[|popups| - 1].tab && Attached() == |popups| && attaching == None
      ensures !ok ==> popups == old(popups) && leaf == old(leaf) && attaching.Some? && attaching.value.failed
    {
      hide PopupChain;
      var a := attaching.value;
      var n := |popups|;
      ok := on && n > 0 && popups[n - 1] == a.popup && a.popup.parent == leaf;
      if n > 0 { ChainPrefix(popups, tabId, n - 1); }
      if !ok {
        attaching := Some(a.(failed := true));
        return;
      }
      ChainReadied(popups, tabId);
      popups, leaf, attaching := Readied(popups), a.popup.tab, None;
    }

    /** It failed, and was detached: the popup goes, and another may be taken. */
    method AttachFailed()
      requires Valid() && attaching.Some?
      modifies this
      ensures Valid() && leaf == old(leaf) && attaching == None && popups == old(popups)[..old(Attached())]
      ensures found == old(found)
    {
      hide PopupChain;
      var n := |popups|;
      ChainPrefix(popups, tabId, Attached());
      if n > 0 && popups[n - 1] == attaching.value.popup { popups := popups[..n - 1]; }
      attaching := None;
    }

    /** A popup's debugger or tab is gone: it and the popups after it are retired, the
        last first, and its opener is the leaf again. */
    method RetireDebugger(tab: nat) returns (sent: seq<Popup>)
      requires Valid() && tab != tabId
      modifies this`popups, this`leaf
      ensures Valid() && attaching == old(attaching)
      ensures ChildrenFirst(sent) && popups <= old(popups)
      ensures multiset(sent) == multiset(old(popups)[|popups|..])
      ensures forall k :: 0 <= k < |old(popups)| && old(popups)[k].tab == tab ==>
                |popups| == k && leaf == Opener(old(popups), tabId, k)
      ensures (forall k :: 0 <= k < |old(popups)| ==> old(popups)[k].tab != tab) ==>
                popups == old(popups) && leaf == old(leaf) && sent == []
    {
      hide PopupChain, Ordered, ChildrenFirst, Below, Without, Within, Distinct;
      var k := IndexOfTab(popups, tab);
      NoneOut(popups);
      if k == |popups| { return []; }
      ChainIsOrdered(popups, tabId);
      ChainParts(popups, tabId);
      ChainPrefix(popups, tabId, k);
      var popup := popups[k];
      var left, out, removed := RetireTree(popups, tab);
      ChainRetires(popups, tabId, k, removed);
      OpenerOfPrefix(popups, tabId, k);
      popups, sent, leaf := left, out, popup.parent;
    }
  }
}
