/** The live session counts of URL connections: the two count helpers, and their
    agreement with the tabs and panes that are open, over every run of store actions. */
module SessionCounts {
  import opened Basics
  import opened Workspace
  import opened WorkspaceInvariant

  function CountOf(counts: map<string, nat>, id: string): nat {
    if id in counts then counts[id] else 0
  }

  function Occurs(ids: seq<string>, id: string): nat {
    if ids == [] then 0 else (if ids[0] == id then 1 else 0) + Occurs(ids[1..], id)
  }

  predicate Positive(counts: map<string, nat>) {
    forall id :: id in counts ==> counts[id] >= 1
  }

  // ------------------------------------------------------------------
  // The helpers
  // ------------------------------------------------------------------

  method IncrementActiveSessionCounts(counts: map<string, nat>, ids: seq<string>) returns (next: map<string, nat>)
    ensures next == Incremented(counts, ids)
  {
    if |ids| == 0 { return counts; }
    next := counts;
    for i := 0 to |ids|
      invariant Incremented(next, ids[i..]) == Incremented(counts, ids)
    {
      assert ids[i..][1..] == ids[i + 1..];
      next := next[ids[i] := (if ids[i] in next then next[ids[i]] else 0) + 1];
    }
    assert ids[|ids|..] == [];
  }

  method DecrementActiveSessionCounts(counts: map<string, nat>, ids: seq<string>) returns (next: map<string, nat>)
    ensures next == Decremented(counts, ids)
  {
    if |ids| == 0 { return counts; }
    next := counts;
    for i := 0 to |ids|
      invariant Decremented(next, ids[i..]) == Decremented(counts, ids)
    {
      assert ids[i..][1..] == ids[i + 1..];
      var current := if ids[i] in next then next[ids[i]] else 0;
      if current <= 1 {
        next := next - {ids[i]};
      } else {
        next := next[ids[i] := current - 1];
      }
    }
    assert ids[|ids|..] == [];
  }

  /** Incrementing is adding the ids as a bag. */
  lemma {:induction false} IncrementAdds(counts: map<string, nat>, ids: seq<string>, id: string)
    ensures CountOf(Incremented(counts, ids), id) == CountOf(counts, id) + Occurs(ids, id)
    ensures Positive(counts) ==> Positive(Incremented(counts, ids))
    decreases |ids|
  {
    if ids != [] {
      IncrementAdds(counts[ids[0] := (if ids[0] in counts then counts[ids[0]] else 0) + 1], ids[1..], id);
    }
  }

  /** Decrementing takes the ids away as a bag, stopping at zero; no zero is stored. */
  lemma {:induction false} DecrementRemoves(counts: map<string, nat>, ids: seq<string>, id: string)
    ensures CountOf(Decremented(counts, ids), id) ==
            if CountOf(counts, id) <= Occurs(ids, id) then 0 else CountOf(counts, id) - Occurs(ids, id)
    ensures Positive(counts) ==> Positive(Decremented(counts, ids))
    decreases |ids|
  {
    if ids != [] {
      var current := CountOf(counts, ids[0]);
      DecrementRemoves(if current <= 1 then counts - {ids[0]} else counts[ids[0] := current - 1], ids[1..], id);
    }
  }

  lemma {:induction false} OccursIsMultiplicity(ids: seq<string>, id: string)
    ensures Occurs(ids, id) == multiset(ids)[id]
  {
    if ids != [] {
      assert ids == [ids[0]] + ids[1..];
      OccursIsMultiplicity(ids[1..], id);
    }
  }

  // ------------------------------------------------------------------
  // What is open
  // ------------------------------------------------------------------

  lemma {:induction false} OccursConcat(a: seq<string>, b: seq<string>, id: string)
    ensures Occurs(a + b, id) == Occurs(a, id) + Occurs(b, id)
  {
    if a == [] {
      assert a + b == b;
    } else {
      assert (a + b)[1..] == a[1..] + b;
      OccursConcat(a[1..], b, id);
    }
  }

  lemma {:induction false} PaneUrlsOccur(panes: seq<Pane>, id: string)
    ensures Occurs(PaneUrls(panes), id) == PaneSum(panes, PaneHolds, id)
  {
    if panes != [] {
      var head := if HoldsUrl(panes[0]) then [panes[0].connection.id] else [];
      OccursConcat(head, PaneUrls(panes[1..]), id);
      PaneUrlsOccur(panes[1..], id);
    }
  }

  lemma TabUrlsOccur(tab: Tab, id: string)
    ensures Occurs(UrlConnectionIds(tab), id) == UrlsHeld(tab, id)
  {
    PaneUrlsOccur(tab.panes, id);
  }

  lemma {:induction false} UrlsOccur(tabs: seq<Tab>, id: string)
    ensures Occurs(UrlsOfTabs(tabs), id) == Sum(tabs, UrlsHeld, id)
  {
    if tabs != [] {
      OccursConcat(UrlConnectionIds(tabs[0]), UrlsOfTabs(tabs[1..]), id);
      TabUrlsOccur(tabs[0], id);
      UrlsOccur(tabs[1..], id);
    }
  }

  /** The stored counts say exactly how many open tabs and panes hold each connection. */
  ghost predicate Counted(s: State) {
    Positive(s.counts) && forall id :: CountOf(s.counts, id) == Sum(s.tabs, UrlsHeld, id)
  }

  /** In other words, they are the multiset of URL connection ids held open. */
  lemma CountedIsMultiset(s: State, id: string)
    requires Counted(s)
    ensures CountOf(s.counts, id) == multiset(UrlsOfTabs(s.tabs))[id]
    ensures id in s.counts <==> id in multiset(UrlsOfTabs(s.tabs))
  {
    UrlsOccur(s.tabs, id);
    OccursIsMultiplicity(UrlsOfTabs(s.tabs), id);
  }

  // ------------------------------------------------------------------
  // One action
  // ------------------------------------------------------------------

  /** What an action opens or closes, per connection. */
  ghost predicate Grew(s: State, t: State, ids: seq<string>) {
    t.counts == Incremented(s.counts, ids) &&
    forall id :: Sum(t.tabs, UrlsHeld, id) == Sum(s.tabs, UrlsHeld, id) + Occurs(ids, id)
  }

  ghost predicate Shrank(s: State, t: State, ids: seq<string>) {
    t.counts == Decremented(s.counts, ids) &&
    forall id :: Sum(s.tabs, UrlsHeld, id) == Sum(t.tabs, UrlsHeld, id) + Occurs(ids, id)
  }

  lemma GrewCounted(s: State, t: State, ids: seq<string>)
    requires Counted(s) && Grew(s, t, ids)
    ensures Counted(t)
  {
    forall id ensures CountOf(t.counts, id) == Sum(t.tabs, UrlsHeld, id) { IncrementAdds(s.counts, ids, id); }
    IncrementAdds(s.counts, ids, "");
  }

  lemma ShrankCounted(s: State, t: State, ids: seq<string>)
    requires Counted(s) && Shrank(s, t, ids)
    ensures Counted(t)
  {
    forall id ensures CountOf(t.counts, id) == Sum(t.tabs, UrlsHeld, id) { DecrementRemoves(s.counts, ids, id); }
    DecrementRemoves(s.counts, ids, "");
  }

  lemma AddTabGrew(s: State, tab: Tab, ids: seq<string>)
    requires forall id :: Occurs(ids, id) == UrlsHeld(tab, id)
    ensures Grew(s, AddTab(s, tab, ids), ids)
  {
    forall id ensures Sum(s.tabs + [tab], UrlsHeld, id) == Sum(s.tabs, UrlsHeld, id) + Occurs(ids, id) {
      SumConcat(s.tabs, [tab], UrlsHeld, id);
      assert [tab][1..] == [];
    }
  }

  /** The counts grow by what the new tab holds, if there is one. */
  predicate Increments(s: State, t: State) {
    match AddedTab(s, t)
    case None => t.counts == s.counts
    case Some(tab) => t.tabs == s.tabs + [tab] && t.counts == Incremented(s.counts, UrlConnectionIds(tab))
  }

  lemma UrlIncrements(s: State, a: Action)
    requires a.OpenUrl? || a.OpenUrlTab?
    ensures Increments(s, Apply(s, a))
  {
  }

  lemma DesktopIncrements(s: State, a: Action)
    requires a.OpenDesktop?
    ensures Increments(s, Apply(s, a))
  {
    var pane := Pane(a.paneId, RemoteDesktopPane, a.c, "", a.fullscreen);
    assert PaneUrls([pane]) == [] by { assert [pane][1..] == []; }
  }

  lemma NewTabIncrements(s: State, a: Action)
    requires a.OpenNewTab?
    ensures Increments(s, Apply(s, a))
  {
  }

  lemma PanoramaIncrements(s: State, a: Action)
    requires a.Panorama?
    ensures Increments(s, Apply(s, a))
  {
  }

  lemma OpenIncrements(s: State, a: Action)
    requires IsOpen(a)
    ensures Increments(s, Apply(s, a))
  {
    if a.OpenDesktop? {
      DesktopIncrements(s, a);
    } else if a.OpenNewTab? {
      NewTabIncrements(s, a);
    } else if a.Panorama? {
      PanoramaIncrements(s, a);
    } else {
      UrlIncrements(s, a);
    }
  }

  /** An opening action opens what its new tab holds, or changes neither tabs nor counts. */
  lemma OpenCounted(s: State, a: Action)
    requires Inv(s.tabs) && Enabled(s, a) && IsOpen(a) && Counted(s)
    ensures Counted(Apply(s, a))
  {
    var t := Apply(s, a);
    OpenedTab(s, a, "");
    match AddedTab(s, t)
    case None =>
    case Some(tab) =>
      var ids := UrlConnectionIds(tab);
      forall id ensures Occurs(ids, id) == UrlsHeld(tab, id) { TabUrlsOccur(tab, id); }
      OpenIncrements(s, a);
      AddTabGrew(s, tab, ids);
      GrewCounted(s, t, ids);
  }

  /** A pane added to a tab adds what it holds; a standalone tab keeps what it held. */
  lemma AddPaneCounted(s: State, i: nat, pane: Option<Pane>, t: State)
    requires Inv(s.tabs) && Counted(s) && i < |s.tabs|
    requires pane.Some? ==> PaneOk(pane.value, s.tabs[i].id) && CurrentPanes(s.tabs[i]) != []
    requires t == s.(tabs := s.tabs[i := WithPane(s.tabs[i], CurrentPanes(s.tabs[i]), pane)],
                     counts := Incremented(s.counts, PaneOpened(pane)))
    ensures Counted(t)
  {
    var tab, panes := s.tabs[i], CurrentPanes(s.tabs[i]);
    var next := WithPane(tab, panes, pane);
    assert TabOk(tab);
    forall id ensures Sum(t.tabs, UrlsHeld, id) == Sum(s.tabs, UrlsHeld, id) + Occurs(PaneOpened(pane), id) {
      SumUpdate(s.tabs, i, next, UrlsHeld, id);
      if pane.Some? {
        OnePane(panes, pane.value, PaneHolds, id);
        if !tab.kind.Terminal? { OnePane([], panes[0], PaneHolds, id); assert panes == [panes[0]]; }
      }
    }
    GrewCounted(s, t, PaneOpened(pane));
  }

  lemma AddPaneActionCounted(s: State, a: Action)
    requires Inv(s.tabs) && Enabled(s, a) && (a.Split? || a.AddConnection?) && Counted(s)
    ensures Counted(Apply(s, a))
  {
    var found := FindTab(s.tabs, a.tabId);
    if found.Some? {
      var i := found.value;
      var tab := s.tabs[i];
      assert a.paneId in NewPaneIds(a);
      var pane := if a.Split? then SplitPane(tab, a.paneId)
                  else if CurrentPanes(tab) == [] then None else BuildPane(a.c, a.paneId, a.child);
      AddPaneCounted(s, i, pane, Apply(s, a));
    }
  }

  lemma {:induction false} OnlyOneClosing(tabs: seq<Tab>, tabId: string, id: string)
    requires Unique(tabs, TabNamed)
    ensures
      Sum(tabs, UrlsHeld, id) == Sum(Filter(tabs, IdIsNot(tabId)), UrlsHeld, id) +
        match FindTab(tabs, tabId) case Some(i) => UrlsHeld(tabs[i], id) case None => 0
  {
    if tabs != [] {
      assert forall n :: Sum(tabs[1..], TabNamed, n) <= Sum(tabs, TabNamed, n);
      if tabs[0].id == tabId {
        assert Sum(tabs, TabNamed, tabId) == 1 + Sum(tabs[1..], TabNamed, tabId);
        NoneNamed(tabs[1..], tabId);
      } else {
        OnlyOneClosing(tabs[1..], tabId, id);
        FilterCons(tabs, IdIsNot(tabId));
      }
    }
  }

  lemma {:induction false} NoneNamed(tabs: seq<Tab>, tabId: string)
    requires Sum(tabs, TabNamed, tabId) == 0
    ensures Filter(tabs, IdIsNot(tabId)) == tabs
  {
    if tabs != [] { NoneNamed(tabs[1..], tabId); }
  }

  lemma CloseTabCounted(s: State, tabId: string)
    requires Inv(s.tabs) && Counted(s)
    ensures Counted(CloseTab(s, tabId))
  {
    var found := FindTab(s.tabs, tabId);
    var ids := if found.Some? then UrlConnectionIds(s.tabs[found.value]) else [];
    forall id ensures Sum(s.tabs, UrlsHeld, id) ==
                      Sum(Filter(s.tabs, IdIsNot(tabId)), UrlsHeld, id) + Occurs(ids, id) {
      OnlyOneClosing(s.tabs, tabId, id);
      if found.Some? { TabUrlsOccur(s.tabs[found.value], id); }
    }
    ShrankCounted(s, CloseTab(s, tabId), ids);
  }

  lemma CloseWorkspaceCounted(s: State, workspace: string, fallback: string)
    requires Counted(s)
    ensures Counted(CloseWorkspaceTabs(s, workspace, fallback))
  {
    var t := CloseWorkspaceTabs(s, workspace, fallback);
    var closing := Filter(s.tabs, IsIn(workspace));
    if !(closing == [] && s.activeWorkspace != workspace) {
      forall id ensures Sum(s.tabs, UrlsHeld, id) == Sum(t.tabs, UrlsHeld, id) + Occurs(UrlsOfTabs(closing), id) {
        SumSplit(s.tabs, IsNotIn(workspace), IsIn(workspace), UrlsHeld, id);
        UrlsOccur(closing, id);
      }
      ShrankCounted(s, t, UrlsOfTabs(closing));
    }
  }

  lemma CloseAllCounted(s: State)
    requires Counted(s)
    ensures Counted(CloseAllTabs(s)) && CloseAllTabs(s).counts == map[]
  {
    forall id ensures Sum(s.tabs, UrlsHeld, id) == Sum([], UrlsHeld, id) + Occurs(UrlsOfTabs(s.tabs), id) {
      UrlsOccur(s.tabs, id);
    }
    ShrankCounted(s, CloseAllTabs(s), UrlsOfTabs(s.tabs));
    var counts := CloseAllTabs(s).counts;
    forall id ensures id !in counts { assert CountOf(counts, id) == Sum([], UrlsHeld, id); }
  }

  lemma {:induction false} WithoutChildSum(tabs: seq<Tab>, child: string, nextFocus: string, id: string)
    requires forall t :: t in tabs ==> TabOk(t)
    ensures
      var (left, closed) := WithoutChildAll(tabs, child, nextFocus);
      Sum(tabs, UrlsHeld, id) == Sum(left, UrlsHeld, id) + Occurs(closed, id)
  {
    if tabs != [] {
      var (left, closed) := WithoutChild(tabs[0], child, nextFocus);
      var (lefts, closeds) := WithoutChildAll(tabs[1..], child, nextFocus);
      WithoutChildSum(tabs[1..], child, nextFocus, id);
      OneWithoutChild(tabs[0], child, nextFocus, id);
      SumConcat(left, lefts, UrlsHeld, id);
      OccursConcat(closed, closeds, id);
    }
  }

  lemma OneWithoutChild(tab: Tab, child: string, nextFocus: string, id: string)
    requires TabOk(tab)
    ensures
      var (left, closed) := WithoutChild(tab, child, nextFocus);
      UrlsHeld(tab, id) == Sum(left, UrlsHeld, id) + Occurs(closed, id)
  {
    var matching := Filter(tab.panes, IsOf(child));
    var (left, closed) := WithoutChild(tab, child, nextFocus);
    PanesSplit(tab.panes, IsOf(child), IsNotOf(child), PaneHolds, id);
    TabUrlsOccur(tab, id);
    TabUrlsOccur(tab.(panes := matching), id);
    if left != [] { assert left[1..] == []; }
  }

  lemma CloseChildCounted(s: State, child: string, nextFocus: string)
    requires Inv(s.tabs) && Counted(s)
    ensures Counted(CloseChild(s, child, nextFocus))
  {
    var (left, closed) := WithoutChildAll(s.tabs, child, nextFocus);
    forall id ensures Sum(s.tabs, UrlsHeld, id) == Sum(left, UrlsHeld, id) + Occurs(closed, id) {
      WithoutChildSum(s.tabs, child, nextFocus, id);
    }
    ShrankCounted(s, CloseChild(s, child, nextFocus), closed);
  }

  lemma ClosePaneCounted(s: State, tabId: string, paneId: string, nextFocus: string)
    requires Inv(s.tabs) && Counted(s)
    ensures Counted(ClosePane(s, tabId, paneId, nextFocus))
  {
    var found := FindTab(s.tabs, tabId);
    if found.Some? && s.tabs[found.value].kind.Terminal? {
      var i, tab := found.value, s.tabs[found.value];
      var closing := FindPane(tab.panes, paneId);
      if closing.Some? && tab.panes[closing.value].child != "" {
        CloseChildCounted(s, tab.panes[closing.value].child, nextFocus);
      } else if |tab.panes| <= 1 {
        CloseTabCounted(s, tabId);
      } else {
        OnePaneClosed(s, i, paneId, ClosePane(s, tabId, paneId, nextFocus));
      }
    }
  }

  lemma OnePaneClosed(s: State, i: nat, paneId: string, t: State)
    requires Inv(s.tabs) && Counted(s) && i < |s.tabs| && s.tabs[i].kind.Terminal?
    requires
      var tab := s.tabs[i];
      var closing := FindPane(tab.panes, paneId);
      && (exists focused :: t.tabs == s.tabs[i := tab.(panes := Filter(tab.panes, PaneIdIsNot(paneId)), focused := focused)])
      && t.counts == Decremented(s.counts, PaneOpened(if closing.Some? then Some(tab.panes[closing.value]) else None))
    ensures Counted(t)
  {
    var tab := s.tabs[i];
    var closing := FindPane(tab.panes, paneId);
    var ids := PaneOpened(if closing.Some? then Some(tab.panes[closing.value]) else None);
    var focused :| t.tabs == s.tabs[i := tab.(panes := Filter(tab.panes, PaneIdIsNot(paneId)), focused := focused)];
    assert TabOk(tab);
    SumAt(s.tabs, i, PanesNamed, paneId);
    forall id ensures Sum(s.tabs, UrlsHeld, id) == Sum(t.tabs, UrlsHeld, id) + Occurs(ids, id) {
      SumUpdate(s.tabs, i, t.tabs[i], UrlsHeld, id);
      RemovePane(tab.panes, paneId, PaneHolds, id);
      if closing.Some? { assert tab.panes[closing.value] in tab.panes; }
    }
    ShrankCounted(s, t, ids);
  }

  lemma RefocusCounted(s: State, t: State)
    requires Counted(s) && t.counts == s.counts && |t.tabs| == |s.tabs|
    requires forall i :: 0 <= i < |s.tabs| ==> t.tabs[i] == s.tabs[i].(focused := t.tabs[i].focused)
    ensures Counted(t)
  {
    forall id ensures Sum(t.tabs, UrlsHeld, id) == Sum(s.tabs, UrlsHeld, id) {
      SumSame(s.tabs, t.tabs, UrlsHeld, id);
    }
  }

  lemma OpenPlainCounted(s: State, a: Action)
    requires a.OpenPlain? && Counted(s)
    ensures Counted(Apply(s, a))
  {
    var t := Apply(s, a);
    if |t.tabs| == |s.tabs| + 1 {
      var tab := t.tabs[|s.tabs|];
      forall id ensures Occurs([], id) == UrlsHeld(tab, id) { PlainHoldNothing(a.c, a.paneIds, id); }
      AddTabGrew(s, tab, []);
      GrewCounted(s, t, []);
    }
  }

  lemma OpenTmuxCounted(s: State, a: Action)
    requires Inv(s.tabs) && Enabled(s, a) && a.OpenTmux? && Counted(s)
    ensures Counted(Apply(s, a))
  {
    var found := FindTab(s.tabs, a.tabId);
    if found.Some? && Apply(s, a) != s {
      assert a.paneId in NewPaneIds(a);
      AddPaneCounted(s, found.value, Some(Pane(a.paneId, PlainPane, a.c, "", false)), Apply(s, a));
    }
  }

  lemma MoveTabCounted(s: State, dragged: string, target: string)
    requires Counted(s)
    ensures Counted(s.(tabs := Reordered(s.tabs, dragged, target)))
  {
    forall id ensures Sum(Reordered(s.tabs, dragged, target), UrlsHeld, id) == Sum(s.tabs, UrlsHeld, id) {
      SumReordered(s.tabs, dragged, target, UrlsHeld, id);
    }
  }

  lemma CountedPreserved(s: State, a: Action)
    requires Inv(s.tabs) && Enabled(s, a) && Counted(s)
    ensures Counted(Apply(s, a))
  {
    if IsOpen(a) {
      OpenCounted(s, a);
    } else if a.Split? || a.AddConnection? {
      AddPaneActionCounted(s, a);
    } else if a.CloseOnePane? {
      ClosePaneCounted(s, a.tabId, a.paneId, a.nextFocus);
    } else if a.CloseChildConnection? {
      CloseChildCounted(s, a.child, a.nextFocus);
    } else if a.CloseOneTab? {
      CloseTabCounted(s, a.tabId);
    } else if a.CloseWorkspace? {
      CloseWorkspaceCounted(s, a.workspace, a.fallback);
    } else if a.CloseAll? {
      CloseAllCounted(s);
    } else if a.Focus? || a.Maximize? || a.ResetLayouts? {
      RefocusCounted(s, Apply(s, a));
    } else if a.OpenPlain? {
      OpenPlainCounted(s, a);
    } else if a.OpenTmux? {
      OpenTmuxCounted(s, a);
    } else if a.MoveTab? {
      MoveTabCounted(s, a.dragged, a.target);
    }
  }
}
