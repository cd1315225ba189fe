/** What every store action keeps of the tabs: ids are unique, standalone tabs hold no
    panes, and webview panes show URL connections. */
module WorkspaceInvariant {
  import opened Basics
  import opened Workspace

  // ------------------------------------------------------------------
  // Counting an id over tabs and panes
  // ------------------------------------------------------------------

  type TabCount = (Tab, string) -> nat
  type PaneCount = (Pane, string) -> nat

  function Sum(tabs: seq<Tab>, f: TabCount, id: string): nat {
    if tabs == [] then 0 else f(tabs[0], id) + Sum(tabs[1..], f, id)
  }

  function PaneSum(panes: seq<Pane>, g: PaneCount, id: string): nat {
    if panes == [] then 0 else g(panes[0], id) + PaneSum(panes[1..], g, id)
  }

  function TabNamed(t: Tab, id: string): nat { if t.id == id then 1 else 0 }

  function PaneNamed(p: Pane, id: string): nat { if p.id == id then 1 else 0 }

  function PaneHolds(p: Pane, id: string): nat { if HoldsUrl(p) && p.connection.id == id then 1 else 0 }

  function PanesNamed(t: Tab, id: string): nat { PaneSum(t.panes, PaneNamed, id) }

  /** How often a tab holds a URL connection open. */
  function UrlsHeld(t: Tab, id: string): nat {
    if t.kind.Webview? && t.connection.Some? && t.connection.value.kind.Url?
    then (if t.connection.value.id == id then 1 else 0)
    else PaneSum(t.panes, PaneHolds, id)
  }

  lemma {:induction false} SumConcat(a: seq<Tab>, b: seq<Tab>, f: TabCount, id: string)
    ensures Sum(a + b, f, id) == Sum(a, f, id) + Sum(b, f, id)
  {
    if a == [] {
      assert a + b == b;
    } else {
      assert (a + b)[1..] == a[1..] + b;
      SumConcat(a[1..], b, f, id);
    }
  }

  lemma {:induction false} SumUpdate(tabs: seq<Tab>, i: nat, tab: Tab, f: TabCount, id: string)
    requires i < |tabs|
    ensures Sum(tabs[i := tab], f, id) == Sum(tabs, f, id) - f(tabs[i], id) + f(tab, id)
  {
    if i == 0 {
      assert tabs[i := tab][1..] == tabs[1..];
    } else {
      assert tabs[i := tab][1..] == tabs[1..][i - 1 := tab];
      SumUpdate(tabs[1..], i - 1, tab, f, id);
    }
  }

  lemma {:induction false} SumSplit(tabs: seq<Tab>, keep: Tab -> bool, drop: Tab -> bool, f: TabCount, id: string)
    requires forall t :: keep(t) != drop(t)
    ensures Sum(tabs, f, id) == Sum(Filter(tabs, keep), f, id) + Sum(Filter(tabs, drop), f, id)
  {
    if tabs != [] {
      SumSplit(tabs[1..], keep, drop, f, id);
      FilterCons(tabs, if keep(tabs[0]) then keep else drop);
    }
  }

  lemma FilterCons<T(!new)>(s: seq<T>, keep: T -> bool)
    requires s != [] && keep(s[0])
    ensures Filter(s, keep) != [] && Filter(s, keep)[0] == s[0] && Filter(s, keep)[1..] == Filter(s[1..], keep)
  {
  }

  lemma {:induction false} SumFilter(tabs: seq<Tab>, keep: Tab -> bool, f: TabCount, id: string)
    ensures Sum(Filter(tabs, keep), f, id) <= Sum(tabs, f, id)
  {
    if tabs != [] {
      SumFilter(tabs[1..], keep, f, id);
      if keep(tabs[0]) { FilterCons(tabs, keep); }
    }
  }

  lemma {:induction false} SumSame(a: seq<Tab>, b: seq<Tab>, f: TabCount, id: string)
    requires |a| == |b| && forall i :: 0 <= i < |a| ==> f(a[i], id) == f(b[i], id)
    ensures Sum(a, f, id) == Sum(b, f, id)
  {
    if a != [] { SumSame(a[1..], b[1..], f, id); }
  }

  lemma {:induction false} SumAt(tabs: seq<Tab>, i: nat, f: TabCount, id: string)
    requires i < |tabs|
    ensures f(tabs[i], id) <= Sum(tabs, f, id)
  {
    if i > 0 { SumAt(tabs[1..], i - 1, f, id); }
  }

  lemma {:induction false} SumAtTwo(tabs: seq<Tab>, i: nat, j: nat, f: TabCount, id: string)
    requires i < j < |tabs|
    ensures f(tabs[i], id) + f(tabs[j], id) <= Sum(tabs, f, id)
  {
    if i == 0 { SumAt(tabs[1..], j - 1, f, id); } else { SumAtTwo(tabs[1..], i - 1, j - 1, f, id); }
  }

  lemma {:induction false} PanesConcat(a: seq<Pane>, b: seq<Pane>, g: PaneCount, id: string)
    ensures PaneSum(a + b, g, id) == PaneSum(a, g, id) + PaneSum(b, g, id)
  {
    if a == [] {
      assert a + b == b;
    } else {
      assert (a + b)[1..] == a[1..] + b;
      PanesConcat(a[1..], b, g, id);
    }
  }

  lemma OnePane(panes: seq<Pane>, pane: Pane, g: PaneCount, id: string)
    ensures PaneSum([pane], g, id) == g(pane, id)
    ensures PaneSum(panes + [pane], g, id) == PaneSum(panes, g, id) + g(pane, id)
  {
    assert [pane][1..] == [];
    PanesConcat(panes, [pane], g, id);
  }

  lemma {:induction false} PanesSplit(panes: seq<Pane>, keep: Pane -> bool, drop: Pane -> bool, g: PaneCount, id: string)
    requires forall p :: keep(p) != drop(p)
    ensures PaneSum(panes, g, id) == PaneSum(Filter(panes, keep), g, id) + PaneSum(Filter(panes, drop), g, id)
  {
    if panes != [] {
      PanesSplit(panes[1..], keep, drop, g, id);
      FilterCons(panes, if keep(panes[0]) then keep else drop);
    }
  }

  lemma {:induction false} PanesFilter(panes: seq<Pane>, keep: Pane -> bool, g: PaneCount, id: string)
    ensures PaneSum(Filter(panes, keep), g, id) <= PaneSum(panes, g, id)
  {
    if panes != [] {
      PanesFilter(panes[1..], keep, g, id);
      if keep(panes[0]) { FilterCons(panes, keep); }
    }
  }

  lemma {:induction false} NamedMeansFound(panes: seq<Pane>, id: string)
    ensures PaneSum(panes, PaneNamed, id) > 0 <==> FindPane(panes, id).Some?
  {
    if panes != [] { NamedMeansFound(panes[1..], id); }
  }

  lemma {:induction false} FilterAll(panes: seq<Pane>, keep: Pane -> bool)
    requires forall p :: p in panes ==> keep(p)
    ensures Filter(panes, keep) == panes
  {
    if panes != [] { FilterAll(panes[1..], keep); }
  }

  /** What the pane of a name, if there is one, counts for. */
  function CountAt(panes: seq<Pane>, name: string, g: PaneCount, id: string): nat {
    match FindPane(panes, name) case Some(i) => g(panes[i], id) case None => 0
  }

  /** Removing the one pane of a name removes just what it counts for. */
  lemma {:induction false} RemovePane(panes: seq<Pane>, name: string, g: PaneCount, id: string)
    requires PaneSum(panes, PaneNamed, name) <= 1
    ensures PaneSum(panes, g, id) == PaneSum(Filter(panes, PaneIdIsNot(name)), g, id) + CountAt(panes, name, g, id)
  {
    if panes != [] {
      if panes[0].id == name {
        NamedMeansFound(panes[1..], name);
        FilterAll(panes[1..], PaneIdIsNot(name));
      } else {
        RemovePane(panes[1..], name, g, id);
        FilterCons(panes, PaneIdIsNot(name));
      }
    }
  }

  // ------------------------------------------------------------------
  // The invariant
  // ------------------------------------------------------------------

  /** Tab ids are told from drawn pane ids by their prefix. */
  predicate TabLike(id: string) {
    "tab-" <= id
  }

  predicate TabOk(tab: Tab) {
    && TabLike(tab.id)
    && (!tab.kind.Terminal? ==> tab.panes == [])
    && (tab.kind.Webview? ==> tab.connection.Some? && tab.connection.value.kind.Url?)
    && (forall p :: p in tab.panes ==> PaneOk(p, tab.id))
  }

  predicate PaneOk(p: Pane, tabId: string) {
    && (p.kind.WebviewPane? ==> p.connection.kind.Url?)
    && (p.armed ==> p.kind.RemoteDesktopPane?)
    && (p.id == tabId || !TabLike(p.id))
  }

  ghost predicate Unique(tabs: seq<Tab>, f: TabCount) {
    forall id :: Sum(tabs, f, id) <= 1
  }

  ghost predicate Inv(tabs: seq<Tab>) {
    (forall t :: t in tabs ==> TabOk(t)) && Unique(tabs, TabNamed) && Unique(tabs, PanesNamed)
  }

  /** The ids an action brings along are new: the store draws them at random. */
  ghost predicate Enabled(s: State, a: Action) {
    && (forall id :: id in NewTabIds(a) ==> TabLike(id) && FindTab(s.tabs, id).None?)
    && (forall id :: id in NewPaneIds(a) ==> id != "" && !TabLike(id) && Sum(s.tabs, PanesNamed, id) == 0)
    && (forall i, j :: 0 <= i < j < |NewPaneIds(a)| ==> NewPaneIds(a)[i] != NewPaneIds(a)[j])
  }

  lemma SameIdSameTab(tabs: seq<Tab>, i: nat, j: nat)
    requires Unique(tabs, TabNamed) && i < |tabs| && j < |tabs| && tabs[i].id == tabs[j].id
    ensures i == j
  {
    if i < j { SumAtTwo(tabs, i, j, TabNamed, tabs[i].id); }
    if j < i { SumAtTwo(tabs, j, i, TabNamed, tabs[i].id); }
  }

  lemma {:induction false} NoTabNamed(tabs: seq<Tab>, id: string)
    requires FindTab(tabs, id).None?
    ensures Sum(tabs, TabNamed, id) == 0
  {
    if tabs != [] { NoTabNamed(tabs[1..], id); }
  }

  lemma {:induction false} SumZero(tabs: seq<Tab>, f: TabCount, id: string)
    requires forall t :: t in tabs ==> f(t, id) == 0
    ensures Sum(tabs, f, id) == 0
  {
    if tabs != [] { SumZero(tabs[1..], f, id); }
  }

  lemma NotNamedAfterOther(t: Tab, id: string)
    requires TabOk(t) && TabLike(id) && t.id != id
    ensures PanesNamed(t, id) == 0
  {
    NamedMeansFound(t.panes, id);
    assert forall p :: p in t.panes ==> PaneOk(p, t.id) && p.id != id;
  }

  /** A tab without panes has left its own id free for one. */
  lemma NoPaneNamedAfterTab(tabs: seq<Tab>, i: nat)
    requires Inv(tabs) && i < |tabs| && tabs[i].panes == []
    ensures Sum(tabs, PanesNamed, tabs[i].id) == 0
  {
    assert TabOk(tabs[i]);
    forall t | t in tabs ensures PanesNamed(t, tabs[i].id) == 0 {
      var j :| 0 <= j < |tabs| && tabs[j] == t;
      if t.id == tabs[i].id {
        SameIdSameTab(tabs, i, j);
      } else {
        NotNamedAfterOther(t, tabs[i].id);
      }
    }
    SumZero(tabs, PanesNamed, tabs[i].id);
  }

  lemma InvAdd(tabs: seq<Tab>, tab: Tab)
    requires Inv(tabs) && TabOk(tab) && FindTab(tabs, tab.id).None?
    requires forall id :: PanesNamed(tab, id) <= 1 && (PanesNamed(tab, id) > 0 ==> Sum(tabs, PanesNamed, id) == 0)
    ensures Inv(tabs + [tab])
  {
    NoTabNamed(tabs, tab.id);
    assert [tab][1..] == [];
    forall id ensures Sum(tabs + [tab], TabNamed, id) <= 1 && Sum(tabs + [tab], PanesNamed, id) <= 1 {
      SumConcat(tabs, [tab], TabNamed, id);
      SumConcat(tabs, [tab], PanesNamed, id);
    }
  }

  lemma InvFilter(tabs: seq<Tab>, keep: Tab -> bool)
    requires Inv(tabs)
    ensures Inv(Filter(tabs, keep))
  {
    forall id ensures Sum(Filter(tabs, keep), TabNamed, id) <= 1 && Sum(Filter(tabs, keep), PanesNamed, id) <= 1 {
      SumFilter(tabs, keep, TabNamed, id);
      SumFilter(tabs, keep, PanesNamed, id);
    }
  }

  /** Changing one tab's panes: none is named twice afterwards. */
  lemma InvUpdate(tabs: seq<Tab>, i: nat, tab: Tab)
    requires Inv(tabs) && i < |tabs| && TabOk(tab) && tab.id == tabs[i].id
    requires forall id :: PanesNamed(tab, id) <= PanesNamed(tabs[i], id) ||
                          (PanesNamed(tab, id) <= 1 && Sum(tabs, PanesNamed, id) == 0)
    ensures Inv(tabs[i := tab])
  {
    var next := tabs[i := tab];
    forall id ensures Sum(next, TabNamed, id) <= 1 && Sum(next, PanesNamed, id) <= 1 {
      SumUpdate(tabs, i, tab, TabNamed, id);
      SumUpdate(tabs, i, tab, PanesNamed, id);
      SumAt(tabs, i, PanesNamed, id);
    }
  }

  lemma InvAddPane(tabs: seq<Tab>, i: nat, pane: Option<Pane>)
    requires Inv(tabs) && i < |tabs|
    requires pane.Some? ==> PaneOk(pane.value, tabs[i].id) && !TabLike(pane.value.id) &&
                            Sum(tabs, PanesNamed, pane.value.id) == 0
    ensures Inv(tabs[i := WithPane(tabs[i], CurrentPanes(tabs[i]), pane)])
  {
    var tab, panes := tabs[i], CurrentPanes(tabs[i]);
    assert TabOk(tab);
    if pane.Some? && panes != [] {
      if !tab.kind.Terminal? { NoPaneNamedAfterTab(tabs, i); }
      SumAt(tabs, i, PanesNamed, pane.value.id);
      forall id ensures PaneSum(panes + [pane.value], PaneNamed, id) <= PanesNamed(tab, id) ||
                        (PaneSum(panes + [pane.value], PaneNamed, id) <= 1 && Sum(tabs, PanesNamed, id) == 0)
      {
        OnePane(panes, pane.value, PaneNamed, id);
        if !tab.kind.Terminal? { OnePane([], panes[0], PaneNamed, id); assert panes == [panes[0]]; }
      }
      InvUpdate(tabs, i, WithPane(tab, panes, pane));
    } else {
      assert tabs[i := tab] == tabs;
    }
  }

  lemma {:induction false} BuiltNamed(connections: seq<Connection>, ids: seq<string>, id: string)
    requires |connections| == |ids| && forall i, j :: 0 <= i < j < |ids| ==> ids[i] != ids[j]
    ensures PaneSum(BuildPanes(connections, ids), PaneNamed, id) <= if id in ids then 1 else 0
  {
    if ids != [] {
      BuiltNamed(connections[1..], ids[1..], id);
      var rest := BuildPanes(connections[1..], ids[1..]);
      var built := BuildPane(connections[0], ids[0], "");
      if built.Some? {
        PanesConcat([built.value], rest, PaneNamed, id);
        OnePane([], built.value, PaneNamed, id);
      } else {
        assert [] + rest == rest;
      }
    }
  }

  lemma {:induction false} BuiltPlain(connections: seq<Connection>, ids: seq<string>)
    requires |connections| == |ids|
    ensures forall p :: p in BuildPanes(connections, ids) ==>
              p.id in ids && !p.armed && (p.kind.WebviewPane? ==> p.connection.kind.Url?)
  {
    if ids != [] {
      BuiltPlain(connections[1..], ids[1..]);
    }
  }

  lemma InvClosePane(tabs: seq<Tab>, i: nat, tab: Tab, keep: Pane -> bool)
    requires Inv(tabs) && i < |tabs|
    requires tab.id == tabs[i].id && tab.kind == tabs[i].kind && tab.connection == tabs[i].connection
    requires tab.panes == Filter(tabs[i].panes, keep)
    ensures Inv(tabs[i := tab])
  {
    assert TabOk(tabs[i]);
    forall id ensures PanesNamed(tab, id) <= PanesNamed(tabs[i], id) {
      PanesFilter(tabs[i].panes, keep, PaneNamed, id);
    }
    InvUpdate(tabs, i, tab);
  }

  lemma {:induction false} SumWithoutChild(tabs: seq<Tab>, child: string, nextFocus: string, id: string)
    ensures
      var left := WithoutChildAll(tabs, child, nextFocus).0;
      && Sum(left, TabNamed, id) <= Sum(tabs, TabNamed, id)
      && Sum(left, PanesNamed, id) <= Sum(tabs, PanesNamed, id)
  {
    if tabs != [] {
      SumWithoutChild(tabs[1..], child, nextFocus, id);
      var left := WithoutChild(tabs[0], child, nextFocus).0;
      SumConcat(left, WithoutChildAll(tabs[1..], child, nextFocus).0, TabNamed, id);
      SumConcat(left, WithoutChildAll(tabs[1..], child, nextFocus).0, PanesNamed, id);
      PanesFilter(tabs[0].panes, IsNotOf(child), PaneNamed, id);
      if left != [] { assert left[1..] == []; }
    }
  }

  lemma {:induction false} TabsWithoutChildOk(tabs: seq<Tab>, child: string, nextFocus: string)
    requires forall t :: t in tabs ==> TabOk(t)
    ensures forall t :: t in WithoutChildAll(tabs, child, nextFocus).0 ==> TabOk(t)
  {
    if tabs != [] {
      TabsWithoutChildOk(tabs[1..], child, nextFocus);
      assert TabOk(tabs[0]);
    }
  }

  lemma InvCloseChild(tabs: seq<Tab>, child: string, nextFocus: string)
    requires Inv(tabs)
    ensures Inv(WithoutChildAll(tabs, child, nextFocus).0)
  {
    TabsWithoutChildOk(tabs, child, nextFocus);
    var left := WithoutChildAll(tabs, child, nextFocus).0;
    forall id ensures Sum(left, TabNamed, id) <= 1 && Sum(left, PanesNamed, id) <= 1 {
      SumWithoutChild(tabs, child, nextFocus, id);
    }
  }

  lemma InvRefocus(a: seq<Tab>, b: seq<Tab>)
    requires Inv(a) && |a| == |b|
    requires forall i :: 0 <= i < |a| ==> b[i] == a[i].(focused := b[i].focused)
    ensures Inv(b)
  {
    forall id ensures Sum(b, TabNamed, id) <= 1 && Sum(b, PanesNamed, id) <= 1 {
      SumSame(a, b, TabNamed, id);
      SumSame(a, b, PanesNamed, id);
    }
    forall t | t in b ensures TabOk(t) {
      var i :| 0 <= i < |b| && b[i] == t;
      assert TabOk(a[i]);
    }
  }

  /** The tab an opening action adds, if it adds one. */
  function AddedTab(s: State, t: State): Option<Tab> {
    if |t.tabs| == |s.tabs| + 1 then Some(t.tabs[|s.tabs|]) else None
  }

  predicate IsOpen(a: Action) {
    a.OpenUrl? || a.OpenUrlTab? || a.OpenDesktop? || a.OpenNewTab? || a.Panorama?
  }

  /** The tab added is new, sound, and names only ids the action brought. */
  predicate SoundlyAdded(s: State, a: Action, t: State, id: string) {
    match AddedTab(s, t)
    case None => t.tabs == s.tabs
    case Some(tab) =>
      && t.tabs == s.tabs + [tab] && TabOk(tab) && FindTab(s.tabs, tab.id).None?
      && PanesNamed(tab, id) <= (if id in NewPaneIds(a) then 1 else 0)
  }

  lemma PanoramaTab(s: State, a: Action, id: string)
    requires Inv(s.tabs) && Enabled(s, a) && a.Panorama?
    ensures SoundlyAdded(s, a, Apply(s, a), id)
  {
    if |a.connections| == |a.paneIds| {
      assert NewPaneIds(a) == a.paneIds;
      BuiltNamed(a.connections, a.paneIds, id);
      BuiltPlain(a.connections, a.paneIds);
      assert forall p :: p in BuildPanes(a.connections, a.paneIds) ==> !TabLike(p.id);
      assert a.tabId in NewTabIds(a);
    }
  }

  lemma UrlTab(s: State, a: Action, id: string)
    requires Enabled(s, a) && (a.OpenUrl? || a.OpenUrlTab?)
    ensures SoundlyAdded(s, a, Apply(s, a), id)
  {
  }

  lemma DesktopTab(s: State, a: Action, id: string)
    requires Enabled(s, a) && a.OpenDesktop?
    ensures SoundlyAdded(s, a, Apply(s, a), id)
  {
    OnePane([], Pane(a.paneId, RemoteDesktopPane, a.c, "", a.fullscreen), PaneNamed, id);
  }

  lemma NewTab(s: State, a: Action, id: string)
    requires Enabled(s, a) && a.OpenNewTab?
    ensures SoundlyAdded(s, a, Apply(s, a), id)
  {
    var tab := AddedTab(s, Apply(s, a));
    if tab.Some? && |tab.value.panes| == 1 { OnePane([], tab.value.panes[0], PaneNamed, id); }
  }

  lemma OpenedTab(s: State, a: Action, id: string)
    requires Inv(s.tabs) && Enabled(s, a) && IsOpen(a)
    ensures SoundlyAdded(s, a, Apply(s, a), id)
  {
    if a.Panorama? {
      PanoramaTab(s, a, id);
    } else if a.OpenDesktop? {
      DesktopTab(s, a, id);
    } else if a.OpenNewTab? {
      NewTab(s, a, id);
    } else {
      UrlTab(s, a, id);
    }
  }

  lemma InvOpen(s: State, a: Action)
    requires Inv(s.tabs) && Enabled(s, a) && IsOpen(a)
    ensures Inv(Apply(s, a).tabs)
  {
    var tab := AddedTab(s, Apply(s, a));
    OpenedTab(s, a, "");
    if tab.Some? {
      forall id ensures PanesNamed(tab.value, id) <= 1 && (PanesNamed(tab.value, id) > 0 ==> Sum(s.tabs, PanesNamed, id) == 0) {
        OpenedTab(s, a, id);
      }
      InvAdd(s.tabs, tab.value);
    }
  }

  lemma InvClosePaneAction(s: State, tabId: string, paneId: string, nextFocus: string)
    requires Inv(s.tabs)
    ensures Inv(ClosePane(s, tabId, paneId, nextFocus).tabs)
  {
    if FindTab(s.tabs, tabId).Some? {
      var i := FindTab(s.tabs, tabId).value;
      var tab := s.tabs[i];
      var closing := FindPane(tab.panes, paneId);
      InvFilter(s.tabs, IdIsNot(tabId));
      if closing.Some? { InvCloseChild(s.tabs, tab.panes[closing.value].child, nextFocus); }
      var left := Filter(tab.panes, PaneIdIsNot(paneId));
      InvClosePane(s.tabs, i,
                   tab.(panes := left, focused := if tab.focused == paneId then nextFocus else tab.focused),
                   PaneIdIsNot(paneId));
    }
  }

  lemma InvAddPaneAction(s: State, a: Action)
    requires Inv(s.tabs) && Enabled(s, a) && (a.Split? || a.AddConnection?)
    ensures Inv(Apply(s, a).tabs)
  {
    var found := FindTab(s.tabs, a.tabId);
    if found.Some? {
      var tab := s.tabs[found.value];
      assert a.paneId in NewPaneIds(a);
      if a.Split? {
        InvAddPane(s.tabs, found.value, SplitPane(tab, a.paneId));
      } else {
        InvAddPane(s.tabs, found.value, if CurrentPanes(tab) == [] then None else BuildPane(a.c, a.paneId, a.child));
      }
    }
  }

  lemma {:induction false} PlainNamed(c: Connection, ids: seq<string>, id: string)
    requires forall i, j :: 0 <= i < j < |ids| ==> ids[i] != ids[j]
    ensures PaneSum(PlainPanes(c, ids), PaneNamed, id) <= if id in ids then 1 else 0
  {
    if ids != [] {
      PlainNamed(c, ids[1..], id);
      assert PlainPanes(c, ids)[1..] == PlainPanes(c, ids[1..]);
      assert id in ids[1..] ==> ids[0] != id;
    }
  }

  lemma {:induction false} PlainHoldNothing(c: Connection, ids: seq<string>, id: string)
    ensures PaneSum(PlainPanes(c, ids), PaneHolds, id) == 0 && PaneUrls(PlainPanes(c, ids)) == []
    ensures forall p :: p in PlainPanes(c, ids) ==> p.id in ids && p.kind.PlainPane? && !p.armed
  {
    if ids != [] {
      PlainHoldNothing(c, ids[1..], id);
      assert PlainPanes(c, ids)[1..] == PlainPanes(c, ids[1..]);
    }
  }

  lemma InvOpenPlain(s: State, a: Action)
    requires Inv(s.tabs) && Enabled(s, a) && a.OpenPlain?
    ensures Inv(Apply(s, a).tabs)
  {
    var t := Apply(s, a);
    if |t.tabs| == |s.tabs| + 1 {
      var tab := t.tabs[|s.tabs|];
      PlainHoldNothing(a.c, a.paneIds, "");
      assert NewPaneIds(a) == a.paneIds;
      forall id ensures PanesNamed(tab, id) <= 1 && (PanesNamed(tab, id) > 0 ==> Sum(s.tabs, PanesNamed, id) == 0) {
        PlainNamed(a.c, a.paneIds, id);
      }
      InvAdd(s.tabs, tab);
    }
  }

  lemma InvOpenTmux(s: State, a: Action)
    requires Inv(s.tabs) && Enabled(s, a) && a.OpenTmux?
    ensures Inv(Apply(s, a).tabs)
  {
    var found := FindTab(s.tabs, a.tabId);
    if found.Some? && s.tabs[found.value].kind.Terminal? {
      assert a.paneId in NewPaneIds(a);
      InvAddPane(s.tabs, found.value, Some(Pane(a.paneId, PlainPane, a.c, "", false)));
    }
  }

  lemma SumMoved(tabs: seq<Tab>, from: nat, to: nat, f: TabCount, id: string)
    requires from < |tabs| && to < |tabs|
    ensures Sum(Moved(tabs, from, to), f, id) == Sum(tabs, f, id)
  {
    var a, x, b := tabs[..from], [tabs[from]], tabs[from + 1..];
    var rest := a + b;
    assert tabs == a + (x + b);
    assert rest == rest[..to] + rest[to..];
    assert Moved(tabs, from, to) == rest[..to] + (x + rest[to..]);
    SumConcat(a, x + b, f, id);
    SumConcat(x, b, f, id);
    SumConcat(a, b, f, id);
    SumConcat(rest[..to], rest[to..], f, id);
    SumConcat(rest[..to], x + rest[to..], f, id);
    SumConcat(x, rest[to..], f, id);
  }

  /** Reordering neither adds nor loses a tab. */
  lemma SumReordered(tabs: seq<Tab>, dragged: string, target: string, f: TabCount, id: string)
    ensures Sum(Reordered(tabs, dragged, target), f, id) == Sum(tabs, f, id)
  {
    if Reordered(tabs, dragged, target) != tabs {
      SumMoved(tabs, FindTab(tabs, dragged).value, FindTab(tabs, target).value, f, id);
    }
  }

  lemma ReorderedHas(tabs: seq<Tab>, dragged: string, target: string, tab: Tab)
    ensures tab in Reordered(tabs, dragged, target) ==> tab in tabs
  {
  }

  lemma InvMoveTab(tabs: seq<Tab>, dragged: string, target: string)
    requires Inv(tabs)
    ensures Inv(Reordered(tabs, dragged, target))
  {
    var next := Reordered(tabs, dragged, target);
    forall id ensures Sum(next, TabNamed, id) <= 1 && Sum(next, PanesNamed, id) <= 1 {
      SumReordered(tabs, dragged, target, TabNamed, id);
      SumReordered(tabs, dragged, target, PanesNamed, id);
    }
    forall t | t in next ensures TabOk(t) { ReorderedHas(tabs, dragged, target, t); }
  }

  lemma InvPreserved(s: State, a: Action)
    requires Inv(s.tabs) && Enabled(s, a)
    ensures Inv(Apply(s, a).tabs)
  {
    if IsOpen(a) {
      InvOpen(s, a);
    } else if a.Split? || a.AddConnection? {
      InvAddPaneAction(s, a);
    } else if a.CloseOnePane? {
      InvClosePaneAction(s, a.tabId, a.paneId, a.nextFocus);
    } else if a.CloseChildConnection? {
      InvCloseChild(s.tabs, a.child, a.nextFocus);
    } else if a.CloseOneTab? {
      InvFilter(s.tabs, IdIsNot(a.tabId));
    } else if a.CloseWorkspace? {
      InvFilter(s.tabs, IsNotIn(a.workspace));
    } else if a.Focus? || a.Maximize? || a.ResetLayouts? {
      InvRefocus(s.tabs, Apply(s, a).tabs);
    } else if a.OpenPlain? {
      InvOpenPlain(s, a);
    } else if a.OpenTmux? {
      InvOpenTmux(s, a);
    } else if a.MoveTab? {
      InvMoveTab(s.tabs, a.dragged, a.target);
    }
  }
}
