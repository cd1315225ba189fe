/** The one-shot intent to open a remote desktop in full screen: the subscriber that
    revokes it on navigation, and the run-level guarantees of the workspace store. */
module StartupFullscreen {
  import opened Basics
  import opened Workspace
  import opened WorkspaceInvariant
  import opened SessionCounts

  // ------------------------------------------------------------------
  // Reading and consuming the intent
  // ------------------------------------------------------------------

  function FindOwner(tabs: seq<Tab>, paneId: string): (r: Option<nat>)
    ensures r.Some? ==> r.value < |tabs| && FindPane(tabs[r.value].panes, paneId).Some?
    ensures r.None? ==> forall t :: t in tabs ==> FindPane(t.panes, paneId).None?
  {
    if tabs == [] then None
    else if FindPane(tabs[0].panes, paneId).Some? then Some(0)
    else match FindOwner(tabs[1..], paneId) case Some(i) => Some(i + 1) case None => None
  }

  predicate HasIntent(s: State, paneId: string) {
    match FindOwner(s.tabs, paneId)
    case None => false
    case Some(i) =>
      var owner := s.tabs[i];
      var pane := owner.panes[FindPane(owner.panes, paneId).value];
      pane.kind.RemoteDesktopPane? && pane.armed && owner.id == s.activeTab &&
      owner.workspace == s.activeWorkspace && owner.focused == paneId
  }

  function Disarm(tab: Tab, paneId: string): Tab {
    match FindPane(tab.panes, paneId)
    case None => tab
    case Some(j) => tab.(panes := tab.panes[j := tab.panes[j].(armed := false)])
  }

  function WithoutIntent(s: State, paneId: string): State {
    match FindOwner(s.tabs, paneId)
    case None => s
    case Some(i) => s.(tabs := s.tabs[i := Disarm(s.tabs[i], paneId)])
  }

  /** The pane carries the intent, eligible or not. */
  predicate Carries(s: State, paneId: string) {
    match FindOwner(s.tabs, paneId)
    case None => false
    case Some(i) =>
      var pane := s.tabs[i].panes[FindPane(s.tabs[i].panes, paneId).value];
      pane.kind.RemoteDesktopPane? && pane.armed
  }

  function Consumed(s: State, paneId: string): State {
    if Carries(s, paneId) then WithoutIntent(s, paneId) else s
  }

  function FocusOf(s: State): string {
    match FindTab(s.tabs, s.activeTab) case Some(i) => s.tabs[i].focused case None => ""
  }

  /** What the subscriber makes of a change from `previous` to `next`. */
  function Settled(previous: State, next: State): State {
    if next.tabs == previous.tabs && next.activeTab == previous.activeTab &&
       next.activeWorkspace == previous.activeWorkspace then next
    else
      var pane := FocusOf(previous);
      if pane != "" && (next.activeWorkspace != previous.activeWorkspace || next.activeTab != previous.activeTab ||
                        FocusOf(next) != pane)
      then Consumed(next, pane) else next
  }

  /** Consuming changes neither navigation nor focus, so the subscriber that runs on it
      has nothing left to do. */
  lemma NestedCallStops(s: State, paneId: string)
    ensures Settled(s, Consumed(s, paneId)) == Consumed(s, paneId)
  {
    var c := Consumed(s, paneId);
    SameIdsFoundAlike(s.tabs, c.tabs, s.activeTab);
  }

  lemma {:induction false} SameIdsFoundAlike(a: seq<Tab>, b: seq<Tab>, id: string)
    requires |a| == |b| && forall i :: 0 <= i < |a| ==> a[i].id == b[i].id
    ensures FindTab(a, id) == FindTab(b, id)
  {
    if a != [] { SameIdsFoundAlike(a[1..], b[1..], id); }
  }

  function ArmedPane(p: Pane, id: string): nat { if p.armed then 1 else 0 }

  function ArmedPanes(t: Tab, id: string): nat { PaneSum(t.panes, ArmedPane, id) }

  lemma {:induction false} PaneUpdate(panes: seq<Pane>, j: nat, pane: Pane, g: PaneCount, id: string)
    requires j < |panes|
    ensures PaneSum(panes[j := pane], g, id) == PaneSum(panes, g, id) - g(panes[j], id) + g(pane, id)
  {
    if j == 0 {
      assert panes[j := pane][1..] == panes[1..];
    } else {
      assert panes[j := pane][1..] == panes[1..][j - 1 := pane];
      PaneUpdate(panes[1..], j - 1, pane, g, id);
    }
  }

  /** Disarming leaves every count but that of armed panes. */
  lemma ConsumedCounts(s: State, paneId: string, id: string)
    ensures Sum(Consumed(s, paneId).tabs, UrlsHeld, id) == Sum(s.tabs, UrlsHeld, id)
    ensures Sum(Consumed(s, paneId).tabs, PanesNamed, id) == Sum(s.tabs, PanesNamed, id)
    ensures Sum(Consumed(s, paneId).tabs, TabNamed, id) == Sum(s.tabs, TabNamed, id)
    ensures Sum(Consumed(s, paneId).tabs, ArmedPanes, id) ==
            Sum(s.tabs, ArmedPanes, id) - if Carries(s, paneId) then 1 else 0
  {
    if Carries(s, paneId) {
      var i := FindOwner(s.tabs, paneId).value;
      var tab := s.tabs[i];
      var j := FindPane(tab.panes, paneId).value;
      var pane := tab.panes[j].(armed := false);
      PaneUpdate(tab.panes, j, pane, PaneHolds, id);
      PaneUpdate(tab.panes, j, pane, PaneNamed, id);
      PaneUpdate(tab.panes, j, pane, ArmedPane, id);
      SumUpdate(s.tabs, i, Disarm(tab, paneId), UrlsHeld, id);
      SumUpdate(s.tabs, i, Disarm(tab, paneId), PanesNamed, id);
      SumUpdate(s.tabs, i, Disarm(tab, paneId), TabNamed, id);
      SumUpdate(s.tabs, i, Disarm(tab, paneId), ArmedPanes, id);
    }
  }

  lemma ConsumedInv(s: State, paneId: string)
    requires Inv(s.tabs)
    ensures Inv(Consumed(s, paneId).tabs)
  {
    var c := Consumed(s, paneId);
    forall id ensures Sum(c.tabs, TabNamed, id) <= 1 && Sum(c.tabs, PanesNamed, id) <= 1 {
      ConsumedCounts(s, paneId, id);
    }
    forall t | t in c.tabs ensures TabOk(t) {
      var i :| 0 <= i < |c.tabs| && c.tabs[i] == t;
      assert TabOk(s.tabs[i]);
      forall p | p in t.panes ensures PaneOk(p, t.id) {
        var j :| 0 <= j < |t.panes| && t.panes[j] == p;
        assert s.tabs[i].panes[j] in s.tabs[i].panes;
      }
    }
  }

  // ------------------------------------------------------------------
  // The store
  // ------------------------------------------------------------------

  /** The store: every `set` replaces the state and then calls the subscriber, which may
      set again. */
  class WorkspaceStore {
    var state: State

    constructor (state: State)
      ensures this.state == state
    {
      this.state := state;
    }

    /** Any store action. */
    method Perform(a: Action)
      modifies this
      ensures state == Settled(old(state), Apply(old(state), a))
    {
      Set(Apply(state, a));
    }

    method Set(next: State)
      modifies this
      ensures state == Settled(old(state), next)
      decreases Sum(next.tabs, ArmedPanes, ""), 1
    {
      var previous := state;
      state := next;
      if next.tabs == previous.tabs && next.activeTab == previous.activeTab &&
         next.activeWorkspace == previous.activeWorkspace {
        return;
      }
      var previousPane := FocusOf(previous);
      if previousPane == "" {
        return;
      }
      if next.activeWorkspace != previous.activeWorkspace || next.activeTab != previous.activeTab ||
         FocusOf(next) != previousPane {
        var _ := ConsumeRdpStartupFullscreen(previousPane);
      }
    }

    method ConsumeRdpStartupFullscreen(paneId: string) returns (eligible: bool)
      modifies this
      ensures state == Consumed(old(state), paneId)
      ensures eligible == HasIntent(old(state), paneId)
      decreases Sum(state.tabs, ArmedPanes, ""), 0
    {
      eligible := HasIntent(state, paneId);
      if !Carries(state, paneId) {
        return false;
      }
      ConsumedCounts(state, paneId, "");
      SumAtLeast(state, paneId);
      NestedCallStops(state, paneId);
      Set(WithoutIntent(state, paneId));
    }
  }

  lemma SumAtLeast(s: State, paneId: string)
    ensures Carries(s, paneId) ==> Sum(s.tabs, ArmedPanes, "") >= 1
  {
    ConsumedCounts(s, paneId, "");
  }

  // ------------------------------------------------------------------
  // Armed panes
  // ------------------------------------------------------------------

  predicate ArmedIn(tabs: seq<Tab>, tab: Tab, pane: Pane) {
    tab in tabs && pane in tab.panes && pane.armed
  }

  /** An armed pane is the focused pane of the active tab of the active workspace, so at
      most one pane is armed. */
  ghost predicate OnlyFocusedArmed(s: State) {
    forall tab, pane :: ArmedIn(s.tabs, tab, pane) ==>
      tab.id == s.activeTab && tab.workspace == s.activeWorkspace && tab.focused == pane.id && pane.id != ""
  }

  /** Where an armed pane comes from: it sat in the same tab before the action, or the
      action has just opened it as the focus of the active tab. */
  ghost predicate CameFrom(s: State, t: State, tab: Tab, pane: Pane, brought: seq<string>) {
    || (exists before :: before in s.tabs && before.id == tab.id && before.workspace == tab.workspace &&
                         pane in before.panes)
    || (pane.id in brought && tab.id == t.activeTab && tab.workspace == t.activeWorkspace && tab.focused == pane.id)
  }

  lemma {:induction false} LeftByCloseChild(tabs: seq<Tab>, child: string, nextFocus: string, tab: Tab)
    requires tab in WithoutChildAll(tabs, child, nextFocus).0
    ensures exists before :: before in tabs && before.id == tab.id && before.workspace == tab.workspace &&
                             forall p :: p in tab.panes ==> p in before.panes
  {
    var left := WithoutChild(tabs[0], child, nextFocus).0;
    if tab in left {
      assert tabs[0].id == tab.id && forall p :: p in tab.panes ==> p in tabs[0].panes;
    } else {
      LeftByCloseChild(tabs[1..], child, nextFocus, tab);
    }
  }

  lemma PanesOpenedCame(s: State, a: Action, tab: Tab, pane: Pane)
    requires (a.OpenDesktop? || a.OpenNewTab?) && ArmedIn(Apply(s, a).tabs, tab, pane)
    ensures CameFrom(s, Apply(s, a), tab, pane, NewPaneIds(a))
  {
  }

  lemma OpenedCame(s: State, a: Action, tab: Tab, pane: Pane)
    requires Inv(s.tabs) && Enabled(s, a) && IsOpen(a) && ArmedIn(Apply(s, a).tabs, tab, pane)
    ensures CameFrom(s, Apply(s, a), tab, pane, NewPaneIds(a))
  {
    if a.OpenDesktop? || a.OpenNewTab? {
      PanesOpenedCame(s, a, tab, pane);
    } else if a.Panorama? && |a.connections| == |a.paneIds| {
      BuiltPlain(a.connections, a.paneIds);
    }
  }

  lemma AddedPaneCame(s: State, a: Action, tab: Tab, pane: Pane)
    requires Inv(s.tabs) && (a.Split? || a.AddConnection?) && ArmedIn(Apply(s, a).tabs, tab, pane)
    ensures CameFrom(s, Apply(s, a), tab, pane, NewPaneIds(a))
  {
    if tab !in s.tabs {
      var i := FindTab(s.tabs, a.tabId).value;
      assert TabOk(s.tabs[i]);
      assert pane in s.tabs[i].panes;
    }
  }

  lemma ClosedPaneCame(s: State, a: Action, tab: Tab, pane: Pane)
    requires a.CloseOnePane? && ArmedIn(Apply(s, a).tabs, tab, pane)
    ensures CameFrom(s, Apply(s, a), tab, pane, NewPaneIds(a))
  {
    if tab !in s.tabs {
      var i := FindTab(s.tabs, a.tabId).value;
      var closing := FindPane(s.tabs[i].panes, a.paneId);
      if closing.Some? && s.tabs[i].panes[closing.value].child != "" {
        LeftByCloseChild(s.tabs, s.tabs[i].panes[closing.value].child, a.nextFocus, tab);
      } else {
        assert pane in s.tabs[i].panes;
      }
    }
  }

  lemma PlainCame(s: State, a: Action, tab: Tab, pane: Pane)
    requires (a.OpenPlain? || a.OpenTmux? || a.MoveTab?) && ArmedIn(Apply(s, a).tabs, tab, pane)
    ensures CameFrom(s, Apply(s, a), tab, pane, NewPaneIds(a))
  {
    if tab !in s.tabs {
      if a.OpenPlain? {
        PlainHoldNothing(a.c, a.paneIds, "");
      } else if a.MoveTab? {
        ReorderedHas(s.tabs, a.dragged, a.target, tab);
      } else {
        var i := FindTab(s.tabs, a.tabId).value;
        assert pane in s.tabs[i].panes;
      }
    }
  }

  lemma ArmedCame(s: State, a: Action, tab: Tab, pane: Pane)
    requires Inv(s.tabs) && Enabled(s, a) && ArmedIn(Apply(s, a).tabs, tab, pane)
    ensures CameFrom(s, Apply(s, a), tab, pane, NewPaneIds(a))
  {
    var t := Apply(s, a);
    if IsOpen(a) {
      OpenedCame(s, a, tab, pane);
    } else if a.Split? || a.AddConnection? {
      AddedPaneCame(s, a, tab, pane);
    } else if a.CloseOnePane? {
      ClosedPaneCame(s, a, tab, pane);
    } else if a.OpenPlain? || a.OpenTmux? || a.MoveTab? {
      PlainCame(s, a, tab, pane);
    } else if a.CloseChildConnection? && a.child != "" {
      LeftByCloseChild(s.tabs, a.child, a.nextFocus, tab);
    } else if a.Focus? || a.Maximize? || a.ResetLayouts? {
      var i :| 0 <= i < |t.tabs| && t.tabs[i] == tab;
      assert s.tabs[i] in s.tabs && pane in s.tabs[i].panes;
    }
  }

  // ------------------------------------------------------------------
  // Uniqueness at work
  // ------------------------------------------------------------------

  lemma TheTab(tabs: seq<Tab>, tab: Tab)
    requires Unique(tabs, TabNamed) && tab in tabs
    ensures FindTab(tabs, tab.id).Some? && tabs[FindTab(tabs, tab.id).value] == tab
  {
    var i :| 0 <= i < |tabs| && tabs[i] == tab;
    SameIdSameTab(tabs, i, FindTab(tabs, tab.id).value);
  }

  lemma {:induction false} NamedAt(panes: seq<Pane>, j: nat)
    requires j < |panes|
    ensures PaneSum(panes, PaneNamed, panes[j].id) >= 1
  {
    if j > 0 { NamedAt(panes[1..], j - 1); }
  }

  lemma {:induction false} ThePane(panes: seq<Pane>, j: nat)
    requires j < |panes| && PaneSum(panes, PaneNamed, panes[j].id) <= 1
    ensures FindPane(panes, panes[j].id) == Some(j)
  {
    if j > 0 {
      NamedAt(panes[1..], j - 1);
      ThePane(panes[1..], j - 1);
    }
  }

  /** The store finds the pane it looks for, and no other. */
  lemma TheOwner(tabs: seq<Tab>, i: nat, j: nat)
    requires Inv(tabs) && i < |tabs| && j < |tabs[i].panes|
    ensures
      var id := tabs[i].panes[j].id;
      FindOwner(tabs, id) == Some(i) && FindPane(tabs[i].panes, id) == Some(j)
  {
    var id := tabs[i].panes[j].id;
    SumAt(tabs, i, PanesNamed, id);
    ThePane(tabs[i].panes, j);
    NamedMeansFound(tabs[i].panes, id);
    var k := FindOwner(tabs, id).value;
    NamedMeansFound(tabs[k].panes, id);
    if i < k { SumAtTwo(tabs, i, k, PanesNamed, id); }
    if k < i { SumAtTwo(tabs, k, i, PanesNamed, id); }
  }

  /** After consuming, a pane that is still armed was armed before in the same tab, and
      is not the consumed one. */
  lemma StillArmed(s: State, paneId: string, tab: Tab, pane: Pane) returns (before: Tab)
    requires Inv(s.tabs) && ArmedIn(Consumed(s, paneId).tabs, tab, pane)
    ensures ArmedIn(s.tabs, before, pane) && pane.id != paneId
    ensures before.id == tab.id && before.workspace == tab.workspace && before.focused == tab.focused
  {
    var c := Consumed(s, paneId);
    var i :| 0 <= i < |c.tabs| && c.tabs[i] == tab;
    var j :| 0 <= j < |tab.panes| && tab.panes[j] == pane;
    before := s.tabs[i];
    assert before.panes[j] == pane;
    TheOwner(s.tabs, i, j);
    assert TabOk(before);
  }

  // ------------------------------------------------------------------
  // One action and its subscriber
  // ------------------------------------------------------------------

  lemma ArmedIsFocus(s: State, tab: Tab, pane: Pane)
    requires Inv(s.tabs) && OnlyFocusedArmed(s) && ArmedIn(s.tabs, tab, pane)
    ensures FocusOf(s) == pane.id != ""
  {
    TheTab(s.tabs, tab);
  }

  /** Without a change of navigation or focus, an armed pane stays where it may be. */
  lemma StayedFocused(s: State, t: State, tab: Tab, before: Tab, pane: Pane)
    requires Inv(s.tabs) && Inv(t.tabs) && OnlyFocusedArmed(s)
    requires t.activeTab == s.activeTab && t.activeWorkspace == s.activeWorkspace && FocusOf(t) == FocusOf(s)
    requires ArmedIn(t.tabs, tab, pane) && before in s.tabs && pane in before.panes
    requires before.id == tab.id && before.workspace == tab.workspace
    ensures tab.id == t.activeTab && tab.workspace == t.activeWorkspace && tab.focused == pane.id != ""
  {
    assert ArmedIn(s.tabs, before, pane);
    ArmedIsFocus(s, before, pane);
    TheTab(t.tabs, tab);
  }

  lemma ActionKeepsOnlyFocused(s: State, a: Action)
    requires Inv(s.tabs) && Enabled(s, a) && OnlyFocusedArmed(s)
    ensures OnlyFocusedArmed(Settled(s, Apply(s, a)))
  {
    var t := Apply(s, a);
    var u := Settled(s, t);
    InvPreserved(s, a);
    forall tab, pane | ArmedIn(u.tabs, tab, pane)
      ensures tab.id == u.activeTab && tab.workspace == u.activeWorkspace && tab.focused == pane.id && pane.id != ""
    {
      var now := tab;
      if u != t { now := StillArmed(t, FocusOf(s), tab, pane); }
      ArmedCame(s, a, now, pane);
      if before :| before in s.tabs && before.id == now.id && before.workspace == now.workspace && pane in before.panes {
        assert ArmedIn(s.tabs, before, pane);
        ArmedIsFocus(s, before, pane);
        if u == t { NotConsumed(s, t, now, before, pane); }
      }
    }
  }

  lemma ConsumingChanges(t: State, tab: Tab, pane: Pane)
    requires Inv(t.tabs) && ArmedIn(t.tabs, tab, pane)
    ensures Carries(t, pane.id) && Consumed(t, pane.id) != t
  {
    var i :| 0 <= i < |t.tabs| && t.tabs[i] == tab;
    var j :| 0 <= j < |tab.panes| && tab.panes[j] == pane;
    TheOwner(t.tabs, i, j);
    assert TabOk(tab);
    assert Consumed(t, pane.id).tabs[i].panes[j] != t.tabs[i].panes[j];
  }

  /** A pane that came through untouched was not the one to consume. */
  lemma NotConsumed(s: State, t: State, tab: Tab, before: Tab, pane: Pane)
    requires Inv(s.tabs) && Inv(t.tabs) && OnlyFocusedArmed(s) && Settled(s, t) == t
    requires ArmedIn(t.tabs, tab, pane) && before in s.tabs && pane in before.panes
    requires before.id == tab.id && before.workspace == tab.workspace
    ensures tab.id == t.activeTab && tab.workspace == t.activeWorkspace && tab.focused == pane.id != ""
  {
    assert ArmedIn(s.tabs, before, pane);
    ArmedIsFocus(s, before, pane);
    ConsumingChanges(t, tab, pane);
    StayedFocused(s, t, tab, before, pane);
  }

  // ------------------------------------------------------------------
  // Every run
  // ------------------------------------------------------------------

  datatype Event = Do(action: Action) | Consume(paneId: string)

  /** A run remembers the pane ids drawn so far; an id is drawn once. */
  datatype World = World(state: State, issued: set<string>)

  ghost predicate Possible(w: World, e: Event) {
    e.Do? ==> Enabled(w.state, e.action) && forall id :: id in NewPaneIds(e.action) ==> id !in w.issued
  }

  ghost function Happen(w: World, e: Event): World {
    if !Possible(w, e) then w
    else
      match e
      case Do(a) => World(Settled(w.state, Apply(w.state, a)), w.issued + set id | id in NewPaneIds(a))
      case Consume(paneId) => w.(state := Consumed(w.state, paneId))
  }

  ghost function Run(w: World, events: seq<Event>): World
    decreases |events|
  {
    if events == [] then w else Run(Happen(w, events[0]), events[1..])
  }

  ghost predicate WorldOk(w: World) {
    Inv(w.state.tabs) && Counted(w.state) && OnlyFocusedArmed(w.state)
  }

  lemma ConsumedCounted(s: State, paneId: string)
    requires Counted(s)
    ensures Counted(Consumed(s, paneId))
  {
    var c := Consumed(s, paneId);
    forall id ensures CountOf(c.counts, id) == Sum(c.tabs, UrlsHeld, id) {
      ConsumedCounts(s, paneId, id);
    }
  }

  lemma ConsumedOnlyFocused(s: State, paneId: string)
    requires Inv(s.tabs) && OnlyFocusedArmed(s)
    ensures OnlyFocusedArmed(Consumed(s, paneId))
  {
    forall tab, pane | ArmedIn(Consumed(s, paneId).tabs, tab, pane)
      ensures tab.id == s.activeTab && tab.workspace == s.activeWorkspace && tab.focused == pane.id && pane.id != ""
    {
      var before := StillArmed(s, paneId, tab, pane);
    }
  }

  lemma EventKeepsOk(w: World, e: Event)
    requires WorldOk(w)
    ensures WorldOk(Happen(w, e))
  {
    if Possible(w, e) {
      match e
      case Do(a) =>
        var t := Apply(w.state, a);
        InvPreserved(w.state, a);
        CountedPreserved(w.state, a);
        ActionKeepsOnlyFocused(w.state, a);
        ConsumedInv(t, FocusOf(w.state));
        ConsumedCounted(t, FocusOf(w.state));
      case Consume(paneId) =>
        ConsumedInv(w.state, paneId);
        ConsumedCounted(w.state, paneId);
        ConsumedOnlyFocused(w.state, paneId);
    }
  }

  /** Over every run the session counts equal what is open, and only the focused pane of
      the active tab may be armed. */
  lemma {:induction false} RunKeepsOk(w: World, events: seq<Event>)
    requires WorldOk(w)
    ensures WorldOk(Run(w, events))
    decreases |events|
  {
    if events != [] {
      EventKeepsOk(w, events[0]);
      RunKeepsOk(Happen(w, events[0]), events[1..]);
    }
  }

  lemma EmptyStoreOk(s: State)
    requires s.tabs == [] && s.counts == map[]
    ensures WorldOk(World(s, {}))
  {
  }

  /** The pane has had its chance: its id is drawn, and no pane of that id is armed. */
  ghost predicate Spent(w: World, paneId: string) {
    paneId in w.issued && forall tab, pane :: ArmedIn(w.state.tabs, tab, pane) ==> pane.id != paneId
  }

  lemma SpentStays(w: World, e: Event, paneId: string)
    requires WorldOk(w) && Spent(w, paneId)
    ensures Spent(Happen(w, e), paneId)
  {
    if Possible(w, e) {
      var t := if e.Do? then Apply(w.state, e.action) else w.state;
      var u := Happen(w, e).state;
      if e.Do? { InvPreserved(w.state, e.action); }
      forall tab, pane | ArmedIn(u.tabs, tab, pane) ensures pane.id != paneId {
        var now := tab;
        if u != t { now := StillArmed(t, if e.Do? then FocusOf(w.state) else e.paneId, tab, pane); }
        if e.Do? {
          ArmedCame(w.state, e.action, now, pane);
          if before :| before in w.state.tabs && before.id == now.id && before.workspace == now.workspace && pane in before.panes {
            assert ArmedIn(w.state.tabs, before, pane);
          }
        }
      }
    }
  }

  lemma {:induction false} SpentForever(w: World, events: seq<Event>, paneId: string)
    requires WorldOk(w) && Spent(w, paneId)
    ensures Spent(Run(w, events), paneId)
    decreases |events|
  {
    if events != [] {
      SpentStays(w, events[0], paneId);
      EventKeepsOk(w, events[0]);
      SpentForever(Happen(w, events[0]), events[1..], paneId);
    }
  }

  lemma ConsumeSpends(w: World, paneId: string)
    requires WorldOk(w) && paneId in w.issued
    ensures Spent(Happen(w, Consume(paneId)), paneId)
  {
    forall tab, pane | ArmedIn(Consumed(w.state, paneId).tabs, tab, pane) ensures pane.id != paneId {
      var _ := StillArmed(w.state, paneId, tab, pane);
    }
  }

  /** Only a pane with the intent is eligible. */
  lemma SpentIsNotEligible(w: World, paneId: string)
    requires Spent(w, paneId)
    ensures !HasIntent(w.state, paneId) && !Carries(w.state, paneId)
  {
    var i := FindOwner(w.state.tabs, paneId);
    if i.Some? {
      var tab := w.state.tabs[i.value];
      var pane := tab.panes[FindPane(tab.panes, paneId).value];
      assert tab in w.state.tabs && pane in tab.panes;
      assert pane.armed ==> ArmedIn(w.state.tabs, tab, pane);
    }
  }

  /** A pane's intent is granted at most once: whatever happens after it was consumed, by
      a grant or by navigation, consuming it again yields false. */
  lemma AtMostOneGrant(w: World, paneId: string, later: seq<Event>)
    requires WorldOk(w) && paneId in w.issued
    ensures !HasIntent(Run(Happen(w, Consume(paneId)), later).state, paneId)
  {
    var v := Happen(w, Consume(paneId));
    ConsumeSpends(w, paneId);
    EventKeepsOk(w, Consume(paneId));
    SpentForever(v, later, paneId);
    SpentIsNotEligible(Run(v, later), paneId);
  }

  /** Consuming another pane leaves a pane's intent alone. */
  lemma OtherIntentStays(s: State, paneId: string, other: string)
    requires Inv(s.tabs) && HasIntent(s, paneId) && other != paneId
    ensures HasIntent(Consumed(s, other), paneId)
  {
    var i := FindOwner(s.tabs, paneId).value;
    var j := FindPane(s.tabs[i].panes, paneId).value;
    var c := Consumed(s, other);
    ConsumedInv(s, other);
    assert c.tabs[i].panes[j] == s.tabs[i].panes[j];
    TheOwner(c.tabs, i, j);
  }

  /** A pane opened for full screen is eligible as soon as the store has settled; the new
      id is one the previous focus did not carry. */
  lemma OpenedPaneIsEligible(s: State, c: Connection, paneId: string)
    requires Inv(s.tabs) && Enabled(s, OpenDesktop(c, paneId, true)) && c.kind.RemoteDesktop?
    requires FindTab(s.tabs, OwnTabId(c)).None? && FocusOf(s) != paneId
    ensures HasIntent(Settled(s, Apply(s, OpenDesktop(c, paneId, true))), paneId)
  {
    var a := OpenDesktop(c, paneId, true);
    var t := Apply(s, a);
    InvPreserved(s, a);
    assert t.tabs[|s.tabs|].panes[0].id == paneId;
    TheOwner(t.tabs, |s.tabs|, 0);
    OtherIntentStays(t, paneId, FocusOf(s));
  }
}
