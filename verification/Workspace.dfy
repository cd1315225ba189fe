/** The workspace store's tabs and panes, and what each store action makes of them.
    The pane layout inside a tab is opaque: where the store asks the layout which pane
    to focus next, the answer is a parameter of the action. */
module Workspace {
  import opened Basics

  const DEFAULT_WORKSPACE_ID := "default"

  datatype ConnectionType = Url | RemoteDesktop | Other

  datatype Connection = Connection(id: string, kind: ConnectionType, url: string)

  datatype PaneKind = WebviewPane | RemoteDesktopPane | PlainPane

  /** `child` is the child connection's id, or ""; `armed` is rdpStartupFullscreen. */
  datatype Pane = Pane(id: string, kind: PaneKind, connection: Connection, child: string, armed: bool)

  datatype TabKind = Terminal | Webview | Desktop | Files | Cloud

  /** `focused` and `child` are "" when absent. */
  datatype Tab = Tab(id: string, workspace: string, kind: TabKind, connection: Option<Connection>, url: string,
                     panes: seq<Pane>, focused: string, child: string)

  datatype State = State(tabs: seq<Tab>, activeTab: string, activeWorkspace: string,
                         remembered: map<string, string>, counts: map<string, nat>)

  // ------------------------------------------------------------------
  // Lists
  // ------------------------------------------------------------------

  function FindTab(tabs: seq<Tab>, id: string): (r: Option<nat>)
    ensures r.Some? ==> r.value < |tabs| && tabs[r.value].id == id
    ensures r.None? ==> forall t :: t in tabs ==> t.id != id
  {
    if tabs == [] then None
    else if tabs[0].id == id then Some(0)
    else match FindTab(tabs[1..], id) case Some(i) => Some(i + 1) case None => None
  }

  function FindPane(panes: seq<Pane>, id: string): (r: Option<nat>)
    ensures r.Some? ==> r.value < |panes| && panes[r.value].id == id
    ensures r.None? ==> forall p :: p in panes ==> p.id != id
  {
    if panes == [] then None
    else if panes[0].id == id then Some(0)
    else match FindPane(panes[1..], id) case Some(i) => Some(i + 1) case None => None
  }

  function Filter<T(!new)>(s: seq<T>, keep: T -> bool): (r: seq<T>)
    ensures forall x :: x in r <==> x in s && keep(x)
    ensures |r| <= |s|
  {
    if s == [] then []
    else if keep(s[0]) then [s[0]] + Filter(s[1..], keep)
    else Filter(s[1..], keep)
  }

  function IdIsNot(id: string): Tab -> bool { (t: Tab) => t.id != id }
  function IsIn(workspace: string): Tab -> bool { (t: Tab) => t.workspace == workspace }
  function IsNotIn(workspace: string): Tab -> bool { (t: Tab) => t.workspace != workspace }
  function PaneIdIsNot(id: string): Pane -> bool { (p: Pane) => p.id != id }
  function IsOf(child: string): Pane -> bool { (p: Pane) => p.child == child }
  function IsNotOf(child: string): Pane -> bool { (p: Pane) => p.child != child }

  /** `tabs.map` setting the focus in the tabs of one id. */
  function WithFocus(tabs: seq<Tab>, id: string, paneId: string): (r: seq<Tab>)
    ensures |r| == |tabs|
    ensures forall i :: 0 <= i < |tabs| ==> r[i] == if tabs[i].id == id then tabs[i].(focused := paneId) else tabs[i]
  {
    seq(|tabs|, i requires 0 <= i < |tabs| => if tabs[i].id == id then tabs[i].(focused := paneId) else tabs[i])
  }

  // ------------------------------------------------------------------
  // Session counts
  // ------------------------------------------------------------------

  predicate HoldsUrl(p: Pane) {
    p.kind.WebviewPane? && p.connection.kind.Url?
  }

  function PaneUrls(panes: seq<Pane>): seq<string> {
    if panes == [] then []
    else (if HoldsUrl(panes[0]) then [panes[0].connection.id] else []) + PaneUrls(panes[1..])
  }

  /** `urlConnectionIdsForTab`. */
  function UrlConnectionIds(tab: Tab): seq<string> {
    if tab.kind.Webview? && tab.connection.Some? && tab.connection.value.kind.Url? then [tab.connection.value.id]
    else PaneUrls(tab.panes)
  }

  function UrlsOfTabs(tabs: seq<Tab>): seq<string> {
    if tabs == [] then [] else UrlConnectionIds(tabs[0]) + UrlsOfTabs(tabs[1..])
  }

  function Incremented(counts: map<string, nat>, ids: seq<string>): map<string, nat>
    decreases |ids|
  {
    if ids == [] then counts
    else
      var id := ids[0];
      Incremented(counts[id := (if id in counts then counts[id] else 0) + 1], ids[1..])
  }

  function Decremented(counts: map<string, nat>, ids: seq<string>): map<string, nat>
    decreases |ids|
  {
    if ids == [] then counts
    else
      var id := ids[0];
      var current := if id in counts then counts[id] else 0;
      Decremented(if current <= 1 then counts - {id} else counts[id := current - 1], ids[1..])
  }

  // ------------------------------------------------------------------
  // Building panes
  // ------------------------------------------------------------------

  function BuildPane(connection: Connection, id: string, child: string): Option<Pane> {
    match connection.kind
    case Url => if connection.url == "" then None else Some(Pane(id, WebviewPane, connection, child, false))
    case RemoteDesktop => Some(Pane(id, RemoteDesktopPane, connection, child, false))
    case Other => Some(Pane(id, PlainPane, connection, child, false))
  }

  /** `buildPaneForStandaloneTab`: the pane takes the tab's own id. */
  function StandalonePane(tab: Tab): Option<Pane> {
    if tab.connection.None? then None
    else
      match tab.kind
      case Webview => if tab.url != "" then Some(Pane(tab.id, WebviewPane, tab.connection.value, "", false)) else None
      case Desktop => Some(Pane(tab.id, RemoteDesktopPane, tab.connection.value, "", false))
      case Files => Some(Pane(tab.id, PlainPane, tab.connection.value, "", false))
      case _ => None
  }

  // ------------------------------------------------------------------
  // Choosing the active tab
  // ------------------------------------------------------------------

  function FirstTabIn(tabs: seq<Tab>, workspace: string): string {
    if tabs == [] then ""
    else if tabs[0].workspace == workspace then tabs[0].id
    else FirstTabIn(tabs[1..], workspace)
  }

  function TabFor(tabs: seq<Tab>, workspace: string, preferred: Option<string>): string {
    var found := if preferred.Some? && preferred.value != "" then FindTab(tabs, preferred.value) else None;
    if (if found.Some? then tabs[found.value].workspace else DEFAULT_WORKSPACE_ID) == workspace then
      if found.Some? then tabs[found.value].id else ""
    else FirstTabIn(tabs, workspace)
  }

  // ------------------------------------------------------------------
  // The store actions
  // ------------------------------------------------------------------

  function AddTab(s: State, tab: Tab, urlIds: seq<string>): State {
    s.(tabs := s.tabs + [tab], activeTab := tab.id, counts := Incremented(s.counts, urlIds))
  }

  function OwnTabId(connection: Connection): string {
    "tab-" + connection.id
  }

  function OpenUrlConnection(s: State, c: Connection): State {
    if !c.kind.Url? || c.url == "" then s
    else if FindTab(s.tabs, OwnTabId(c)).Some? then s.(activeTab := OwnTabId(c))
    else
      var tab := Tab(OwnTabId(c), s.activeWorkspace, Webview, Some(c), c.url, [], "", "");
      AddTab(s, tab, UrlConnectionIds(tab))
  }

  function OpenUrlInNewTab(s: State, c: Connection, url: string, tabId: string): State {
    if !c.kind.Url? || url == "" then s
    else AddTab(s, Tab(tabId, s.activeWorkspace, Webview, Some(c.(url := url)), url, [], "", ""), [c.id])
  }

  /** `fullscreen` is what the settings ask for when the caller allows it at all. */
  function OpenRemoteDesktop(s: State, c: Connection, paneId: string, fullscreen: bool): State {
    if !c.kind.RemoteDesktop? then s
    else if FindTab(s.tabs, OwnTabId(c)).Some? then s.(activeTab := OwnTabId(c))
    else
      var pane := Pane(paneId, RemoteDesktopPane, c, "", fullscreen);
      AddTab(s, Tab(OwnTabId(c), s.activeWorkspace, Terminal, Some(c), "", [pane], paneId, ""), [])
  }

  function OpenInNewTab(s: State, c: Connection, tabId: string, paneId: string, child: string, fullscreen: bool): State {
    if c.kind.Url? then OpenUrlInNewTab(s, c, c.url, tabId)
    else
      match BuildPane(c, paneId, child)
      case None => s
      case Some(built) =>
        var pane := built.(armed := built.kind.RemoteDesktopPane? && fullscreen);
        var tab := Tab(tabId, s.activeWorkspace, Terminal, Some(c), c.url, [pane], paneId, child);
        AddTab(s, tab, UrlConnectionIds(tab))
  }

  function BuildPanes(connections: seq<Connection>, ids: seq<string>): seq<Pane>
    requires |connections| == |ids|
  {
    if connections == [] then []
    else
      (match BuildPane(connections[0], ids[0], "") case Some(p) => [p] case None => []) +
      BuildPanes(connections[1..], ids[1..])
  }

  function OpenPanorama(s: State, connections: seq<Connection>, ids: seq<string>, tabId: string): State
    requires |connections| == |ids|
  {
    var panes := BuildPanes(connections, ids);
    if panes == [] then s
    else
      AddTab(s, Tab(tabId, s.activeWorkspace, Terminal, None, "", panes, panes[0].id, ""), PaneUrls(panes))
  }

  function FocusedPane(tab: Tab): Option<Pane> {
    match FindPane(tab.panes, tab.focused)
    case Some(i) => Some(tab.panes[i])
    case None => if tab.panes == [] then None else Some(tab.panes[0])
  }

  /** The pane a split adds to a tab, if it adds one. */
  function SplitPane(tab: Tab, paneId: string): Option<Pane> {
    if !tab.kind.Terminal? || FocusedPane(tab).None? then None
    else BuildPane(FocusedPane(tab).value.connection, paneId, "")
  }

  function WithPane(tab: Tab, panes: seq<Pane>, pane: Option<Pane>): Tab {
    if pane.None? || panes == [] then tab
    else tab.(kind := Terminal, panes := panes + [pane.value], focused := pane.value.id)
  }

  function PaneOpened(pane: Option<Pane>): seq<string> {
    if pane.Some? && pane.value.kind.WebviewPane? then [pane.value.connection.id] else []
  }

  function SplitTerminalPane(s: State, tabId: string, paneId: string): State {
    match FindTab(s.tabs, tabId)
    case None => s
    case Some(i) =>
      var pane := SplitPane(s.tabs[i], paneId);
      s.(tabs := s.tabs[i := WithPane(s.tabs[i], s.tabs[i].panes, pane)],
         counts := Incremented(s.counts, PaneOpened(pane)))
  }

  function CurrentPanes(tab: Tab): seq<Pane> {
    if tab.kind.Terminal? then tab.panes
    else match StandalonePane(tab) case Some(p) => [p] case None => []
  }

  function AddConnectionToPane(s: State, tabId: string, c: Connection, paneId: string, child: string): State {
    match FindTab(s.tabs, tabId)
    case None => s
    case Some(i) =>
      var panes := CurrentPanes(s.tabs[i]);
      var pane := if panes == [] then None else BuildPane(c, paneId, child);
      s.(tabs := s.tabs[i := WithPane(s.tabs[i], panes, pane)],
         counts := Incremented(s.counts, PaneOpened(pane)))
  }

  function CloseTab(s: State, tabId: string): State {
    var closing := FindTab(s.tabs, tabId);
    var remaining := Filter(s.tabs, IdIsNot(tabId));
    s.(tabs := remaining,
       activeTab := if s.activeTab == tabId then FirstTabIn(remaining, s.activeWorkspace) else s.activeTab,
       counts := Decremented(s.counts, if closing.Some? then UrlConnectionIds(s.tabs[closing.value]) else []))
  }

  function CloseAllTabs(s: State): State {
    s.(tabs := [], activeTab := "", counts := Decremented(s.counts, UrlsOfTabs(s.tabs)))
  }

  function CloseWorkspaceTabs(s: State, workspace: string, fallback: string): State {
    var closing := Filter(s.tabs, IsIn(workspace));
    if closing == [] && s.activeWorkspace != workspace then s
    else
      var remaining := Filter(s.tabs, IsNotIn(workspace));
      var next := if s.activeWorkspace == workspace then fallback else s.activeWorkspace;
      s.(tabs := remaining, activeWorkspace := next,
         activeTab := if FindTab(remaining, s.activeTab).Some? then s.activeTab
                      else TabFor(remaining, next, Lookup(s.remembered, next)),
         counts := Decremented(s.counts, UrlsOfTabs(closing)))
  }

  function ClosePane(s: State, tabId: string, paneId: string, nextFocus: string): State {
    match FindTab(s.tabs, tabId)
    case None => s
    case Some(i) =>
      var tab := s.tabs[i];
      if !tab.kind.Terminal? then s
      else
        var closing := FindPane(tab.panes, paneId);
        if closing.Some? && tab.panes[closing.value].child != "" then
          CloseChild(s, tab.panes[closing.value].child, nextFocus)
        else if |tab.panes| <= 1 then CloseTab(s, tabId)
        else
          var left := Filter(tab.panes, PaneIdIsNot(paneId));
          s.(tabs := s.tabs[i := tab.(panes := left, focused := if tab.focused == paneId then nextFocus else tab.focused)],
             counts := Decremented(s.counts,
                         PaneOpened(if closing.Some? then Some(tab.panes[closing.value]) else None)))
  }

  /** What closing a child connection leaves of one tab, and the connections it closes. */
  function WithoutChild(tab: Tab, child: string, nextFocus: string): (seq<Tab>, seq<string>) {
    var matching := Filter(tab.panes, IsOf(child));
    if tab.child != child && matching == [] then ([tab], [])
    else
      var left := Filter(tab.panes, IsNotOf(child));
      var closed := UrlConnectionIds(if tab.child == child then tab else tab.(panes := matching));
      if tab.child == child || left == [] then ([], closed)
      else ([tab.(panes := left,
                  focused := if tab.focused != "" && FindPane(left, tab.focused).Some? then tab.focused else nextFocus)],
            closed)
  }

  function WithoutChildAll(tabs: seq<Tab>, child: string, nextFocus: string): (seq<Tab>, seq<string>) {
    if tabs == [] then ([], [])
    else
      var (left, closed) := WithoutChild(tabs[0], child, nextFocus);
      var (lefts, closeds) := WithoutChildAll(tabs[1..], child, nextFocus);
      (left + lefts, closed + closeds)
  }

  function CloseChild(s: State, child: string, nextFocus: string): State {
    var (left, closed) := WithoutChildAll(s.tabs, child, nextFocus);
    s.(tabs := left,
       activeTab := if FindTab(left, s.activeTab).Some? then s.activeTab else if left == [] then "" else left[0].id,
       counts := Decremented(s.counts, closed))
  }

  function ActivateTab(s: State, tabId: string): State {
    var found := FindTab(s.tabs, tabId);
    var target := if found.Some? then s.tabs[found.value].workspace else DEFAULT_WORKSPACE_ID;
    if found.Some? && target != s.activeWorkspace then
      s.(activeTab := tabId, activeWorkspace := target,
         remembered := s.remembered[s.activeWorkspace := s.activeTab][target := tabId])
    else s.(activeTab := tabId, remembered := s.remembered[target := tabId])
  }

  function SetActiveWorkspace(s: State, workspace: string): State {
    if s.activeWorkspace == workspace then s
    else
      var remembered := s.remembered[s.activeWorkspace := s.activeTab];
      s.(activeWorkspace := workspace, remembered := remembered,
         activeTab := TabFor(s.tabs, workspace, Lookup(remembered, workspace)))
  }

  /** `setWorkspaces` when the active workspace is gone. */
  function FallBackToWorkspace(s: State, workspace: string): State {
    s.(activeWorkspace := workspace, activeTab := TabFor(s.tabs, workspace, Lookup(s.remembered, workspace)))
  }

  function SetFocusedPane(s: State, tabId: string, paneId: string): State {
    s.(tabs := WithFocus(s.tabs, tabId, paneId))
  }

  function MaximizeChildPane(s: State, tabId: string, paneId: string): State {
    SetFocusedPane(s, tabId, paneId).(activeTab := tabId)
  }

  function ResetAllLayouts(s: State): State {
    s.(tabs := seq(|s.tabs|, i requires 0 <= i < |s.tabs| =>
                 var t := s.tabs[i];
                 if t.kind.Terminal? then t.(focused := if t.panes == [] then "" else t.panes[0].id) else t))
  }

  function PlainPanes(c: Connection, ids: seq<string>): seq<Pane> {
    if ids == [] then [] else [Pane(ids[0], PlainPane, c, "", false)] + PlainPanes(c, ids[1..])
  }

  /** Opening a tab that holds no URL and no remote desktop, or going to it if it is open:
      the file browsers and viewers, which have no panes, and terminals, whose panes come
      from a stored layout or are one new pane, with or without focus. */
  function OpenPlainTab(s: State, kind: TabKind, c: Connection, name: string, paneIds: seq<string>, focused: bool): State {
    var id := "tab-" + name;
    if FindTab(s.tabs, id).Some? then s.(activeTab := id)
    else
      var panes := if kind.Terminal? then PlainPanes(c, paneIds) else [];
      AddTab(s, Tab(id, s.activeWorkspace, kind, Some(c), "", panes,
                    if focused && panes != [] then panes[0].id else "", ""), [])
  }

  /** `openTmuxSessionInPane`: another terminal beside a focused terminal. */
  function OpenTmuxPane(s: State, tabId: string, c: Connection, paneId: string): State {
    match FindTab(s.tabs, tabId)
    case None => s
    case Some(i) =>
      var tab := s.tabs[i];
      if !tab.kind.Terminal? || FocusedPane(tab).None? || !FocusedPane(tab).value.kind.PlainPane? then s
      else s.(tabs := s.tabs[i := WithPane(tab, tab.panes, Some(Pane(paneId, PlainPane, c, "", false)))])
  }

  /** One tab goes to another position. */
  function Moved(tabs: seq<Tab>, from: nat, to: nat): seq<Tab>
    requires from < |tabs| && to < |tabs|
  {
    var rest := tabs[..from] + tabs[from + 1..];
    rest[..to] + [tabs[from]] + rest[to..]
  }

  /** `reorderWorkspaceTabs`: a dragged tab takes the place of another of its workspace. */
  function Reordered(tabs: seq<Tab>, dragged: string, target: string): seq<Tab> {
    var from, to := FindTab(tabs, dragged), FindTab(tabs, target);
    if from.None? || to.None? || from == to || tabs[from.value].workspace != tabs[to.value].workspace then tabs
    else Moved(tabs, from.value, to.value)
  }

  datatype Action =
    | OpenUrl(c: Connection)
    | OpenUrlTab(c: Connection, url: string, tabId: string)
    | OpenDesktop(c: Connection, paneId: string, fullscreen: bool)
    | OpenNewTab(c: Connection, tabId: string, paneId: string, child: string, fullscreen: bool)
    | Panorama(connections: seq<Connection>, paneIds: seq<string>, tabId: string)
    | Split(tabId: string, paneId: string)
    | AddConnection(tabId: string, c: Connection, paneId: string, child: string)
    | CloseOnePane(tabId: string, paneId: string, nextFocus: string)
    | CloseChildConnection(child: string, nextFocus: string)
    | CloseOneTab(tabId: string)
    | CloseWorkspace(workspace: string, fallback: string)
    | CloseAll
    | Activate(tabId: string)
    | SwitchWorkspace(workspace: string)
    | FallBack(workspace: string)
    | Focus(tabId: string, paneId: string)
    | Maximize(tabId: string, paneId: string)
    | ResetLayouts
    | OpenPlain(kind: TabKind, c: Connection, name: string, paneIds: seq<string>, focusFirst: bool)
    | OpenTmux(tabId: string, c: Connection, paneId: string)
    | MoveTab(dragged: string, target: string)

  function Apply(s: State, a: Action): State {
    match a
    case OpenUrl(c) => OpenUrlConnection(s, c)
    case OpenUrlTab(c, url, tabId) => OpenUrlInNewTab(s, c, url, tabId)
    case OpenDesktop(c, paneId, fullscreen) => OpenRemoteDesktop(s, c, paneId, fullscreen)
    case OpenNewTab(c, tabId, paneId, child, fullscreen) => OpenInNewTab(s, c, tabId, paneId, child, fullscreen)
    case Panorama(connections, paneIds, tabId) =>
      if |connections| == |paneIds| then OpenPanorama(s, connections, paneIds, tabId) else s
    case Split(tabId, paneId) => SplitTerminalPane(s, tabId, paneId)
    case AddConnection(tabId, c, paneId, child) => AddConnectionToPane(s, tabId, c, paneId, child)
    case CloseOnePane(tabId, paneId, nextFocus) => ClosePane(s, tabId, paneId, nextFocus)
    case CloseChildConnection(child, nextFocus) => if child != "" then CloseChild(s, child, nextFocus) else s
    case CloseOneTab(tabId) => CloseTab(s, tabId)
    case CloseWorkspace(workspace, fallback) => CloseWorkspaceTabs(s, workspace, fallback)
    case CloseAll => CloseAllTabs(s)
    case Activate(tabId) => ActivateTab(s, tabId)
    case SwitchWorkspace(workspace) => SetActiveWorkspace(s, workspace)
    case FallBack(workspace) => FallBackToWorkspace(s, workspace)
    case Focus(tabId, paneId) => SetFocusedPane(s, tabId, paneId)
    case Maximize(tabId, paneId) => MaximizeChildPane(s, tabId, paneId)
    case ResetLayouts => ResetAllLayouts(s)
    case OpenPlain(kind, c, name, paneIds, focusFirst) =>
      if kind.Webview? || kind.Desktop? then s else OpenPlainTab(s, kind, c, name, paneIds, focusFirst)
    case OpenTmux(tabId, c, paneId) => OpenTmuxPane(s, tabId, c, paneId)
    case MoveTab(dragged, target) => s.(tabs := Reordered(s.tabs, dragged, target))
  }

  /** The pane and tab ids an action brings along; the store draws them at random. */
  function NewPaneIds(a: Action): seq<string> {
    match a
    case OpenDesktop(_, paneId, _) => [paneId]
    case OpenNewTab(_, _, paneId, _, _) => [paneId]
    case Panorama(_, paneIds, _) => paneIds
    case Split(_, paneId) => [paneId]
    case AddConnection(_, _, paneId, _) => [paneId]
    case OpenPlain(_, _, _, paneIds, _) => paneIds
    case OpenTmux(_, _, paneId) => [paneId]
    case _ => []
  }

  function NewTabIds(a: Action): seq<string> {
    match a
    case OpenUrlTab(_, _, tabId) => [tabId]
    case OpenNewTab(_, tabId, _, _, _) => [tabId]
    case Panorama(_, _, tabId) => [tabId]
    case _ => []
  }
}
