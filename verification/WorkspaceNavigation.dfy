/** Where the workspace store's navigation lands, and what closing leaves open. */
module WorkspaceNavigation {
  import opened Basics
  import opened Workspace

  predicate OpenIn(tabs: seq<Tab>, id: string, workspace: string) {
    match FindTab(tabs, id) case Some(i) => tabs[i].workspace == workspace case None => false
  }

  lemma {:induction false} FirstTabInIsThere(tabs: seq<Tab>, workspace: string)
    ensures (exists t :: t in tabs && t.workspace == workspace) ==>
              exists t :: t in tabs && t.workspace == workspace && t.id == FirstTabIn(tabs, workspace)
    ensures (forall t :: t in tabs ==> t.workspace != workspace) ==> FirstTabIn(tabs, workspace) == ""
  {
    if tabs != [] {
      FirstTabInIsThere(tabs[1..], workspace);
      assert tabs == [tabs[0]] + tabs[1..];
    }
  }

  /** `tabIdForWorkspace` answers with a tab of that workspace, or with none: exactly when
      the workspace has no tab, or is the default one and the remembered tab is not open. */
  lemma TabForLands(tabs: seq<Tab>, workspace: string, preferred: Option<string>)
    requires forall t :: t in tabs ==> t.id != ""
    ensures
      var id := TabFor(tabs, workspace, preferred);
      var remembered := preferred.Some? && preferred.value != "" && FindTab(tabs, preferred.value).Some?;
      && (id != "" ==> exists t :: t in tabs && t.id == id && t.workspace == workspace)
      && (id == "" <==> (forall t :: t in tabs ==> t.workspace != workspace) ||
                        (workspace == DEFAULT_WORKSPACE_ID && !remembered))
      && (remembered && OpenIn(tabs, preferred.value, workspace) ==> id == preferred.value)
  {
    FirstTabInIsThere(tabs, workspace);
  }

  /** Switching to another workspace and back returns to the tab that was active there. */
  lemma SwitchAndBack(s: State, workspace: string)
    requires workspace != s.activeWorkspace && OpenIn(s.tabs, s.activeTab, s.activeWorkspace) && s.activeTab != ""
    ensures
      var back := SetActiveWorkspace(SetActiveWorkspace(s, workspace), s.activeWorkspace);
      back.activeTab == s.activeTab && back.activeWorkspace == s.activeWorkspace && back.tabs == s.tabs
  {
  }

  /** Activating an open tab shows it in its own workspace, and the workspace left behind
      remembers its tab. */
  lemma ActivateLands(s: State, id: string)
    requires FindTab(s.tabs, id).Some? && id != ""
    ensures
      var t := ActivateTab(s, id);
      && t.activeTab == id && OpenIn(t.tabs, id, t.activeWorkspace) && t.tabs == s.tabs
      && (t.activeWorkspace != s.activeWorkspace && OpenIn(s.tabs, s.activeTab, s.activeWorkspace) && s.activeTab != "" ==>
            SetActiveWorkspace(t, s.activeWorkspace).activeTab == s.activeTab)
  {
  }

  /** Closing a tab leaves all others open, in the active workspace if one must take over. */
  lemma CloseTabLeaves(s: State, id: string)
    ensures
      var t := CloseTab(s, id);
      && (forall tab :: tab in t.tabs <==> tab in s.tabs && tab.id != id)
      && t.activeWorkspace == s.activeWorkspace
      && (s.activeTab != id ==> t.activeTab == s.activeTab)
      && (s.activeTab == id && (exists tab :: tab in t.tabs && tab.workspace == s.activeWorkspace) ==>
            exists tab :: tab in t.tabs && tab.workspace == s.activeWorkspace && tab.id == t.activeTab)
  {
    FirstTabInIsThere(CloseTab(s, id).tabs, s.activeWorkspace);
  }

  /** Closing a workspace's tabs closes those and no others. */
  lemma CloseWorkspaceLeaves(s: State, workspace: string, fallback: string)
    ensures
      var t := CloseWorkspaceTabs(s, workspace, fallback);
      && (forall tab :: tab in t.tabs <==> tab in s.tabs && tab.workspace != workspace)
      && (FindTab(t.tabs, s.activeTab).Some? ==> t.activeTab == s.activeTab)
      && t.activeWorkspace == (if s.activeWorkspace == workspace then fallback else s.activeWorkspace)
  {
    if Filter(s.tabs, IsIn(workspace)) == [] && s.activeWorkspace != workspace {
      forall tab | tab in s.tabs ensures tab.workspace != workspace {
        assert !(IsIn(workspace)(tab));
      }
    }
  }

  /** Dragging a tab onto another of its workspace puts it in that place and keeps the
      order of all others; dragging it elsewhere changes nothing. */
  lemma ReorderedPlaces(tabs: seq<Tab>, dragged: string, target: string)
    ensures
      var next := Reordered(tabs, dragged, target);
      match (FindTab(tabs, dragged), FindTab(tabs, target))
      case (Some(from), Some(to)) =>
        if tabs[from].workspace == tabs[to].workspace
        then |next| == |tabs| && next[to] == tabs[from] &&
             next[..to] + next[to + 1..] == tabs[..from] + tabs[from + 1..]
        else next == tabs
      case _ => next == tabs
  {
  }
}
