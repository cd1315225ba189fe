/** Quick Commands: lists kept per connection or in shared bundles, in memory and in the
    durable store the memory is mirrored to. Names arrive trimmed. */
module QuickCommands {
  import opened Basics

  datatype Command = Command(id: string, body: string)

  datatype Bundle = Bundle(id: string, name: string, commands: seq<Command>)

  datatype Target = OfBundle(bundleId: string) | OfConnection(connectionId: string)

  /** What survives a restart. */
  datatype Durable = Durable(lists: map<string, seq<Command>>, bundles: seq<Bundle>, selections: map<string, string>)

  datatype State = State(lists: map<string, seq<Command>>, bundles: seq<Bundle>, bundlesLoaded: bool,
                         selections: map<string, string>, disk: Durable)

  // ------------------------------------------------------------------
  // Reading
  // ------------------------------------------------------------------

  function FindBundle(bundles: seq<Bundle>, id: string): (r: Option<nat>)
    ensures r.Some? ==> r.value < |bundles| && bundles[r.value].id == id
  {
    if bundles == [] then None
    else if bundles[0].id == id then Some(0)
    else match FindBundle(bundles[1..], id) case Some(i) => Some(i + 1) case None => None
  }

  /** The bundle a raw selection stands for; "" and the id of no bundle stand for none. */
  function Resolved(bundles: seq<Bundle>, selection: string): Option<nat> {
    if selection == "" then None else FindBundle(bundles, selection)
  }

  function Raw(selections: map<string, string>, c: string): string {
    if c in selections then selections[c] else ""
  }

  /** `quickCommandTargetForConnection`. */
  function TargetOf(s: State, c: string): Option<Target> {
    if c == "" then None
    else if Resolved(s.bundles, Raw(s.selections, c)).Some? then Some(OfBundle(s.selections[c]))
    else Some(OfConnection(c))
  }

  function OwnList(lists: map<string, seq<Command>>, c: string): seq<Command> {
    if c in lists then lists[c] else []
  }

  /** `quickCommandsForConnectionState`. */
  function Shown(s: State, c: string): seq<Command> {
    if c == "" then []
    else
      match Resolved(s.bundles, Raw(s.selections, c))
      case Some(i) => s.bundles[i].commands
      case None => OwnList(s.lists, c)
  }

  function StoredList(d: Durable, c: string): seq<Command> {
    if c == "" then [] else OwnList(d.lists, c)
  }

  // ------------------------------------------------------------------
  // Edits of one list
  // ------------------------------------------------------------------

  datatype Edit =
    | Add(command: Command)
    | Update(command: Command)
    | Move(id: string, direction: int)
    | Reorder(id: string, before: string)
    | Remove(id: string)

  function IndexOf(commands: seq<Command>, id: string): (i: int)
    ensures -1 <= i < |commands|
    ensures i >= 0 ==> commands[i].id == id
    ensures i < 0 <==> forall c :: c in commands ==> c.id != id
  {
    if commands == [] then -1
    else if commands[0].id == id then 0
    else var i := IndexOf(commands[1..], id); if i < 0 then -1 else i + 1
  }

  predicate InRange(commands: seq<Command>, index: int, nextIndex: int) {
    0 <= index < |commands| && 0 <= nextIndex < |commands|
  }

  function Without(commands: seq<Command>, index: nat): seq<Command>
    requires index < |commands|
  {
    commands[..index] + commands[index + 1..]
  }

  /** One command goes to another position. */
  function Moved(commands: seq<Command>, index: int, nextIndex: int): Option<seq<Command>> {
    if !InRange(commands, index, nextIndex) then None
    else
      var rest := Without(commands, index);
      Some(rest[..nextIndex] + [commands[index]] + rest[nextIndex..])
  }

  /** `moveQuickCommandTo`, splice by splice. */
  method MoveQuickCommandTo(commands: seq<Command>, index: int, nextIndex: int) returns (r: Option<seq<Command>>)
    ensures r == Moved(commands, index, nextIndex)
    ensures r.None? <==> !InRange(commands, index, nextIndex)
  {
    if index < 0 || nextIndex < 0 || nextIndex >= |commands| {
      return None;
    }
    var next := commands;
    var taken: Option<Command> := None;
    if index < |next| {
      taken := Some(next[index]);
      next := next[..index] + next[index + 1..];
    }
    if taken.None? {
      return None;
    }
    next := next[..nextIndex] + [taken.value] + next[nextIndex..];
    return Some(next);
  }

  /** A move puts the command where it was sent, keeps the order of all others, loses and
      invents nothing, and is undone by the opposite move. */
  lemma MoveIsExact(commands: seq<Command>, index: int, nextIndex: int)
    requires InRange(commands, index, nextIndex)
    ensures
      var moved := Moved(commands, index, nextIndex).value;
      && |moved| == |commands| && moved[nextIndex] == commands[index]
      && Without(moved, nextIndex) == Without(commands, index)
      && multiset(moved) == multiset(commands)
      && Moved(moved, nextIndex, index) == Some(commands)
  {
    var rest := Without(commands, index);
    var moved := Moved(commands, index, nextIndex).value;
    assert Without(moved, nextIndex) == rest;
    assert rest[..index] == commands[..index] && rest[index..] == commands[index + 1..];
    assert commands == commands[..index] + [commands[index]] + commands[index + 1..];
    assert rest == rest[..nextIndex] + rest[nextIndex..];
    assert multiset(moved) == multiset(rest) + multiset{commands[index]} == multiset(commands);
  }

  function Updated(commands: seq<Command>, command: Command): (r: seq<Command>)
    ensures |r| == |commands|
    ensures forall i :: 0 <= i < |r| ==> r[i] == if commands[i].id == command.id then command else commands[i]
  {
    seq(|commands|, i requires 0 <= i < |commands| => if commands[i].id == command.id then command else commands[i])
  }

  function Removed(commands: seq<Command>, id: string): (r: seq<Command>)
    ensures forall c :: c in r <==> c in commands && c.id != id
  {
    if commands == [] then []
    else (if commands[0].id == id then [] else [commands[0]]) + Removed(commands[1..], id)
  }

  /** What an edit makes of a list; None leaves everything untouched. */
  function Edited(commands: seq<Command>, e: Edit): Option<seq<Command>> {
    match e
    case Add(command) => Some(commands + [command])
    case Update(command) => Some(Updated(commands, command))
    case Move(id, direction) => Moved(commands, IndexOf(commands, id), IndexOf(commands, id) + direction)
    case Reorder(id, before) =>
      if id == before then None else Moved(commands, IndexOf(commands, id), IndexOf(commands, before))
    case Remove(id) => Some(Removed(commands, id))
  }

  // ------------------------------------------------------------------
  // The actions
  // ------------------------------------------------------------------

  datatype Action =
    | EnsureLoaded(c: string)
    | EnsureBundles
    | EditAt(target: Target, edit: Edit)
    | Create(id: string, name: string, commands: seq<Command>, ids: seq<string>)
    | Rename(id: string, name: string)
    | Delete(id: string)
    | Select(c: string, id: string)

  function WithList(lists: map<string, seq<Command>>, c: string, commands: seq<Command>): map<string, seq<Command>> {
    lists[c := commands]
  }

  function Persisted(d: Durable, c: string, commands: seq<Command>): Durable {
    if c == "" then d else d.(lists := WithList(d.lists, c, commands))
  }

  function WithSelection(selections: map<string, string>, c: string, id: string): map<string, string> {
    if id == "" then selections - {c} else selections[c := id]
  }

  function BundlesLoaded(s: State): State {
    if s.bundlesLoaded then s else s.(bundles := s.disk.bundles, bundlesLoaded := true)
  }

  function Loaded(s0: State, c: string): State {
    var s := BundlesLoaded(s0);
    if c == "" || c in s.lists then s
    else
      var selection := Raw(s.disk.selections, c);
      var found := Resolved(s.bundles, selection).Some?;
      s.(disk := if selection != "" && !found then s.disk.(selections := s.disk.selections - {c}) else s.disk,
         lists := WithList(s.lists, c, StoredList(s.disk, c)),
         selections := if found then s.selections[c := selection] else s.selections)
  }

  function WithCommands(bundles: seq<Bundle>, id: string, commands: seq<Command>): (r: seq<Bundle>)
    ensures |r| == |bundles|
    ensures forall i :: 0 <= i < |r| ==> r[i] == if bundles[i].id == id then bundles[i].(commands := commands) else bundles[i]
  {
    seq(|bundles|, i requires 0 <= i < |bundles| =>
      if bundles[i].id == id then bundles[i].(commands := commands) else bundles[i])
  }

  function WithName(bundles: seq<Bundle>, id: string, name: string): (r: seq<Bundle>)
    ensures |r| == |bundles|
    ensures forall i :: 0 <= i < |r| ==> r[i] == if bundles[i].id == id then bundles[i].(name := name) else bundles[i]
  {
    seq(|bundles|, i requires 0 <= i < |bundles| => if bundles[i].id == id then bundles[i].(name := name) else bundles[i])
  }

  function WithoutBundle(bundles: seq<Bundle>, id: string): seq<Bundle> {
    if bundles == [] then []
    else (if bundles[0].id == id then [] else [bundles[0]]) + WithoutBundle(bundles[1..], id)
  }

  /** The list an edit at this target starts from, if the target exists. */
  function ListAt(s: State, target: Target): Option<seq<Command>> {
    match target
    case OfBundle(id) =>
      (match FindBundle(s.bundles, id) case Some(i) => Some(s.bundles[i].commands) case None => None)
    case OfConnection(c) => Some(if c in s.lists then s.lists[c] else StoredList(s.disk, c))
  }

  function Replaced(s: State, target: Target, commands: seq<Command>): State {
    match target
    case OfBundle(id) =>
      var bundles := WithCommands(s.bundles, id, commands);
      s.(bundles := bundles, disk := s.disk.(bundles := bundles))
    case OfConnection(c) => s.(lists := WithList(s.lists, c, commands), disk := Persisted(s.disk, c, commands))
  }

  /** `mutateQuickCommandsAtTarget`. */
  function Mutated(s: State, target: Target, e: Edit): State {
    match ListAt(s, target)
    case None => s
    case Some(existing) =>
      match Edited(existing, e)
      case None => s
      case Some(commands) => Replaced(s, target, commands)
  }

  /** Copies under ids of their own. */
  function Copied(commands: seq<Command>, ids: seq<string>): seq<Command>
    requires |commands| == |ids|
  {
    seq(|commands|, i requires 0 <= i < |commands| => commands[i].(id := ids[i]))
  }

  function Created(s0: State, bundle: Bundle): State {
    var s := BundlesLoaded(s0);
    var bundles := s.bundles + [bundle];
    s.(bundles := bundles, disk := s.disk.(bundles := bundles))
  }

  function Renamed(s: State, id: string, name: string): State {
    if name == "" then s
    else
      var bundles := WithName(s.bundles, id, name);
      s.(bundles := bundles, disk := s.disk.(bundles := bundles))
  }

  function SelectedBy(selections: map<string, string>, id: string): set<string> {
    set c | c in selections && selections[c] == id
  }

  function Deleted(s: State, id: string): State {
    var bundles := WithoutBundle(s.bundles, id);
    var users := SelectedBy(s.selections, id);
    s.(bundles := bundles, selections := s.selections - users,
       disk := s.disk.(bundles := bundles, selections := s.disk.selections - users))
  }

  function Selected(s: State, c: string, id: string): State {
    if c == "" then s
    else
      s.(selections := WithSelection(s.selections, c, id),
         disk := s.disk.(selections := WithSelection(s.disk.selections, c, id)))
  }

  function Apply(s: State, a: Action): State {
    match a
    case EnsureLoaded(c) => Loaded(s, c)
    case EnsureBundles => BundlesLoaded(s)
    case EditAt(target, e) => Mutated(s, target, e)
    case Create(id, name, commands, ids) =>
      if |ids| == |commands| then Created(s, Bundle(id, name, Copied(commands, ids))) else s
    case Rename(id, name) => Renamed(s, id, name)
    case Delete(id) => Deleted(s, id)
    case Select(c, id) => Selected(s, c, id)
  }

  // ------------------------------------------------------------------
  // The store
  // ------------------------------------------------------------------

  class QuickCommandStore {
    var lists: map<string, seq<Command>>
    var bundles: seq<Bundle>
    var bundlesLoaded: bool
    var selections: map<string, string>
    var disk: Durable

    /** A program start: nothing is loaded yet. */
    constructor (disk: Durable)
      ensures Now() == Started(disk)
    {
      lists, bundles, bundlesLoaded, selections := map[], [], false, map[];
      this.disk := disk;
    }

    function Now(): State
      reads this
    {
      State(lists, bundles, bundlesLoaded, selections, disk)
    }

    method EnsureQuickCommandBundlesLoaded()
      modifies this
      ensures Now() == BundlesLoaded(old(Now()))
    {
      if !bundlesLoaded {
        bundles, bundlesLoaded := disk.bundles, true;
      }
    }

    method EnsureQuickCommandsLoaded(c: string)
      modifies this
      ensures Now() == Loaded(old(Now()), c)
    {
      EnsureQuickCommandBundlesLoaded();
      if c == "" || c in lists {
        return;
      }
      var selectedId := Raw(disk.selections, c);
      var resolvedId := "";
      if selectedId != "" && FindBundle(bundles, selectedId).Some? {
        resolvedId := selectedId;
      }
      if selectedId != "" && resolvedId == "" {
        disk := disk.(selections := disk.selections - {c});
      }
      lists := lists[c := StoredList(disk, c)];
      if resolvedId != "" {
        selections := selections[c := resolvedId];
      }
    }

    method MutateAtTarget(target: Target, e: Edit)
      modifies this
      ensures Now() == Mutated(old(Now()), target, e)
    {
      match target {
        case OfBundle(id) =>
          var found := FindBundle(bundles, id);
          if found.Some? {
            var edited := EditedList(bundles[found.value].commands, e);
            if edited.Some? {
              bundles := WithCommands(bundles, id, edited.value);
              disk := disk.(bundles := bundles);
            }
          }
        case OfConnection(c) =>
          var existing := if c in lists then lists[c] else StoredList(disk, c);
          var edited := EditedList(existing, e);
          if edited.Some? {
            disk := Persisted(disk, c, edited.value);
            lists := lists[c := edited.value];
          }
      }
    }

    method RenameQuickCommandBundle(id: string, name: string)
      modifies this
      ensures Now() == Renamed(old(Now()), id, name)
    {
      if name == "" {
        return;
      }
      bundles := WithName(bundles, id, name);
      disk := disk.(bundles := bundles);
    }

    method CreateQuickCommandBundle(id: string, name: string, commands: seq<Command>, ids: seq<string>)
      requires |ids| == |commands|
      modifies this
      ensures Now() == Created(old(Now()), Bundle(id, name, Copied(commands, ids)))
    {
      EnsureQuickCommandBundlesLoaded();
      bundles := bundles + [Bundle(id, name, Copied(commands, ids))];
      disk := disk.(bundles := bundles);
    }

    method DeleteQuickCommandBundle(id: string)
      modifies this
      ensures Now() == Deleted(old(Now()), id)
    {
      bundles := WithoutBundle(bundles, id);
      var kept, stored := DropSelections(selections, disk.selections, id);
      selections := kept;
      disk := disk.(bundles := bundles, selections := stored);
    }

    method SetConnectionQuickCommandBundle(c: string, id: string)
      modifies this
      ensures Now() == Selected(old(Now()), c, id)
    {
      if c == "" {
        return;
      }
      disk := disk.(selections := WithSelection(disk.selections, c, id));
      if id != "" {
        selections := selections[c := id];
      } else {
        selections := selections - {c};
      }
    }
  }

  lemma OneLess(m: map<string, string>, gone: set<string>, c: string)
    ensures (m - gone) - {c} == m - (gone + {c})
  {
  }

  /** The loop of a deletion: every selection of the bundle goes, here and in the store. */
  method DropSelections(selections: map<string, string>, stored: map<string, string>, id: string)
    returns (kept: map<string, string>, left: map<string, string>)
    ensures kept == selections - SelectedBy(selections, id)
    ensures left == stored - SelectedBy(selections, id)
  {
    kept, left := selections, stored;
    var todo := selections.Keys;
    ghost var users, gone := SelectedBy(selections, id), {};
    while todo != {}
      invariant todo <= selections.Keys
      invariant gone <= users && users - gone <= todo
      invariant kept == selections - gone && left == stored - gone
      decreases |todo|
    {
      var c :| c in todo;
      todo := todo - {c};
      if selections[c] == id {
        OneLess(selections, gone, c);
        OneLess(stored, gone, c);
        kept, left := kept - {c}, left - {c};
        gone := gone + {c};
      }
    }
    assert gone == users;
  }

  method EditedList(commands: seq<Command>, e: Edit) returns (r: Option<seq<Command>>)
    ensures r == Edited(commands, e)
  {
    match e {
      case Add(command) => r := Some(commands + [command]);
      case Update(command) => r := Some(Updated(commands, command));
      case Remove(id) => r := Some(Removed(commands, id));
      case Move(id, direction) =>
        var index := IndexOf(commands, id);
        r := MoveQuickCommandTo(commands, index, index + direction);
      case Reorder(id, before) =>
        if id == before {
          return None;
        }
        r := MoveQuickCommandTo(commands, IndexOf(commands, id), IndexOf(commands, before));
    }
  }

  // ------------------------------------------------------------------
  // Whom an edit reaches
  // ------------------------------------------------------------------

  lemma {:induction false} SameIdsSameBundle(a: seq<Bundle>, b: seq<Bundle>, id: string)
    requires |a| == |b| && forall i :: 0 <= i < |a| ==> a[i].id == b[i].id
    ensures FindBundle(a, id) == FindBundle(b, id)
  {
    if a != [] { SameIdsSameBundle(a[1..], b[1..], id); }
  }

  /** An edit made at a loaded connection's own target is what that connection shows next.
      It reaches every connection with the same target and no other, and it redirects
      nobody; an edit that does not apply changes nothing. */
  lemma EditReachesSharers(s: State, c: string, e: Edit, d: string)
    requires c != "" && c in s.lists
    ensures
      var t := Mutated(s, TargetOf(s, c).value, e);
      && TargetOf(t, d) == TargetOf(s, d)
      && (match Edited(Shown(s, c), e)
          case None => t == s
          case Some(edited) => Shown(t, d) == if TargetOf(s, d) == TargetOf(s, c) then edited else Shown(s, d))
  {
    var target := TargetOf(s, c).value;
    var edited := Edited(Shown(s, c), e);
    if edited.Some? {
      if target.OfBundle? {
        SharersSee(s, target.bundleId, edited.value, d);
      } else {
        OwnerSees(s, c, edited.value, d);
      }
    }
  }

  lemma OwnerSees(s: State, c: string, commands: seq<Command>, d: string)
    requires TargetOf(s, c) == Some(OfConnection(c))
    ensures
      var t := Replaced(s, OfConnection(c), commands);
      && TargetOf(t, d) == TargetOf(s, d)
      && Shown(t, d) == if TargetOf(s, d) == Some(OfConnection(c)) then commands else Shown(s, d)
  {
  }

  lemma SharersSee(s: State, id: string, commands: seq<Command>, d: string)
    requires id != "" && FindBundle(s.bundles, id).Some?
    ensures
      var t := Replaced(s, OfBundle(id), commands);
      && TargetOf(t, d) == TargetOf(s, d)
      && Shown(t, d) == if TargetOf(s, d) == Some(OfBundle(id)) then commands else Shown(s, d)
  {
    SameIdsSameBundle(s.bundles, WithCommands(s.bundles, id, commands), Raw(s.selections, d));
  }

  /** Deleting a bundle returns its users to their own lists and disturbs nobody else. */
  lemma DeleteFallsBack(s: State, id: string, d: string)
    requires d != ""
    ensures
      var t := Deleted(s, id);
      if TargetOf(s, d) == Some(OfBundle(id))
      then TargetOf(t, d) == Some(OfConnection(d)) && Shown(t, d) == OwnList(s.lists, d)
      else TargetOf(t, d) == TargetOf(s, d) && Shown(t, d) == Shown(s, d)
  {
    var raw := Raw(s.selections, d);
    if raw != id { StillFound(s.bundles, id, raw); }
  }

  lemma {:induction false} StillFound(bundles: seq<Bundle>, id: string, other: string)
    ensures BundleOf(WithoutBundle(bundles, id), other) == if other == id then None else BundleOf(bundles, other)
  {
    if bundles != [] {
      var rest := WithoutBundle(bundles[1..], id);
      StillFound(bundles[1..], id, other);
      PrependedFound(bundles[0], bundles[1..], other);
      assert [bundles[0]] + bundles[1..] == bundles;
      if bundles[0].id != id {
        PrependedFound(bundles[0], rest, other);
      } else {
        assert [] + rest == rest;
      }
    }
  }

  function BundleOf(bundles: seq<Bundle>, id: string): Option<Bundle> {
    match FindBundle(bundles, id) case Some(i) => Some(bundles[i]) case None => None
  }

  lemma PrependedFound(b: Bundle, bundles: seq<Bundle>, id: string)
    ensures BundleOf([b] + bundles, id) == if b.id == id then Some(b) else BundleOf(bundles, id)
  {
    assert ([b] + bundles)[1..] == bundles;
  }

  /** Selecting shows the bundle, or the connection's own list when the id is of none; all
      others are undisturbed. */
  lemma SelectShows(s: State, c: string, id: string, d: string)
    requires c != ""
    ensures
      var t := Selected(s, c, id);
      if d == c
      then Shown(t, c) == (match Resolved(s.bundles, id) case Some(i) => s.bundles[i].commands case None => OwnList(s.lists, c))
      else Shown(t, d) == Shown(s, d) && TargetOf(t, d) == TargetOf(s, d)
  {
  }

  /** A rename changes the names of that bundle, and nothing any connection shows. */
  lemma RenameOnlyRenames(s: State, id: string, name: string, d: string)
    ensures
      var t := Renamed(s, id, name);
      && Shown(t, d) == Shown(s, d) && TargetOf(t, d) == TargetOf(s, d)
      && (name != "" && FindBundle(s.bundles, id).Some? ==>
            FindBundle(t.bundles, id) == FindBundle(s.bundles, id) &&
            t.bundles[FindBundle(t.bundles, id).value].name == name)
  {
    if name != "" {
      SameIdsSameBundle(s.bundles, WithName(s.bundles, id, name), Raw(s.selections, d));
      SameIdsSameBundle(s.bundles, WithName(s.bundles, id, name), id);
    }
  }

  /** A created bundle is the one selected by its id, with the given commands under ids of
      their own; until someone selects it, nobody sees a difference. */
  lemma CreatedBundleShows(s: State, a: Action, c: string, d: string)
    requires a.Create? && Enabled(s, a) && s.bundlesLoaded && c != ""
    ensures
      var t := Apply(s, a);
      && Shown(t, d) == Shown(s, d) && TargetOf(t, d) == TargetOf(s, d)
      && TargetOf(Selected(t, c, a.id), c) == Some(OfBundle(a.id))
      && var shown := Shown(Selected(t, c, a.id), c);
         |shown| == |a.commands| &&
         forall i :: 0 <= i < |shown| ==> shown[i].id == a.ids[i] && shown[i].body == a.commands[i].body
  {
    var bundle := Bundle(a.id, a.name, Copied(a.commands, a.ids));
    assert d in s.selections ==> s.selections[d] in s.selections.Values;
    AppendedFound(s.bundles, bundle, Raw(s.selections, d));
    AppendedItself(s.bundles, bundle);
  }

  lemma {:induction false} AppendedItself(bundles: seq<Bundle>, b: Bundle)
    requires forall x :: x in bundles ==> x.id != b.id
    ensures FindBundle(bundles + [b], b.id) == Some(|bundles|)
  {
    if bundles != [] {
      assert (bundles + [b])[1..] == bundles[1..] + [b];
      AppendedItself(bundles[1..], b);
    }
  }

  /** Removing a command just added gives the list back, in order. */
  lemma RemoveUndoesAdd(commands: seq<Command>, command: Command)
    requires forall c :: c in commands ==> c.id != command.id
    ensures Edited(Edited(commands, Add(command)).value, Remove(command.id)) == Some(commands)
  {
    RemovedAdded(commands, command);
  }

  lemma {:induction false} RemovedAdded(commands: seq<Command>, command: Command)
    requires forall c :: c in commands ==> c.id != command.id
    ensures Removed(commands + [command], command.id) == commands
  {
    if commands == [] {
      assert [command][1..] == [];
    } else {
      RemovedAdded(commands[1..], command);
      assert (commands + [command])[1..] == commands[1..] + [command];
      assert commands[0] in commands;
    }
  }

  // ------------------------------------------------------------------
  // Memory and durable store agree, over every run
  // ------------------------------------------------------------------

  function Started(disk: Durable): State {
    State(map[], [], false, map[], disk)
  }

  /** A run remembers which connections had their selection read or chosen. */
  datatype World = World(state: State, settled: set<string>)

  predicate NamesNothing(s: State, id: string) {
    && id != "" && id !in s.selections.Values && id !in s.disk.selections.Values
    && (forall b :: b in s.bundles + s.disk.bundles ==> b.id != id)
  }

  /** A created bundle has a new id; every other call may come at any time. */
  predicate Enabled(s: State, a: Action) {
    a.Create? ==> |a.ids| == |a.commands| && NamesNothing(s, a.id)
  }

  function Happen(w: World, a: Action): World {
    if !Enabled(w.state, a) then w
    else
      var settles := ((a.EnsureLoaded? && a.c !in w.state.lists) || a.Select?) && a.c != "";
      World(Apply(w.state, a), if settles then w.settled + {a.c} else w.settled)
  }

  function Run(w: World, actions: seq<Action>): World
    decreases |actions|
  {
    if actions == [] then w else Run(Happen(w, actions[0]), actions[1..])
  }

  predicate SameSelection(s: State, c: string) {
    Resolved(s.disk.bundles, Raw(s.selections, c)) == Resolved(s.disk.bundles, Raw(s.disk.selections, c))
  }

  ghost predicate Coherent(w: World) {
    var s := w.state;
    && (forall c :: c in s.lists && c != "" ==> s.lists[c] == StoredList(s.disk, c))
    && s.bundles == (if s.bundlesLoaded then s.disk.bundles else [])
    && (forall c :: c in s.selections ==> c in w.settled)
    && (forall c :: c in w.settled ==> SameSelection(s, c))
  }

  lemma {:induction false} AppendedFound(bundles: seq<Bundle>, b: Bundle, id: string)
    requires id != b.id
    ensures FindBundle(bundles + [b], id) == FindBundle(bundles, id)
  {
    if bundles != [] {
      assert (bundles + [b])[1..] == bundles[1..] + [b];
      AppendedFound(bundles[1..], b, id);
    }
  }

  lemma BundlesCoherent(w: World)
    requires Coherent(w)
    ensures Coherent(Happen(w, EnsureBundles))
  {
    forall c | c in w.settled ensures SameSelection(BundlesLoaded(w.state), c) {
      assert SameSelection(w.state, c);
    }
  }

  lemma LoadedSameSelection(s: State, c: string, d: string)
    requires s.bundlesLoaded && s.bundles == s.disk.bundles
    requires if d == c && c !in s.lists then SameSelection(s, c) || c !in s.selections else SameSelection(s, d)
    ensures c != "" ==> SameSelection(Loaded(s, c), d)
  {
  }

  lemma LoadedCoherent(w: World, c: string)
    requires Coherent(w)
    ensures Coherent(Happen(w, EnsureLoaded(c)))
  {
    BundlesCoherent(w);
    var s, t := BundlesLoaded(w.state), Loaded(w.state, c);
    forall d | d in Happen(w, EnsureLoaded(c)).settled ensures SameSelection(t, d) {
      if c != "" { LoadedSameSelection(s, c, d); }
    }
    forall d | d in t.lists && d != "" ensures t.lists[d] == StoredList(t.disk, d) {
    }
  }

  lemma CreatedCoherent(w: World, a: Action)
    requires Coherent(w) && a.Create? && Enabled(w.state, a)
    ensures Coherent(Happen(w, a))
  {
    var s := BundlesLoaded(w.state);
    var t := Apply(w.state, a);
    forall c | c in w.settled ensures SameSelection(t, c) {
      assert SameSelection(w.state, c);
      assert c in s.selections ==> s.selections[c] in s.selections.Values;
      assert c in s.disk.selections ==> s.disk.selections[c] in s.disk.selections.Values;
      var bundle := t.bundles[|s.bundles|];
      AppendedFound(s.bundles, bundle, Raw(s.selections, c));
      AppendedFound(s.bundles, bundle, Raw(s.disk.selections, c));
    }
  }

  predicate SameIds(a: seq<Bundle>, b: seq<Bundle>) {
    |a| == |b| && forall i :: 0 <= i < |a| ==> a[i].id == b[i].id
  }

  lemma SameIdsSameSelection(s: State, t: State, c: string)
    requires SameSelection(s, c) && t.selections == s.selections && t.disk.selections == s.disk.selections
    requires t.disk.bundles == [] || SameIds(t.disk.bundles, s.disk.bundles)
    ensures SameSelection(t, c)
  {
    if t.disk.bundles != [] {
      SameIdsSameBundle(s.disk.bundles, t.disk.bundles, Raw(s.selections, c));
      SameIdsSameBundle(s.disk.bundles, t.disk.bundles, Raw(s.disk.selections, c));
    }
  }

  lemma EditedShape(s: State, target: Target, e: Edit)
    requires s.bundles == (if s.bundlesLoaded then s.disk.bundles else [])
    ensures
      var t := Mutated(s, target, e);
      && t.selections == s.selections && t.disk.selections == s.disk.selections
      && t.bundlesLoaded == s.bundlesLoaded && SameIds(t.disk.bundles, s.disk.bundles)
      && t.bundles == (if t.bundlesLoaded then t.disk.bundles else [])
  {
  }

  lemma EditedCoherent(w: World, target: Target, e: Edit)
    requires Coherent(w)
    ensures Coherent(Happen(w, EditAt(target, e)))
  {
    var s, t := w.state, Mutated(w.state, target, e);
    EditedShape(s, target, e);
    forall c | c in w.settled ensures SameSelection(t, c) {
      SameIdsSameSelection(s, t, c);
    }
    forall c | c in t.lists && c != "" ensures t.lists[c] == StoredList(t.disk, c) {
      assert c in s.lists ==> s.lists[c] == StoredList(s.disk, c);
    }
  }

  lemma RenamedCoherent(w: World, id: string, name: string)
    requires Coherent(w)
    ensures Coherent(Happen(w, Rename(id, name)))
  {
    var s, t := w.state, Renamed(w.state, id, name);
    forall c | c in w.settled ensures SameSelection(t, c) {
      SameIdsSameSelection(s, t, c);
    }
  }

  lemma DeletedCoherent(w: World, id: string)
    requires Coherent(w)
    ensures Coherent(Happen(w, Delete(id)))
  {
    var s, t := w.state, Deleted(w.state, id);
    forall c | c in w.settled ensures SameSelection(t, c) {
      assert SameSelection(s, c);
      if s.bundlesLoaded && (Raw(s.selections, c) != id || id == "") {
        SameAfterDeleting(s.bundles, id, Raw(s.selections, c), Raw(s.disk.selections, c));
      }
    }
  }

  lemma SameAfterDeleting(bundles: seq<Bundle>, id: string, x: string, y: string)
    requires Resolved(bundles, x) == Resolved(bundles, y) && (x != id || x == "")
    ensures Resolved(WithoutBundle(bundles, id), x) == Resolved(WithoutBundle(bundles, id), y)
  {
    StillFound(bundles, id, x);
    StillFound(bundles, id, y);
    assert Resolved(bundles, x).Some? ==> x == y;
    assert x != "" ==> BundleOf(bundles, x).Some? == Resolved(bundles, x).Some?;
    assert y != "" ==> BundleOf(bundles, y).Some? == Resolved(bundles, y).Some?;
  }

  lemma SelectedCoherent(w: World, c: string, id: string)
    requires Coherent(w)
    ensures Coherent(Happen(w, Select(c, id)))
  {
    var s, t := w.state, Selected(w.state, c, id);
    forall d | d in Happen(w, Select(c, id)).settled ensures SameSelection(t, d) {
      if d in w.settled { assert SameSelection(s, d); }
    }
  }

  lemma {:induction false} RunKeepsCoherent(w: World, actions: seq<Action>)
    requires Coherent(w)
    ensures Coherent(Run(w, actions))
    decreases |actions|
  {
    if actions != [] {
      var a := actions[0];
      match a {
        case EnsureLoaded(c) => LoadedCoherent(w, c);
        case EnsureBundles => BundlesCoherent(w);
        case EditAt(target, e) => EditedCoherent(w, target, e);
        case Create(_, _, _, _) => if Enabled(w.state, a) { CreatedCoherent(w, a); }
        case Rename(id, name) => RenamedCoherent(w, id, name);
        case Delete(id) => DeletedCoherent(w, id);
        case Select(c, id) => SelectedCoherent(w, c, id);
      }
      RunKeepsCoherent(Happen(w, a), actions[1..]);
    }
  }

  /** What a connection would show if the program were restarted now. */
  function AfterRestart(s: State, c: string): State {
    Loaded(Started(s.disk), c)
  }

  /** Nothing is lost: after any run from any durable contents, a connection that has been
      loaded shows exactly what it would show after a restart, at the same target. */
  lemma RestartShowsTheSame(disk: Durable, actions: seq<Action>, c: string)
    ensures
      var w := Run(World(Started(disk), {}), actions);
      var s := w.state;
      (c != "" && c in w.settled && c in s.lists && s.bundlesLoaded) ==>
        && Shown(AfterRestart(s, c), c) == Shown(s, c)
        && TargetOf(AfterRestart(s, c), c) == TargetOf(s, c)
  {
    RunKeepsCoherent(World(Started(disk), {}), actions);
    var w := Run(World(Started(disk), {}), actions);
    if c in w.settled { assert SameSelection(w.state, c); }
  }

  // ------------------------------------------------------------------
  // Where calls that come too early go wrong
  // ------------------------------------------------------------------

  /** An edit of a connection's own list before that connection was loaded counts as
      loading it, so its stored selection is never read: the connection stays on its own
      list, whereas a restart would return it to its bundle. The two agree exactly when
      the stored selection stands for no bundle. */
  lemma EarlyEditHidesSelection(w: World, c: string, e: Edit)
    requires Coherent(w) && w.state.bundlesLoaded && c != "" && c !in w.state.lists && c !in w.settled
    requires Edited(StoredList(w.state.disk, c), e).Some?
    ensures
      var t := Loaded(Mutated(w.state, OfConnection(c), e), c);
      && TargetOf(t, c) == Some(OfConnection(c))
      && (TargetOf(AfterRestart(t, c), c) == TargetOf(t, c)
          <==> Resolved(w.state.disk.bundles, Raw(w.state.disk.selections, c)).None?)
  {
  }

  /** Renaming before the bundles were read stores the renaming of no bundles: the durable
      bundles are the renamed ones exactly when they were read before, or there were none. */
  lemma EarlyRenameWipes(w: World, id: string, name: string)
    requires Coherent(w) && name != ""
    ensures
      Renamed(w.state, id, name).disk.bundles == WithName(w.state.disk.bundles, id, name)
      <==> w.state.bundlesLoaded || w.state.disk.bundles == []
  {
    assert |WithName(w.state.disk.bundles, id, name)| == |w.state.disk.bundles|;
  }

  lemma {:induction false} NoneLeft(bundles: seq<Bundle>, id: string)
    ensures WithoutBundle(bundles, id) == [] <==> forall b :: b in bundles ==> b.id == id
  {
    if bundles != [] {
      NoneLeft(bundles[1..], id);
      assert bundles == [bundles[0]] + bundles[1..];
    }
  }

  /** Likewise deleting keeps the other bundles exactly when the bundles were read before,
      or none had another id. */
  lemma EarlyDeleteWipes(w: World, id: string)
    requires Coherent(w)
    ensures
      Deleted(w.state, id).disk.bundles == WithoutBundle(w.state.disk.bundles, id)
      <==> w.state.bundlesLoaded || forall b :: b in w.state.disk.bundles ==> b.id == id
  {
    NoneLeft(w.state.disk.bundles, id);
  }

  /** All three happen: two stored bundles and one selection, nothing loaded but what an
      early call itself loads. */
  lemma EarlyCallsLose(command: Command)
    ensures
      var disk := Durable(map[], [Bundle("b", "B", []), Bundle("d", "D", [])], map["c" := "b"]);
      var w := World(Started(disk), {});
      var edited := Loaded(Mutated(BundlesLoaded(w.state), OfConnection("c"), Add(command)), "c");
      && Coherent(w)
      && Renamed(w.state, "b", "X").disk.bundles == []
      && Deleted(w.state, "d").disk.bundles == []
      && TargetOf(edited, "c") == Some(OfConnection("c"))
      && TargetOf(AfterRestart(edited, "c"), "c") == Some(OfBundle("b"))
  {
    var disk := Durable(map[], [Bundle("b", "B", []), Bundle("d", "D", [])], map["c" := "b"]);
    assert FindBundle(disk.bundles, "b") == Some(0);
  }
}
