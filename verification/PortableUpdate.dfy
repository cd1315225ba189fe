/** The portable self-update: extracting the archive into a staging folder, and the
    hand-off script that swaps four program entries and rolls back on any failure. */
module PortableUpdate {
  import opened Basics
  import opened RemotePaths
  import opened Downloads

  /** A top-level entry of a folder with everything below it, by relative path. */
  type Tree = Nodes

  /** A folder by top-level entry. */
  type Folder = map<string, Tree>

  const EXE := "KKTerm.exe"
  const MARKER := "kkterm-portable.marker"

  /** `$names`: the entries the script swaps. */
  const NAMES: seq<string> := [EXE, "kkterm-cli.exe", "manual", "assistant-skills"]

  const ALLOWED_ROOTS: seq<string> := [EXE, "kkterm-cli.exe", MARKER, "manual", "assistant-skills"]

  const MAX_ARCHIVE_ENTRIES: nat := 10000
  const MAX_UNCOMPRESSED_BYTES: nat := 1024 * 1024 * 1024

  // ------------------------------------------------------------------
  // Extraction
  // ------------------------------------------------------------------

  /** One archive entry; `path` is its enclosed name, None when that is unsafe. */
  datatype ZipEntry = ZipEntry(path: Option<Key>, folder: bool, symlink: bool, size: nat, content: Bytes)

  /** The bytes the first n entries hold for a path: those of the last file entry there. */
  function ContentAt(entries: seq<ZipEntry>, n: nat, path: Key): Option<Bytes>
    requires n <= |entries|
  {
    if n == 0 then None
    else
      var last := entries[n - 1];
      if !last.folder && last.path == Some(path) then Some(last.content) else ContentAt(entries, n - 1, path)
  }

  function ContentOf(node: Node): Option<Bytes> {
    match node case File(content) => Some(content) case Directory => None
  }

  /** A staging folder holds exactly the files of the first n entries, under the allowed
      roots. */
  ghost predicate StagedUpTo(entries: seq<ZipEntry>, n: nat, nodes: Nodes)
    requires n <= |entries|
  {
    && (forall k :: k in nodes && k != [] ==> k[0] in ALLOWED_ROOTS)
    && (forall k :: k in nodes ==> ContentAt(entries, n, k) == ContentOf(nodes[k]))
    && (forall k :: k !in nodes ==> ContentAt(entries, n, k) == None)
  }

  ghost predicate Staged(entries: seq<ZipEntry>, nodes: Nodes) {
    StagedUpTo(entries, |entries|, nodes)
  }

  /** The program layout the script relies on. */
  predicate Complete(nodes: Nodes) {
    && (forall name :: name in ALLOWED_ROOTS ==> [name] in nodes)
    && Lookup(nodes, ["manual"]) == Some(Directory) && Lookup(nodes, ["assistant-skills"]) == Some(Directory)
    && Lookup(nodes, [EXE]) != Some(Directory) && Lookup(nodes, ["kkterm-cli.exe"]) != Some(Directory)
    && Lookup(nodes, [MARKER]) != Some(Directory)
  }

  // ------------------------------------------------------------------
  // When extraction cannot fail
  // ------------------------------------------------------------------

  /** An entry the checks let through. */
  predicate Permitted(e: ZipEntry) {
    !e.symlink && e.path.Some? && e.path.value != [] && e.path.value[0] in ALLOWED_ROOTS
  }

  /** What the first entries say they take up. */
  function Sizes(entries: seq<ZipEntry>, n: nat): nat
    requires n <= |entries|
  {
    if n == 0 then 0 else Sizes(entries, n - 1) + entries[n - 1].size
  }

  /** Two entries of one tree: no file is a folder of the other, and one path has one kind. */
  predicate Agree(e: ZipEntry, f: ZipEntry) {
    && e.path.Some? && f.path.Some?
    && (!e.folder ==> !(e.path.value < f.path.value)) && (e.path == f.path ==> e.folder == f.folder)
  }

  ghost predicate OneTree(entries: seq<ZipEntry>) {
    && (forall i :: 0 <= i < |entries| ==> Permitted(entries[i]))
    && (forall i, j :: 0 <= i < |entries| && 0 <= j < |entries| ==> Agree(entries[i], entries[j]))
  }

  /** The folders that extracting an entry takes: those above it, and itself if it is one. */
  function FoldersOf(e: ZipEntry): set<Key>
    requires e.path.Some?
  {
    set i | 0 <= i < |e.path.value| + (if e.folder then 1 else 0) :: e.path.value[..i]
  }

  predicate AllNamed(entries: seq<ZipEntry>, n: nat)
    requires n <= |entries|
  {
    forall i :: 0 <= i < n ==> entries[i].path.Some?
  }

  function NeededDirs(entries: seq<ZipEntry>, n: nat): set<Key>
    requires n <= |entries| && AllNamed(entries, n)
  {
    if n == 0 then {[]} else NeededDirs(entries, n - 1) + FoldersOf(entries[n - 1])
  }

  /** The archive holds the required files, and something in or for the required folders. */
  ghost predicate HoldsPayload(entries: seq<ZipEntry>) {
    && HasFile(entries, EXE) && HasFile(entries, "kkterm-cli.exe") && HasFile(entries, MARKER)
    && HasFolder(entries, "manual") && HasFolder(entries, "assistant-skills")
  }

  predicate HasFile(entries: seq<ZipEntry>, name: string) {
    exists i :: 0 <= i < |entries| && !entries[i].folder && entries[i].path == Some([name])
  }

  predicate HasFolder(entries: seq<ZipEntry>, name: string) {
    exists i :: 0 <= i < |entries| && entries[i].path.Some? && [name] in FoldersOf(entries[i])
  }

  /** The entries can all be extracted. */
  ghost predicate Extractable(entries: seq<ZipEntry>, depthLimit: nat) {
    && Sizes(entries, |entries|) <= MAX_UNCOMPRESSED_BYTES && OneTree(entries)
    && forall i :: 0 <= i < |entries| ==> |entries[i].path.value| <= depthLimit
  }

  ghost predicate GoodArchive(entries: seq<ZipEntry>, depthLimit: nat) {
    1 <= |entries| <= MAX_ARCHIVE_ENTRIES && Extractable(entries, depthLimit) && HoldsPayload(entries)
  }

  function DirsIn(nodes: Nodes): set<Key> {
    set k | k in nodes && nodes[k] == Directory
  }

  /** The directories are exactly those the first n entries take. */
  ghost predicate Grown(entries: seq<ZipEntry>, n: nat, nodes: Nodes)
    requires n <= |entries|
  {
    AllNamed(entries, n) && DirsIn(nodes) == NeededDirs(entries, n)
  }

  lemma {:induction false} ContentHasEntry(entries: seq<ZipEntry>, n: nat, path: Key) returns (i: nat)
    requires n <= |entries| && ContentAt(entries, n, path).Some?
    ensures i < n && !entries[i].folder && entries[i].path == Some(path)
  {
    i := n - 1;
    if !(!entries[i].folder && entries[i].path == Some(path)) { i := ContentHasEntry(entries, n - 1, path); }
  }

  lemma {:induction false} EntryHasContent(entries: seq<ZipEntry>, n: nat, i: nat)
    requires i < n <= |entries| && !entries[i].folder && entries[i].path.Some?
    ensures ContentAt(entries, n, entries[i].path.value).Some?
  {
    if i < n - 1 { EntryHasContent(entries, n - 1, i); }
  }

  lemma {:induction false} NeededHasEntry(entries: seq<ZipEntry>, n: nat, k: Key) returns (i: nat)
    requires n <= |entries| && AllNamed(entries, n) && k in NeededDirs(entries, n) && k != []
    ensures i < n && k in FoldersOf(entries[i])
  {
    i := n - 1;
    if k !in FoldersOf(entries[i]) { i := NeededHasEntry(entries, n - 1, k); }
  }

  lemma {:induction false} EntryIsNeeded(entries: seq<ZipEntry>, n: nat, i: nat, k: Key)
    requires i < n <= |entries| && AllNamed(entries, n) && k in FoldersOf(entries[i])
    ensures k in NeededDirs(entries, n)
  {
    if i < n - 1 { EntryIsNeeded(entries, n - 1, i, k); }
  }

  /** Entry n belongs to one tree with those before it. */
  ghost predicate FitsIn(entries: seq<ZipEntry>, n: nat)
    requires n < |entries|
  {
    forall i :: 0 <= i < n ==> Agree(entries[i], entries[n]) && Agree(entries[n], entries[i])
  }

  /** For an entry of the same tree the way is open and the spot free. */
  lemma RoomForEntry(entries: seq<ZipEntry>, n: nat, nodes: Nodes)
    requires n < |entries| && StagedUpTo(entries, n, nodes) && Grown(entries, n, nodes)
    requires Permitted(entries[n]) && FitsIn(entries, n)
    ensures OpenWay(nodes, if entries[n].folder then entries[n].path.value else Init(entries[n].path.value))
    ensures !entries[n].folder ==> Lookup(nodes, entries[n].path.value) != Some(Directory)
  {
    var entry := entries[n];
    var path := entry.path.value;
    var way := if entry.folder then path else Init(path);
    forall i | 0 <= i <= |way| ensures Lookup(nodes, way[..i]) in {None, Some(Directory)} {
      var part := way[..i];
      assert part == path[..i];
      if ContentAt(entries, n, part).Some? {
        var j := ContentHasEntry(entries, n, part);
        FileInWayDisagrees(entries[j], entry, part);
      }
    }
    if !entry.folder && path in DirsIn(nodes) {
      var j := NeededHasEntry(entries, n, path);
      FolderInSpotDisagrees(entries[j], entry);
    }
  }

  lemma FileInWayDisagrees(e: ZipEntry, entry: ZipEntry, part: Key)
    requires !e.folder && e.path == Some(part) && entry.path.Some? && part <= entry.path.value
    requires part == entry.path.value ==> entry.folder
    ensures !Agree(e, entry)
  {
    if |part| == |entry.path.value| { assert part == entry.path.value; }
  }

  lemma FolderInSpotDisagrees(e: ZipEntry, entry: ZipEntry)
    requires e.path.Some? && entry.path.Some? && !entry.folder && entry.path.value in FoldersOf(e)
    ensures !Agree(entry, e)
  {
    var path := entry.path.value;
    if |path| == |e.path.value| { assert path == e.path.value; }
  }

  method ExtractPortableUpdate(entries: seq<ZipEntry>, disk: LocalDisk) returns (ok: bool)
    requires disk.nodes == map[[] := Directory]
    modifies disk
    ensures ok ==> Staged(entries, disk.nodes) && Complete(disk.nodes)
    ensures ok ==> 1 <= |entries| <= MAX_ARCHIVE_ENTRIES && Sizes(entries, |entries|) <= MAX_UNCOMPRESSED_BYTES
    ensures ok ==> AllPermitted(entries, |entries|)
    ensures disk.Calm() && GoodArchive(entries, disk.depthLimit) ==> ok
  {
    if |entries| == 0 || |entries| > MAX_ARCHIVE_ENTRIES { return false; }
    ok := StageEntries(entries, disk);
    if !ok { return; }
    if Grown(entries, |entries|, disk.nodes) && HoldsPayload(entries) { GrownIsComplete(entries, disk.nodes); }
    ok := Complete(disk.nodes);
  }

  predicate AllPermitted(entries: seq<ZipEntry>, n: nat)
    requires n <= |entries|
  {
    forall i :: 0 <= i < n ==> Permitted(entries[i])
  }

  /** The loop over the archive. */
  method StageEntries(entries: seq<ZipEntry>, disk: LocalDisk) returns (ok: bool)
    requires disk.nodes == map[[] := Directory]
    modifies disk
    ensures ok ==> Staged(entries, disk.nodes) && Sizes(entries, |entries|) <= MAX_UNCOMPRESSED_BYTES
    ensures ok ==> AllPermitted(entries, |entries|)
    ensures disk.Calm() && Extractable(entries, disk.depthLimit) ==> ok && Grown(entries, |entries|, disk.nodes)
  {
    ghost var good := disk.Calm() && Extractable(entries, disk.depthLimit);
    var total: nat := 0;
    for i := 0 to |entries|
      invariant total == Sizes(entries, i) <= MAX_UNCOMPRESSED_BYTES
      invariant AllPermitted(entries, i)
      invariant StagedUpTo(entries, i, disk.nodes)
      invariant good ==> Grown(entries, i, disk.nodes)
    {
      if good { NextJoins(entries, i, disk.depthLimit); }
      ok := StageNext(entries, i, entries[i], total, disk);
      if !ok { return; }
      total := total + entries[i].size;
    }
    ok := true;
  }

  /** Entry n can be extracted after those before it. */
  ghost predicate Joins(entries: seq<ZipEntry>, n: nat, total: nat, depthLimit: nat)
    requires n < |entries|
  {
    && Permitted(entries[n]) && |entries[n].path.value| <= depthLimit
    && total + entries[n].size <= MAX_UNCOMPRESSED_BYTES && FitsIn(entries, n)
  }

  lemma NextJoins(entries: seq<ZipEntry>, n: nat, depthLimit: nat)
    requires Extractable(entries, depthLimit) && n < |entries|
    ensures Joins(entries, n, Sizes(entries, n), depthLimit)
  {
    SizesGrow(entries, n + 1, |entries|);
  }

  /** The loop body: the checks of one entry, and its extraction. */
  method StageNext(ghost entries: seq<ZipEntry>, ghost n: nat, entry: ZipEntry, total: nat, disk: LocalDisk)
    returns (ok: bool)
    requires n < |entries| && entry == entries[n] && StagedUpTo(entries, n, disk.nodes)
    modifies disk
    ensures ok ==> StagedUpTo(entries, n + 1, disk.nodes)
    ensures ok ==> Permitted(entry) && total + entry.size <= MAX_UNCOMPRESSED_BYTES
    ensures Joins(entries, n, total, disk.depthLimit) && Grown(entries, n, old(disk.nodes)) ==>
              (ok ==> Grown(entries, n + 1, disk.nodes)) && (disk.Calm() ==> ok)
  {
    if total + entry.size > MAX_UNCOMPRESSED_BYTES || entry.symlink || entry.path.None? || entry.path.value == [] {
      return false;
    }
    if entry.path.value[0] !in ALLOWED_ROOTS { return false; }
    ok := StageEntry(entries, n, entry, disk);
  }

  lemma {:induction false} SizesGrow(entries: seq<ZipEntry>, m: nat, n: nat)
    requires m <= n <= |entries|
    ensures Sizes(entries, m) <= Sizes(entries, n)
  {
    if m < n { SizesGrow(entries, m, n - 1); }
  }

  lemma FileIsThere(entries: seq<ZipEntry>, nodes: Nodes, name: string)
    requires Staged(entries, nodes) && HasFile(entries, name)
    ensures [name] in nodes && nodes[[name]].File?
  {
    var i :| 0 <= i < |entries| && !entries[i].folder && entries[i].path == Some([name]);
    EntryHasContent(entries, |entries|, i);
  }

  lemma FolderIsThere(entries: seq<ZipEntry>, nodes: Nodes, name: string)
    requires Grown(entries, |entries|, nodes) && HasFolder(entries, name)
    ensures Lookup(nodes, [name]) == Some(Directory)
  {
    var i :| 0 <= i < |entries| && entries[i].path.Some? && [name] in FoldersOf(entries[i]);
    EntryIsNeeded(entries, |entries|, i, [name]);
    assert [name] in DirsIn(nodes);
  }

  lemma GrownIsComplete(entries: seq<ZipEntry>, nodes: Nodes)
    requires Staged(entries, nodes) && Grown(entries, |entries|, nodes) && HoldsPayload(entries)
    ensures Complete(nodes)
  {
    FileIsThere(entries, nodes, EXE);
    FileIsThere(entries, nodes, "kkterm-cli.exe");
    FileIsThere(entries, nodes, MARKER);
    FolderIsThere(entries, nodes, "manual");
    FolderIsThere(entries, nodes, "assistant-skills");
  }

  method StageEntry(ghost entries: seq<ZipEntry>, ghost n: nat, entry: ZipEntry, disk: LocalDisk) returns (ok: bool)
    requires n < |entries| && entry == entries[n] && StagedUpTo(entries, n, disk.nodes) && Permitted(entry)
    modifies disk
    ensures ok ==> StagedUpTo(entries, n + 1, disk.nodes)
    ensures Grown(entries, n, old(disk.nodes)) && FitsIn(entries, n) ==>
              && (ok ==> Grown(entries, n + 1, disk.nodes))
              && (disk.Calm() && |entry.path.value| <= disk.depthLimit ==> ok)
  {
    ghost var before := disk.nodes;
    ghost var fits := Grown(entries, n, before) && FitsIn(entries, n);
    if fits { RoomForEntry(entries, n, before); }
    var path := entry.path.value;
    if entry.folder {
      ok := disk.CreateDirAll(path);
      DirectoriesStaged(entries, n, before, path, disk.nodes);
      if ok && fits { FolderGrown(entries, n, before, disk.nodes); }
      return;
    }
    ok := disk.CreateDirAll(Init(path));
    DirectoriesStaged(entries, n, before, Init(path), disk.nodes);
    if !ok { return; }
    ghost var prepared := disk.nodes;
    assert Lookup(prepared, path) == Lookup(before, path);
    ok := disk.WriteFile(path, entry.content);
    if ok { FileStaged(entries, n, prepared); }
    if ok && fits { FileGrown(entries, n, before, prepared); }
  }

  /** Making a folder adds exactly the folders on the way to it. */
  lemma DirsMade(before: Nodes, path: Key, after: Nodes)
    requires OnlyDirsUpTo(before, path, after)
    requires forall i :: 0 <= i <= |path| ==> Lookup(after, path[..i]) == Some(Directory)
    ensures DirsIn(after) == DirsIn(before) + set i | 0 <= i <= |path| :: path[..i]
  {
    var way := set i | 0 <= i <= |path| :: path[..i];
    forall k ensures k in DirsIn(after) <==> k in DirsIn(before) || k in way {
      assert Lookup(after, k) == Lookup(before, k) || FreshDir(before, path, after, k);
      if k <= path { assert path[..|k|] == k; }
    }
  }

  lemma FolderGrown(entries: seq<ZipEntry>, n: nat, before: Nodes, after: Nodes)
    requires n < |entries| && Grown(entries, n, before) && Permitted(entries[n]) && entries[n].folder
    requires OnlyDirsUpTo(before, entries[n].path.value, after)
    requires forall i :: 0 <= i <= |entries[n].path.value| ==> Lookup(after, entries[n].path.value[..i]) == Some(Directory)
    ensures Grown(entries, n + 1, after)
  {
    var path := entries[n].path.value;
    DirsMade(before, path, after);
    assert FoldersOf(entries[n]) == set i | 0 <= i <= |path| :: path[..i];
  }

  lemma FileGrown(entries: seq<ZipEntry>, n: nat, before: Nodes, prepared: Nodes)
    requires n < |entries| && Grown(entries, n, before) && Permitted(entries[n]) && !entries[n].folder
    requires OnlyDirsUpTo(before, Init(entries[n].path.value), prepared)
    requires forall i :: 0 <= i <= |Init(entries[n].path.value)| ==>
               Lookup(prepared, Init(entries[n].path.value)[..i]) == Some(Directory)
    requires Lookup(prepared, entries[n].path.value) != Some(Directory)
    ensures Grown(entries, n + 1, prepared[entries[n].path.value := File(entries[n].content)])
  {
    var path := entries[n].path.value;
    var way := Init(path);
    DirsMade(before, way, prepared);
    assert forall i :: 0 <= i <= |way| ==> way[..i] == path[..i];
    assert FoldersOf(entries[n]) == set i | 0 <= i <= |way| :: way[..i];
    assert DirsIn(prepared[path := File(entries[n].content)]) == DirsIn(prepared);
  }

  lemma DirectoriesStaged(entries: seq<ZipEntry>, n: nat, before: Nodes, path: Key, after: Nodes)
    requires n < |entries| && StagedUpTo(entries, n, before) && OnlyDirsUpTo(before, path, after)
    requires path != [] ==> path[0] in ALLOWED_ROOTS
    ensures StagedUpTo(entries, n, after)
    ensures entries[n].folder ==> StagedUpTo(entries, n + 1, after)
  {
    assert entries[n].folder ==> forall k :: ContentAt(entries, n + 1, k) == ContentAt(entries, n, k);
    forall k | k in after ensures (k in before && before[k] == after[k]) || FreshDir(before, path, after, k) {
      assert Lookup(after, k) == Lookup(before, k) || FreshDir(before, path, after, k);
    }
    forall k | k !in after ensures k !in before {
      assert Lookup(after, k) == Lookup(before, k) || FreshDir(before, path, after, k);
    }
  }

  lemma FileStaged(entries: seq<ZipEntry>, n: nat, before: Nodes)
    requires n < |entries| && StagedUpTo(entries, n, before) && Permitted(entries[n]) && !entries[n].folder
    ensures StagedUpTo(entries, n + 1, before[entries[n].path.value := File(entries[n].content)])
  {
  }

  /** The staging folder by top-level entry. */
  function EntryTree(nodes: Nodes, name: string): Tree {
    var below := set k | k in nodes && [name] <= k :: k[1..];
    assert forall k :: k in nodes && [name] <= k ==> [name] + k[1..] == k;
    map k | k in below :: nodes[[name] + k]
  }

  function TopLevel(nodes: Nodes): Folder {
    map k | k in nodes && |k| == 1 :: k[0] := EntryTree(nodes, k[0])
  }

  // ------------------------------------------------------------------
  // The hand-off script
  // ------------------------------------------------------------------

  /** What the script sees when it looks for the ready marker. */
  datatype Poll = Ready | Exited | Waiting

  /** Stopped: the script gave up before it moved anything. */
  datatype HandoffResult = Stopped | Committed | RolledBack

  /** The state between two moves: old entries on their way out, new ones on their way
      in. Every old entry is in exactly one of the program folder and the rollback
      folder, and `movedOld` names exactly those in the rollback folder. */
  ghost predicate Forward(names: seq<string>, root0: Folder, stage0: Folder, root: Folder, stage: Folder, rollback: Folder,
                          movedOld: seq<string>, movedNew: seq<string>)
  {
    && (forall n :: n in movedOld ==> n in names && n in root0)
    && (forall n :: n in movedNew ==> n in names && n in stage0)
    && (forall n :: Lookup(rollback, n) == if n in movedOld then Lookup(root0, n) else None)
    && (forall n :: Lookup(stage, n) == if n in movedNew then None else Lookup(stage0, n))
    && (forall n :: Lookup(root, n) ==
                    if n in movedNew then Lookup(stage0, n)
                    else if n in movedOld then None else Lookup(root0, n))
    && (movedNew != [] ==> forall n :: n in names && n in root0 ==> n in movedOld)
  }

  /** The folder after an update: the four entries are the staged ones. */
  ghost predicate Installed(root0: Folder, stage0: Folder, root: Folder) {
    forall n :: Lookup(root, n) == Lookup(if n in NAMES then stage0 else root0, n)
  }

  /** The folders at one moment, with the lists the script keeps. */
  datatype Snapshot = Snapshot(root: Folder, stage: Folder, rollback: Folder,
                               movedOld: seq<string>, movedNew: seq<string>)

  function OldOut(s: Snapshot, name: string): Snapshot
    requires name in s.root
  {
    Snapshot(s.root - {name}, s.stage, s.rollback[name := s.root[name]], s.movedOld + [name], s.movedNew)
  }

  function NewIn(s: Snapshot, name: string): Snapshot
    requires name in s.stage
  {
    Snapshot(s.root[name := s.stage[name]], s.stage - {name}, s.rollback, s.movedOld, s.movedNew + [name])
  }

  lemma ForwardOldOut(names: seq<string>, root0: Folder, stage0: Folder, s: Snapshot, name: string)
    requires SnapshotForward(names, root0, stage0, s) && s.movedNew == []
    requires name in names && name in s.root
    ensures SnapshotForward(names, root0, stage0, OldOut(s, name))
  {
    assert Lookup(s.root, name) == Lookup(root0, name);
    forall n ensures Lookup(s.root - {name}, n) == if n in s.movedOld + [name] then None else Lookup(root0, n) {
      assert Lookup(s.root, n) == if n in s.movedOld then None else Lookup(root0, n);
    }
    forall n ensures Lookup(s.rollback[name := s.root[name]], n) ==
                     if n in s.movedOld + [name] then Lookup(root0, n) else None {
      assert Lookup(s.rollback, n) == if n in s.movedOld then Lookup(root0, n) else None;
    }
  }

  lemma StillStaged(names: seq<string>, root0: Folder, stage0: Folder, s: Snapshot, i: nat)
    requires SnapshotForward(names, root0, stage0, s) && Distinct(names)
    requires i < |names| && s.movedNew == names[..i]
    ensures names[i] in stage0 ==> names[i] in s.stage
  {
    assert Lookup(s.stage, names[i]) == if names[i] in s.movedNew then None else Lookup(stage0, names[i]);
    assert names[i] !in names[..i];
  }

  lemma ForwardNewIn(names: seq<string>, root0: Folder, stage0: Folder, s: Snapshot, name: string)
    requires SnapshotForward(names, root0, stage0, s)
    requires name in names && name in s.stage
    requires forall n :: n in names && n in root0 ==> n in s.movedOld
    ensures SnapshotForward(names, root0, stage0, NewIn(s, name))
  {
    assert Lookup(s.stage, name) == Lookup(stage0, name);
    forall n ensures Lookup(s.stage - {name}, n) == if n in s.movedNew + [name] then None else Lookup(stage0, n) {
      assert Lookup(s.stage, n) == if n in s.movedNew then None else Lookup(stage0, n);
    }
    forall n ensures Lookup(s.root[name := s.stage[name]], n) ==
                     if n in s.movedNew + [name] then Lookup(stage0, n)
                     else if n in s.movedOld then None else Lookup(root0, n) {
      assert Lookup(s.root, n) == Lookup(s.root, n);
    }
  }

  class PortableFolder {
    var root: Folder
    var stage: Folder
    var rollback: Folder
    var movedOld: seq<string>
    var movedNew: seq<string>
    var errorReported: bool
    var restarted: bool
    var calls: nat
    ghost var trace: seq<Snapshot>
    const refuses: nat -> bool

    constructor (root: Folder, stage: Folder, refuses: nat -> bool)
      ensures this.root == root && this.stage == stage && rollback == map[] && trace == []
      ensures this.refuses == refuses
    {
      this.root, this.stage, rollback := root, stage, map[];
      movedOld, movedNew, errorReported, restarted := [], [], false, false;
      calls, trace, this.refuses := 0, [], refuses;
    }

    ghost function Now(): Snapshot
      reads this
    {
      Snapshot(root, stage, rollback, movedOld, movedNew)
    }

    method Allowed() returns (ok: bool)
      modifies this`calls
      ensures NothingRefused() ==> ok
    {
      ok := !refuses(calls);
      calls := calls + 1;
    }

    ghost predicate NothingRefused() {
      forall n :: !refuses(n)
    }

    method Record()
      modifies this`trace
      ensures trace == old(trace) + [Now()]
    {
      trace := trace + [Now()];
    }

    method MoveOut(names: seq<string>, name: string, ghost root0: Folder, ghost stage0: Folder) returns (ok: bool)
      requires SnapshotForward(names, root0, stage0, Now()) && movedNew == []
      requires name in names && name in root
      modifies this`root, this`rollback, this`movedOld, this`trace, this`calls
      ensures SnapshotForward(names, root0, stage0, Now())
      ensures movedOld == if ok then old(movedOld) + [name] else old(movedOld)
      ensures NothingRefused() ==> ok
      ensures trace == if ok then old(trace) + [Now()] else old(trace)
    {
      ghost var before := Now();
      ok := Allowed();
      if ok {
        ForwardOldOut(names, root0, stage0, before, name);
        rollback, root := rollback[name := root[name]], root - {name};
        movedOld := movedOld + [name];
        assert Now() == OldOut(before, name);
        Record();
      }
    }

    method MoveIn(names: seq<string>, name: string, ghost root0: Folder, ghost stage0: Folder) returns (ok: bool)
      requires SnapshotForward(names, root0, stage0, Now())
      requires forall n :: n in names && n in root0 ==> n in movedOld
      requires name in names && name in stage
      modifies this`root, this`stage, this`movedNew, this`trace, this`calls
      ensures SnapshotForward(names, root0, stage0, Now())
      ensures movedNew == if ok then old(movedNew) + [name] else old(movedNew)
      ensures NothingRefused() ==> ok
      ensures trace == if ok then old(trace) + [Now()] else old(trace)
    {
      ghost var before := Now();
      ok := Allowed();
      if ok {
        ForwardNewIn(names, root0, stage0, before, name);
        root, stage := root[name := stage[name]], stage - {name};
        movedNew := movedNew + [name];
        assert Now() == NewIn(before, name);
        Record();
      }
    }

    /** First loop of the script: existing entries go to the rollback folder. */
    method MoveOldOut(names: seq<string>, ghost root0: Folder, ghost stage0: Folder) returns (ok: bool)
      requires SnapshotForward(names, root0, stage0, Now()) && movedNew == []
      modifies this`root, this`rollback, this`movedOld, this`trace, this`calls
      ensures SnapshotForward(names, root0, stage0, Now())
      ensures ok ==> forall n :: n in names && n in root0 ==> n in movedOld
      ensures NothingRefused() ==> ok
      ensures TraceForward(names, root0, stage0, old(trace), trace)
    {
      for i := 0 to |names|
        invariant SnapshotForward(names, root0, stage0, Now())
        invariant forall n :: n in names[..i] && n in root0 ==> n in movedOld
        invariant TraceForward(names, root0, stage0, old(trace), trace)
      {
        var name := names[i];
        assert names[..i + 1] == names[..i] + [name];
        assert Lookup(root, name) == if name in movedOld then None else Lookup(root0, name);
        if name in root {
          ok := MoveOut(names, name, root0, stage0);
          if !ok { return; }
        }
      }
      assert names[..|names|] == names;
      ok := true;
    }

    /** Second loop of the script: the staged entries go into the program folder. */
    method MoveNewIn(names: seq<string>, ghost root0: Folder, ghost stage0: Folder) returns (ok: bool)
      requires SnapshotForward(names, root0, stage0, Now()) && movedNew == [] && Distinct(names)
      requires forall n :: n in names && n in root0 ==> n in movedOld
      modifies this`root, this`stage, this`movedNew, this`trace, this`calls
      ensures SnapshotForward(names, root0, stage0, Now())
      ensures ok ==> movedNew == names
      ensures NothingRefused() && (forall n :: n in names ==> n in stage0) ==> ok
      ensures TraceForward(names, root0, stage0, old(trace), trace)
    {
      for i := 0 to |names|
        invariant SnapshotForward(names, root0, stage0, Now())
        invariant movedNew == names[..i]
        invariant TraceForward(names, root0, stage0, old(trace), trace)
      {
        StillStaged(names, root0, stage0, Now(), i);
        if names[i] !in stage { return false; }
        ok := MoveIn(names, names[i], root0, stage0);
        if !ok { return; }
        assert names[..i + 1] == names[..i] + [names[i]];
      }
      assert names[..|names|] == names;
      ok := true;
    }

    method RemoveNew(ghost names: seq<string>, ghost root0: Folder, ghost stage0: Folder)
      requires SnapshotForward(names, root0, stage0, Now())
      modifies this`root
      ensures Without(root0, movedOld, root)
    {
      for i := 0 to |movedNew|
        invariant forall n :: Lookup(root, n) ==
                    if n in movedNew && n !in movedNew[..i] then Lookup(stage0, n)
                    else if n in movedNew || n in movedOld then None else Lookup(root0, n)
      {
        assert movedNew[..i + 1] == movedNew[..i] + [movedNew[i]];
        if movedNew[i] in root {
          root := root - {movedNew[i]};
        }
      }
      assert movedNew[..|movedNew|] == movedNew;
    }

    method BringBack(ghost root0: Folder)
      requires Without(root0, movedOld, root)
      requires forall n :: Lookup(rollback, n) == if n in movedOld then Lookup(root0, n) else None
      modifies this`root, this`rollback
      ensures root == root0
    {
      for i := 0 to |movedOld|
        invariant forall n :: Lookup(root, n) ==
                    if n in movedOld && n !in movedOld[..i] then None else Lookup(root0, n)
        invariant forall n :: Lookup(rollback, n) ==
                    if n in movedOld && n !in movedOld[..i] then Lookup(root0, n) else None
      {
        var name := movedOld[i];
        assert movedOld[..i + 1] == movedOld[..i] + [name];
        if name in rollback {
          assert Lookup(rollback, name) == Lookup(root0, name);
          root, rollback := root[name := rollback[name]], rollback - {name};
        }
      }
      assert movedOld[..|movedOld|] == movedOld;
      SameFolder(root, root0);
    }

    /** The catch block: the new entries are removed, then the old ones come back. */
    method Recover(ghost names: seq<string>, ghost root0: Folder, ghost stage0: Folder)
      requires SnapshotForward(names, root0, stage0, Now())
      modifies this`root, this`rollback, this`errorReported, this`restarted
      ensures root == root0 && errorReported
      ensures restarted <==> EXE in root0
    {
      RemoveNew(names, root0, stage0);
      BringBack(root0);
      errorReported := true;
      restarted := EXE in root;
    }

    /** The wait for the ready marker, one poll at a time until the deadline. */
    method WaitReady(polls: seq<Poll>) returns (ok: bool)
      ensures ok <==> ReadySeen(polls)
    {
      for i := 0 to |polls|
        invariant AllWaiting(polls, i)
      {
        if polls[i].Ready? { return true; }
        if polls[i].Exited? { return false; }
      }
      ok := false;
    }

    /** Preparation removes an old rollback folder; a refusal may come halfway. */
    method ClearRollback() returns (ok: bool)
      modifies this`rollback, this`calls
      ensures ok ==> rollback == map[]
      ensures NothingRefused() ==> ok
    {
      ok := Allowed();
      if ok {
        rollback := map[];
      } else {
        assert {} <= rollback.Keys;
        var gone :| gone <= rollback.Keys;
        rollback := rollback - gone;
      }
    }

    /** The script's try block: both loops, the announcement, the start, and the wait. */
    method Swap(ghost root0: Folder, ghost stage0: Folder, polls: seq<Poll>) returns (ok: bool)
      requires SnapshotForward(NAMES, root0, stage0, Now()) && movedOld == [] && movedNew == []
      modifies this`root, this`stage, this`rollback, this`movedOld, this`movedNew, this`trace, this`calls
      ensures SnapshotForward(NAMES, root0, stage0, Now())
      ensures ok ==> movedNew == NAMES
      ensures NothingRefused() && (forall n :: n in NAMES ==> n in stage0) && ReadySeen(polls) ==> ok
      ensures TraceForward(NAMES, root0, stage0, old(trace), trace)
    {
      NamesAreDistinct();
      ok := MoveOldOut(NAMES, root0, stage0);
      if ok { ok := MoveNewIn(NAMES, root0, stage0); }
      if ok { ok := Allowed(); }
      if ok { ok := Allowed(); }
      if ok { ok := WaitReady(polls); }
    }

    /** The whole script. Wherever a step fails, the program folder ends as it began or
        with all four entries replaced; nothing else in it is ever touched. */
    method Handoff(parentExited: bool, polls: seq<Poll>) returns (r: HandoffResult)
      requires rollback == map[]
      modifies this
      ensures r.Committed? ==> Installed(old(root), old(stage), root)
      ensures r.Committed? ==> forall n :: n in NAMES ==> n in old(stage)
      ensures !r.Committed? ==> root == old(root)
      ensures parentExited && NothingRefused() && (forall n :: n in NAMES ==> n in old(stage)) && ReadySeen(polls) ==>
                r.Committed?
      ensures r.RolledBack? ==> errorReported && (restarted <==> EXE in old(root))
      ensures TraceForward(NAMES, old(root), old(stage), old(trace), trace)
    {
      if !parentExited { return Stopped; }
      var ok := Allowed();
      if !ok { return Stopped; }
      movedOld, movedNew := [], [];
      ghost var root0, stage0 := root, stage;
      ok := Swap(root0, stage0, polls);
      if !ok {
        Recover(NAMES, root0, stage0);
        return RolledBack;
      }
      AllMovedIsInstalled(root0, stage0, Now());
      r := Committed;
    }
  }

  lemma AllMovedIsInstalled(root0: Folder, stage0: Folder, s: Snapshot)
    requires SnapshotForward(NAMES, root0, stage0, s) && s.movedNew == NAMES
    ensures Installed(root0, stage0, s.root) && forall n :: n in NAMES ==> n in stage0
  {
  }

  /** The marker shows up before the process exits or the deadline passes. */
  predicate ReadySeen(polls: seq<Poll>) {
    exists i :: 0 <= i < |polls| && polls[i].Ready? && AllWaiting(polls, i)
  }

  predicate AllWaiting(polls: seq<Poll>, n: nat)
    requires n <= |polls|
  {
    forall i :: 0 <= i < n ==> polls[i].Waiting?
  }

  ghost predicate Distinct(names: seq<string>) {
    forall i, j :: 0 <= i < j < |names| ==> names[i] != names[j]
  }

  lemma NamesAreDistinct()
    ensures Distinct(NAMES)
  {
  }

  ghost predicate SnapshotForward(names: seq<string>, root0: Folder, stage0: Folder, s: Snapshot) {
    Forward(names, root0, stage0, s.root, s.stage, s.rollback, s.movedOld, s.movedNew)
  }

  /** The program folder with neither the moved entries nor their replacements. */
  ghost predicate Without(root0: Folder, movedOld: seq<string>, root: Folder) {
    forall n :: Lookup(root, n) == if n in movedOld then None else Lookup(root0, n)
  }

  ghost predicate TraceForward(names: seq<string>, root0: Folder, stage0: Folder,
                               before: seq<Snapshot>, trace: seq<Snapshot>)
  {
    before <= trace &&
    forall i :: |before| <= i < |trace| ==> SnapshotForward(names, root0, stage0, trace[i])
  }

  lemma SameFolder(a: Folder, b: Folder)
    requires forall n :: Lookup(a, n) == Lookup(b, n)
    ensures a == b
  {
    forall n ensures n in a <==> n in b { assert Lookup(a, n) == Lookup(b, n); }
    forall n | n in a ensures a[n] == b[n] { assert Lookup(a, n) == Lookup(b, n); }
  }

  /** Mid-swap, every old entry is in exactly one place: still in the program folder, or
      in the rollback folder and on the list the recovery works through. */
  lemma OldEntryInOnePlace(names: seq<string>, root0: Folder, stage0: Folder, s: Snapshot, name: string)
    requires SnapshotForward(names, root0, stage0, s) && name in root0
    ensures name in s.movedOld <==> name in s.rollback
    ensures name in s.movedOld ==> s.rollback[name] == root0[name]
    ensures name in s.movedOld && name in s.root ==> name in s.movedNew && s.root[name] == stage0[name]
    ensures name !in s.movedOld ==> name in s.root && s.root[name] == root0[name]
  {
  }

  lemma PayloadOnTop(nodes: Nodes)
    requires Complete(nodes)
    ensures forall n :: n in NAMES ==> n in TopLevel(nodes)
  {
    forall n | n in NAMES ensures n in TopLevel(nodes) {
      assert n in ALLOWED_ROOTS;
      assert [n] in nodes && [n][0] == n;
    }
  }

  lemma EmptyStage(before: Nodes, after: Nodes)
    requires before == map[] && OnlyDirsUpTo(before, [], after) && Lookup(after, []) == Some(Directory)
    ensures after == map[[] := Directory]
  {
    forall k | k in after ensures k == [] {
      assert Lookup(after, k) == Lookup(before, k) || FreshDir(before, [], after, k);
    }
  }

  /** `prepare_portable_update` up to the extracted archive: both markers and whatever an
      earlier attempt left in the staging and rollback folders go first, and any of these
      removals may fail. */
  method PreparePortableUpdate(folder: PortableFolder, entries: seq<ZipEntry>, disk: LocalDisk) returns (ok: bool)
    modifies folder`rollback, folder`calls, disk
    ensures ok ==> folder.rollback == map[] && Staged(entries, disk.nodes) && Complete(disk.nodes)
    ensures GoodArchive(entries, disk.depthLimit) ==> (disk.Calm() && folder.NothingRefused() ==> ok)
  {
    ok := folder.Allowed();
    if ok { ok := folder.Allowed(); }
    if ok { ok := disk.RemoveAll(); }
    if ok { ok := folder.ClearRollback(); }
    if !ok { return; }
    ghost var before := disk.nodes;
    ok := disk.CreateDirAll([]);
    if !ok { return; }
    EmptyStage(before, disk.nodes);
    ok := ExtractPortableUpdate(entries, disk);
    if !ok {
      var _ := disk.RemoveAll();
    }
  }

  /** The update command from the archive to the swapped program folder, whatever earlier
      attempts left behind. */
  method InstallPortableUpdate(folder: PortableFolder, entries: seq<ZipEntry>, disk: LocalDisk,
                               parentExited: bool, polls: seq<Poll>)
    returns (r: HandoffResult)
    modifies folder, disk
    ensures r.Committed? ==> Staged(entries, disk.nodes) && Complete(disk.nodes) &&
                             Installed(old(folder.root), TopLevel(disk.nodes), folder.root)
    ensures !r.Committed? ==> folder.root == old(folder.root)
    ensures GoodArchive(entries, disk.depthLimit) && parentExited ==>
              (disk.Calm() && folder.NothingRefused() && ReadySeen(polls) ==> r.Committed?)
  {
    var prepared := PreparePortableUpdate(folder, entries, disk);
    if !prepared { return Stopped; }
    folder.stage := TopLevel(disk.nodes);
    PayloadOnTop(disk.nodes);
    r := folder.Handoff(parentExited, polls);
  }
}
