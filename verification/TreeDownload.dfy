/** The recursive folder download: a walk over one-level listings whose paths are
    strings, canonicalised again at every level. */
module TreeDownload {
  import opened Basics
  import opened RemotePaths
  import opened ObjectStore
  import opened Downloads

  /** One file written locally, and the object it was read from. */
  datatype Fetch = Fetch(from: Key, at: Key)

  // ------------------------------------------------------------------
  // What a download of a folder should deliver
  // ------------------------------------------------------------------

  /** No segment below the folder ends in whitespace. */
  ghost predicate TidyBelow(objects: Objects, folder: Key) {
    forall k :: k in objects && Below(folder, k) ==> TidyFrom(k, |folder|)
  }

  predicate TidyFrom(key: Key, start: nat) {
    forall i :: start <= i < |key| ==> !EndsInSpace(key[i])
  }

  /** Every object below the folder was written once, at its own relative path, and
      nothing else was. */
  ghost predicate Exact(objects: Objects, folder: Key, destination: Key, log: seq<Fetch>) {
    && (forall k :: k in objects && Below(folder, k) ==> Fetch(k, destination + k[|folder|..]) in log)
    && (forall e :: e in log ==> e.from in objects && Below(folder, e.from) &&
                                 e.at == destination + e.from[|folder|..])
    && Distinct(log)
  }

  ghost predicate Distinct(log: seq<Fetch>) {
    forall i, j :: 0 <= i < j < |log| ==> log[i].at != log[j].at
  }

  /** Every fetch names a stored object under the folder whose further segments are
      tidy, and its bytes are on the disk. */
  ghost predicate Delivered(objects: Objects, folder: Key, log: seq<Fetch>, nodes: Nodes) {
    forall e :: e in log ==>
      && e.from in objects && folder <= e.from && TidyFrom(e.from, |folder|)
      && Lookup(nodes, e.at) == Some(File(objects[e.from]))
  }

  function Total(objects: Objects, log: seq<Fetch>): nat {
    if log == [] then 0
    else (if log[0].from in objects then |objects[log[0].from]| else 0) + Total(objects, log[1..])
  }

  lemma {:induction false} TotalConcat(objects: Objects, a: seq<Fetch>, b: seq<Fetch>)
    ensures Total(objects, a + b) == Total(objects, a) + Total(objects, b)
  {
    if a == [] {
      assert a + b == b;
    } else {
      assert (a + b)[1..] == a[1..] + b;
      TotalConcat(objects, a[1..], b);
    }
  }

  predicate TidyBetween(key: Key, from: nat, to: nat)
    requires to <= |key|
  {
    forall i :: from <= i < to ==> !EndsInSpace(key[i])
  }

  /** A name that reads as nothing, or as dots, once trailing whitespace is gone. */
  predicate Blank(name: string) {
    Dropped(TrimEnd(name))
  }

  /** No folder the walk comes to has a blank name, at any depth. It comes to those whose
      path from the starting folder is tidy. */
  ghost predicate NoBlankReached(objects: Objects, folder: Key) {
    forall k :: k in objects && Below(folder, k) ==> NoBlankOnTheWay(k, |folder|)
  }

  predicate NoBlankOnTheWay(key: Key, from: nat) {
    forall i :: from <= i < |key| - 1 && TidyBetween(key, from, i) ==> !Blank(key[i])
  }

  /** The key the walk asks for in place of `folder + [name]`. */
  function Asked(folder: Key, name: string): Key {
    folder + Keep([TrimEnd(name)])
  }

  /** One step of the walk goes exactly one segment deeper, unless the name is blank: then
      it stays where it is. */
  lemma WalkGoesDeeper(remote: string, name: string)
    requires '/' !in name
    ensures Kept(JoinRemotePath(remote, name)) == Asked(Kept(remote), name)
    ensures Kept(JoinRemotePath(remote, name)) == Kept(remote) <==> Blank(name)
    ensures !Blank(name) ==> Kept(JoinRemotePath(remote, name)) == Kept(remote) + [TrimEnd(name)]
  {
    KeptJoin(remote, name);
    AskedGoesDeeper(Kept(remote), name);
  }

  lemma AskedGoesDeeper(folder: Key, name: string)
    ensures Asked(folder, name) == folder <==> Blank(name)
    ensures !Blank(name) ==> Asked(folder, name) == folder + [TrimEnd(name)]
  {
    var end := TrimEnd(name);
    assert [end][1..] == [];
    assert Keep([end]) == if Dropped(end) then [] else [end];
  }

  /** The length of the longest stored key. */
  ghost function Longest(objects: Objects): (r: nat)
    ensures forall k :: k in objects ==> |k| <= r
    ensures objects != map[] ==> exists k :: k in objects && |k| == r
  {
    if objects == map[] then 0
    else
      var k :| k in objects;
      var rest := Longest(objects - {k});
      if |k| > rest then |k| else rest
  }

  lemma ReachDeeper(objects: Objects, folder: Key, name: string)
    requires NoBlankReached(objects, folder) && Entry(name, true) in Level(objects, folder)
    ensures !Blank(name) && Asked(folder, name) == folder + [TrimEnd(name)]
    ensures NoBlankReached(objects, Asked(folder, name)) && |folder| + 2 <= Longest(objects)
  {
    var k :| k in objects && Below(folder, k) && EntryOf(folder, k) == Entry(name, true);
    assert k[|folder|] == name && TidyBetween(k, |folder|, |folder|);
    var asked := folder + [TrimEnd(name)];
    forall l | l in objects && Below(asked, l) ensures NoBlankOnTheWay(l, |asked|) {
      assert l[|folder|] == asked[|folder|] == TrimEnd(name);
      assert Below(folder, l) && NoBlankOnTheWay(l, |folder|);
      forall i | |asked| <= i < |l| - 1 && TidyBetween(l, |asked|, i) ensures !Blank(l[i]) {
        assert TidyBetween(l, |folder|, i);
      }
    }
  }

  /** Folder names the walk can follow one after the other. */
  ghost predicate Descent(objects: Objects, folder: Key, names: seq<string>)
    decreases |names|
  {
    names != [] ==>
      Entry(names[0], true) in Level(objects, folder) && Descent(objects, Asked(folder, names[0]), names[1..])
  }

  ghost predicate DescendsAtMost(objects: Objects, folder: Key, bound: nat) {
    forall names :: Descent(objects, folder, names) ==> |names| <= bound
  }

  /** The walk's descents are bounded by what is stored, whatever the local disk accepts,
      if and only if it comes to no blank folder; the longest stored key is then a bound. */
  lemma DescentsEnd(objects: Objects, folder: Key)
    requires Legal(objects)
    ensures NoBlankReached(objects, folder) <==> exists bound: nat :: DescendsAtMost(objects, folder, bound)
    ensures NoBlankReached(objects, folder) ==> DescendsAtMost(objects, folder, Longest(objects))
  {
    if NoBlankReached(objects, folder) {
      forall names | Descent(objects, folder, names) ensures |names| <= Longest(objects) {
        if names != [] { DescentIsShort(objects, folder, names); }
      }
      assert DescendsAtMost(objects, folder, Longest(objects));
    } else {
      var k :| k in objects && Below(folder, k) && !NoBlankOnTheWay(k, |folder|);
      var i :| |folder| <= i < |k| - 1 && TidyBetween(k, |folder|, i) && Blank(k[i]);
      forall bound: nat | DescendsAtMost(objects, folder, bound) ensures false {
        var names := DescentForever(objects, folder, k, i, bound + 1);
      }
    }
  }

  lemma {:induction false} DescentIsShort(objects: Objects, folder: Key, names: seq<string>)
    requires NoBlankReached(objects, folder) && names != [] && Descent(objects, folder, names)
    ensures |folder| + |names| < Longest(objects)
    decreases |names|
  {
    ReachDeeper(objects, folder, names[0]);
    if names[1..] != [] { DescentIsShort(objects, Asked(folder, names[0]), names[1..]); }
  }

  lemma {:induction false} DescentForever(objects: Objects, folder: Key, k: Key, i: nat, n: nat) returns (names: seq<string>)
    requires Legal(objects) && k in objects && Below(folder, k) && |folder| <= i < |k| - 1
    requires TidyBetween(k, |folder|, i) && Blank(k[i])
    ensures Descent(objects, folder, names) && |names| >= n
    decreases i - |folder|, n
  {
    if n == 0 { return []; }
    var name := k[|folder|];
    assert EntryOf(folder, k) == Entry(name, true);
    AskedGoesDeeper(folder, name);
    var rest;
    if i == |folder| {
      rest := DescentForever(objects, folder, k, i, n - 1);
    } else {
      assert Asked(folder, name) == folder + [name] && !Blank(name);
      rest := DescentForever(objects, folder + [name], k, i, n - 1);
    }
    names := [name] + rest;
    assert names[1..] == rest;
  }

  /** A walk that delivered everything can only have met tidy names: what it fetches
      never has a segment that ends in whitespace. */
  lemma ExactMeansTidy(objects: Objects, folder: Key, destination: Key, log: seq<Fetch>, nodes: Nodes)
    requires Delivered(objects, folder, log, nodes) && Exact(objects, folder, destination, log)
    ensures TidyBelow(objects, folder)
  {
    forall k | k in objects && Below(folder, k) ensures TidyFrom(k, |folder|) {
      assert Fetch(k, destination + k[|folder|..]) in log;
    }
  }

  // ------------------------------------------------------------------
  // The walk
  // ------------------------------------------------------------------

  /** A name that is a plain local name too. */
  predicate LocalName(name: string) {
    !Dropped(name) && !(exists c :: c in name && (c in {'/', '\\', ':'} || IsControl(c)))
  }

  /** `download_child_path`: object names that are not plain local names are refused. */
  function DownloadChildPath(parent: Key, name: string): Option<Key> {
    if LocalName(name) then Some(parent + [name]) else None
  }

  predicate IsControl(c: char) {
    c < ' ' || '\U{7F}' <= c <= '\U{9F}'
  }

  /** `object_store_list`: folders first, then files. */
  method ObjectStoreList(store: RemoteStore, path: string) returns (r: Outcome<seq<Entry>>)
    modifies store`calls
    ensures r.Done? ==>
              && (forall e :: e in r.value <==> e in Level(store.objects, Kept(path)))
              && (forall i, j :: 0 <= i < j < |r.value| ==> r.value[i] != r.value[j])
    ensures store.Reliable() ==> r.Done?
  {
    KeySegments(path);
    var result := store.ListWithDelimiter(ParseKey(ObjectKey(path)));
    if result.Failed? { return Failed; }
    var (folders, files) := result.value;
    var entries := seq(|folders|, i requires 0 <= i < |folders| => Entry(folders[i], true)) +
                   seq(|files|, i requires 0 <= i < |files| => Entry(files[i], false));
    forall e ensures e in entries <==> e in Level(store.objects, Kept(path))
    {
      if e.folder && e.name in folders {
        var i :| 0 <= i < |folders| && folders[i] == e.name;
        assert entries[i] == e;
      }
      if !e.folder && e.name in files {
        var i :| 0 <= i < |files| && files[i] == e.name;
        assert entries[|folders| + i] == e;
      }
    }
    r := Done(entries);
  }

  /** Outside the subtree at `top` only missing directories above it have appeared. */
  ghost predicate Contained(before: Nodes, top: Key, after: Nodes) {
    forall k :: !(top <= k) ==> Lookup(after, k) == Lookup(before, k) || FreshDir(before, top, after, k)
  }

  /** The walk's result for one listed entry, or for a whole folder. */
  ghost predicate EntryFetched(objects: Objects, folder: Key, destination: Key, entry: Entry, log: seq<Fetch>) {
    && (forall k :: k in objects && Below(folder, k) && EntryOf(folder, k) == entry ==>
          Fetch(k, destination + k[|folder|..]) in log)
    && (forall e :: e in log ==> Below(folder, e.from) && e.at == destination + e.from[|folder|..])
  }

  ghost predicate AllAt(log: seq<Fetch>, top: Key) {
    forall e :: e in log ==> top <= e.at
  }

  lemma FolderEntryFetched(objects: Objects, folder: Key, destination: Key, name: string, log: seq<Fetch>)
    requires Exact(objects, folder + [name], destination + [name], log)
    ensures EntryFetched(objects, folder, destination, Entry(name, true), log)
  {
    var child := folder + [name];
    forall k | Below(folder, k) && EntryOf(folder, k) == Entry(name, true)
      ensures Below(child, k) && destination + [name] + k[|child|..] == destination + k[|folder|..]
    {
      assert child == k[..|child|];
      assert k[|folder|..] == [name] + k[|child|..];
    }
    forall e | e in log
      ensures Below(folder, e.from) && e.at == destination + e.from[|folder|..]
    {
      assert e.from[|child| - 1] == child[|child| - 1] == name;
      assert folder <= child <= e.from;
      assert e.from[|folder|..] == [name] + e.from[|child|..];
    }
  }

  lemma FileEntryFetched(objects: Objects, folder: Key, destination: Key, name: string)
    ensures EntryFetched(objects, folder, destination, Entry(name, false),
                         [Fetch(folder + [name], destination + [name])])
  {
    var log := [Fetch(folder + [name], destination + [name])];
    forall k | Below(folder, k) && EntryOf(folder, k) == Entry(name, false)
      ensures Fetch(k, destination + k[|folder|..]) in log
    {
      assert k == folder + [name];
      assert k[|folder|..] == [name];
    }
    assert (folder + [name])[|folder|..] == [name];
  }

  // ------------------------------------------------------------------
  // The loop over the entries of one folder
  // ------------------------------------------------------------------

  /** Entries have been handled up to `n`: what they fetched is delivered, under
      pairwise different local names whose kind on the disk is the entry's kind. */
  ghost predicate Walked(objects: Objects, folder: Key, destination: Key, entries: seq<Entry>, n: nat,
                         log: seq<Fetch>, nodes: Nodes)
    requires n <= |entries|
  {
    && Delivered(objects, folder, log, nodes) && Distinct(log)
    && (forall e :: e in log ==> exists j :: 0 <= j < n && destination + [entries[j].name] <= e.at)
    && (forall j :: 0 <= j < n ==> Settled(destination + [entries[j].name], entries[j].folder, nodes))
    && (forall i, j :: 0 <= i < j < n ==> entries[i].name != entries[j].name)
  }

  predicate Settled(at: Key, folder: bool, nodes: Nodes) {
    at in nodes && (nodes[at].Directory? <==> folder)
  }

  lemma OtherChild(destination: Key, a: string, b: string, at: Key)
    requires a != b && destination + [a] <= at
    ensures !(destination + [b] <= at)
  {
    assert at[|destination|] == (destination + [a])[|destination|];
    assert (destination + [b])[|destination|] == b;
  }

  lemma WalkStep(objects: Objects, folder: Key, destination: Key, entries: seq<Entry>, n: nat,
                 log: seq<Fetch>, nodes: Nodes, sub: seq<Fetch>, next: Nodes)
    requires n < |entries| && Walked(objects, folder, destination, entries, n, log, nodes)
    requires forall i, j :: 0 <= i < j < |entries| ==> entries[i] != entries[j]
    requires
      var child := destination + [entries[n].name];
      && Delivered(objects, folder, sub, next) && Distinct(sub) && AllAt(sub, child)
      && Contained(nodes, child, next)
      && Settled(child, entries[n].folder, next)
      && (child in nodes ==> Settled(child, entries[n].folder, nodes))
    ensures Walked(objects, folder, destination, entries, n + 1, log + sub, next)
  {
    var name := entries[n].name;
    var child := destination + [name];
    forall j | 0 <= j < n
      ensures entries[j].name != name
      ensures Settled(destination + [entries[j].name], entries[j].folder, next)
    {
      var other := destination + [entries[j].name];
      assert Settled(other, entries[j].folder, nodes);
      assert entries[j].name != name;
      OtherChild(destination, entries[j].name, name, other);
      assert Lookup(next, other) == Lookup(nodes, other);
    }
    forall e | e in log
      ensures !(child <= e.at) && Lookup(next, e.at) == Lookup(nodes, e.at)
    {
      var j :| 0 <= j < n && destination + [entries[j].name] <= e.at;
      OtherChild(destination, entries[j].name, name, e.at);
    }
    forall i, j | 0 <= i < j < |log + sub|
      ensures (log + sub)[i].at != (log + sub)[j].at
    {
      if i < |log| <= j {
        assert log[i] in log && sub[j - |log|] in sub;
      }
    }
    forall e | e in log + sub
      ensures exists j :: 0 <= j < n + 1 && destination + [entries[j].name] <= e.at
    {
      if e in sub { assert destination + [entries[n].name] <= e.at; }
    }
  }

  ghost predicate Gathered(objects: Objects, folder: Key, destination: Key, entries: seq<Entry>, log: seq<Fetch>) {
    && (forall k :: k in objects && Below(folder, k) && EntryOf(folder, k) in entries ==>
          Fetch(k, destination + k[|folder|..]) in log)
    && (forall e :: e in log ==> Below(folder, e.from) && e.at == destination + e.from[|folder|..])
  }

  lemma TidyEntry(objects: Objects, folder: Key, entry: Entry)
    requires TidyBelow(objects, folder) && entry in Level(objects, folder)
    ensures !EndsInSpace(entry.name)
    ensures entry.folder ==> TidyBelow(objects, folder + [entry.name])
  {
    var k :| k in objects && Below(folder, k) && EntryOf(folder, k) == entry;
    assert k[|folder|] == entry.name;
    forall k' | k' in objects && Below(folder + [entry.name], k') ensures TidyFrom(k', |folder| + 1) {
      assert Below(folder, k');
    }
  }

  lemma GatherStep(objects: Objects, folder: Key, destination: Key, done: seq<Entry>, entry: Entry,
                   log: seq<Fetch>, sub: seq<Fetch>)
    requires Gathered(objects, folder, destination, done, log)
    requires EntryFetched(objects, folder, destination, entry, sub)
    ensures Gathered(objects, folder, destination, done + [entry], log + sub)
  {
  }

  lemma LegalEntry(objects: Objects, folder: Key, entry: Entry)
    requires Legal(objects) && entry in Level(objects, folder)
    ensures !Dropped(entry.name) && '/' !in entry.name
  {
    var k :| k in objects && Below(folder, k) && EntryOf(folder, k) == entry;
    assert k[|folder|] == entry.name;
  }

  /** What a successful download of a folder has done. */
  ghost predicate FolderDone(objects: Objects, folder: Key, destination: Key, log: seq<Fetch>, total: nat,
                             nodes: Nodes)
  {
    && total == Total(objects, log)
    && Delivered(objects, folder, log, nodes) && Distinct(log) && AllAt(log, destination)
    && Lookup(nodes, destination) == Some(Directory)
    && (Exact(objects, folder, destination, log) <==> TidyBelow(objects, folder))
    && NoBlankReached(objects, folder)
  }

  /** What the successful handling of one entry has done. */
  ghost predicate EntryDone(objects: Objects, folder: Key, destination: Key, entry: Entry, log: seq<Fetch>,
                            total: nat, before: Nodes, nodes: Nodes)
  {
    var child := destination + [entry.name];
    && total == Total(objects, log)
    && Delivered(objects, folder, log, nodes) && Distinct(log) && AllAt(log, child)
    && Settled(child, entry.folder, nodes)
    && (child in before ==> Settled(child, entry.folder, before))
    && (entry.folder ==> !Blank(entry.name) && NoBlankReached(objects, Asked(folder, entry.name)))
    && (!EndsInSpace(entry.name) && (entry.folder ==> TidyBelow(objects, folder + [entry.name])) ==>
          EntryFetched(objects, folder, destination, entry, log))
  }

  /** The loop invariant. */
  ghost predicate Handled(objects: Objects, folder: Key, destination: Key, entries: seq<Entry>, n: nat,
                          log: seq<Fetch>, total: nat, nodes: Nodes)
    requires n <= |entries|
  {
    && total == Total(objects, log)
    && Walked(objects, folder, destination, entries, n, log, nodes)
    && (TidyBelow(objects, folder) ==> Gathered(objects, folder, destination, entries[..n], log))
    && (forall j :: 0 <= j < n && entries[j].folder ==>
          !Blank(entries[j].name) && NoBlankReached(objects, Asked(folder, entries[j].name)))
  }

  lemma HandledStep(objects: Objects, folder: Key, destination: Key, entries: seq<Entry>, n: nat,
                    log: seq<Fetch>, total: nat, nodes: Nodes, sub: seq<Fetch>, bytes: nat, next: Nodes)
    requires n < |entries| && entries[n] in Level(objects, folder)
    requires forall i, j :: 0 <= i < j < |entries| ==> entries[i] != entries[j]
    requires Handled(objects, folder, destination, entries, n, log, total, nodes)
    requires EntryDone(objects, folder, destination, entries[n], sub, bytes, nodes, next)
    requires Contained(nodes, destination + [entries[n].name], next)
    ensures Handled(objects, folder, destination, entries, n + 1, log + sub, total + bytes, next)
  {
    WalkStep(objects, folder, destination, entries, n, log, nodes, sub, next);
    TotalConcat(objects, log, sub);
    assert entries[..n + 1] == entries[..n] + [entries[n]];
    if TidyBelow(objects, folder) {
      TidyEntry(objects, folder, entries[n]);
      GatherStep(objects, folder, destination, entries[..n], entries[n], log, sub);
    }
  }

  lemma AllHandled(objects: Objects, folder: Key, destination: Key, entries: seq<Entry>,
                   log: seq<Fetch>, total: nat, nodes: Nodes)
    requires forall e :: e in entries <==> e in Level(objects, folder)
    requires Handled(objects, folder, destination, entries, |entries|, log, total, nodes)
    requires Lookup(nodes, destination) == Some(Directory)
    ensures FolderDone(objects, folder, destination, log, total, nodes)
  {
    assert entries[..|entries|] == entries;
    forall e | e in log ensures destination <= e.at {
      var j :| 0 <= j < |entries| && destination + [entries[j].name] <= e.at;
      assert destination == e.at[..|destination|];
    }
    if TidyBelow(objects, folder) {
      GatheredIsExact(objects, folder, destination, entries, log, nodes);
    }
    if Exact(objects, folder, destination, log) {
      ExactMeansTidy(objects, folder, destination, log, nodes);
    }
    EveryLevelReached(objects, folder, entries);
  }

  lemma GatheredIsExact(objects: Objects, folder: Key, destination: Key, entries: seq<Entry>, log: seq<Fetch>, nodes: Nodes)
    requires forall e :: e in entries <==> e in Level(objects, folder)
    requires Gathered(objects, folder, destination, entries, log) && Distinct(log) && Delivered(objects, folder, log, nodes)
    ensures Exact(objects, folder, destination, log)
  {
    forall k | k in objects && Below(folder, k) ensures Fetch(k, destination + k[|folder|..]) in log {
      assert EntryOf(folder, k) in Level(objects, folder);
    }
  }

  lemma EveryLevelReached(objects: Objects, folder: Key, entries: seq<Entry>)
    requires forall e :: e in entries <==> e in Level(objects, folder)
    requires forall j :: 0 <= j < |entries| && entries[j].folder ==>
               !Blank(entries[j].name) && NoBlankReached(objects, Asked(folder, entries[j].name))
    ensures NoBlankReached(objects, folder)
  {
    forall k | k in objects && Below(folder, k) ensures NoBlankOnTheWay(k, |folder|) {
      var e := EntryOf(folder, k);
      assert e in Level(objects, folder);
      var j :| 0 <= j < |entries| && entries[j] == e;
      forall i | |folder| <= i < |k| - 1 && TidyBetween(k, |folder|, i) ensures !Blank(k[i]) {
        if i > |folder| {
          assert Asked(folder, e.name) == folder + [e.name] && Below(folder + [e.name], k);
          assert NoBlankOnTheWay(k, |folder| + 1) && TidyBetween(k, |folder| + 1, i);
        }
      }
    }
  }

  lemma ContainedDeeper(before: Nodes, top: Key, name: string, middle: Nodes, after: Nodes)
    requires Contained(before, top, middle) && Contained(middle, top + [name], after)
    requires Lookup(middle, top) == Some(Directory)
    ensures Contained(before, top, after)
    ensures Lookup(after, top) == Some(Directory)
  {
    var child := top + [name];
    assert Lookup(after, top) == Lookup(middle, top);
    forall k | !(top <= k)
      ensures Lookup(after, k) == Lookup(before, k) || FreshDir(before, top, after, k)
    {
      assert !(child <= k);
      assert Lookup(middle, k) == Lookup(before, k) || FreshDir(before, top, middle, k);
      if FreshDir(middle, child, after, k) { assert k <= top; }
    }
  }

  // ------------------------------------------------------------------
  // When a download cannot fail
  // ------------------------------------------------------------------

  /** Everything below the folder fits on the local disk under the destination: plain
      names, not too deep, no file where a folder must be, no blank folder to come to, and
      for each file to come to, its name without trailing whitespace is stored too. */
  ghost predicate Suits(objects: Objects, folder: Key, destination: Key, depthLimit: nat) {
    && NoBlankReached(objects, folder) && TrimmedStored(objects, folder)
    && Fits(objects, folder, destination, depthLimit) && NoClash(objects, folder)
  }

  ghost predicate TrimmedStored(objects: Objects, folder: Key) {
    forall k :: k in objects && Below(folder, k) && TidyBetween(k, |folder|, |k| - 1) ==> Asked(Init(k), Last(k)) in objects
  }

  predicate LocalFrom(key: Key, from: nat) {
    forall i :: from <= i < |key| ==> LocalName(key[i])
  }

  ghost predicate NothingAt(nodes: Nodes, top: Key) {
    forall k :: top <= k ==> k !in nodes
  }

  /** The place for the whole tree is free. */
  ghost predicate RoomFor(nodes: Nodes, depthLimit: nat, destination: Key) {
    && |destination| <= depthLimit && OpenWay(nodes, destination)
    && forall k :: destination < k ==> k !in nodes
  }

  /** The place for one entry is free, in a folder that is there. */
  ghost predicate RoomForEntry(nodes: Nodes, destination: Key, name: string) {
    Lookup(nodes, destination) == Some(Directory) && OpenWay(nodes, destination) && NothingAt(nodes, destination + [name])
  }

  /** Everything below the folder has plain names, and room for its depth. */
  ghost predicate Fits(objects: Objects, folder: Key, destination: Key, depthLimit: nat) {
    forall k :: k in objects && Below(folder, k) ==>
      LocalFrom(k, |folder|) && |destination| + |k| - |folder| - 1 <= depthLimit
  }

  ghost predicate NoClash(objects: Objects, folder: Key) {
    forall k, l :: k in objects && l in objects && Below(folder, k) ==> !(k < l)
  }

  lemma FitsDeeper(objects: Objects, folder: Key, destination: Key, depthLimit: nat, asked: string, name: string)
    requires Fits(objects, folder, destination, depthLimit) && NoClash(objects, folder)
    ensures Fits(objects, folder + [asked], destination + [name], depthLimit) && NoClash(objects, folder + [asked])
  {
    assert forall k :: Below(folder + [asked], k) ==> Below(folder, k);
  }

  lemma EntryFits(objects: Objects, folder: Key, destination: Key, depthLimit: nat, entry: Entry)
    requires Fits(objects, folder, destination, depthLimit) && entry in Level(objects, folder)
    ensures LocalName(entry.name) && (entry.folder ==> |destination| < depthLimit)
  {
    var k :| k in objects && Below(folder, k) && EntryOf(folder, k) == entry;
    assert k[|folder|] == entry.name;
  }

  lemma FolderSuits(objects: Objects, folder: Key, destination: Key, depthLimit: nat, name: string)
    requires Suits(objects, folder, destination, depthLimit) && Entry(name, true) in Level(objects, folder)
    ensures Suits(objects, Asked(folder, name), destination + [name], depthLimit)
  {
    ReachDeeper(objects, folder, name);
    TrimmedDeeper(objects, folder, TrimEnd(name));
    FitsDeeper(objects, folder, destination, depthLimit, TrimEnd(name), name);
  }

  lemma FileSuits(objects: Objects, folder: Key, name: string)
    requires TrimmedStored(objects, folder) && Entry(name, false) in Level(objects, folder)
    ensures Asked(folder, name) in objects
  {
    var k :| k in objects && Below(folder, k) && EntryOf(folder, k) == Entry(name, false);
    FileKey(folder, k);
    assert TidyBetween(k, |folder|, |k| - 1);
  }

  lemma FileKey(folder: Key, k: Key)
    requires Below(folder, k) && |k| == |folder| + 1
    ensures Init(k) == folder && Last(k) == k[|folder|]
  {
  }

  lemma TrimmedDeeper(objects: Objects, folder: Key, name: string)
    requires TrimmedStored(objects, folder) && !EndsInSpace(name)
    ensures TrimmedStored(objects, folder + [name])
  {
    forall k | k in objects && Below(folder + [name], k) && TidyBetween(k, |folder| + 1, |k| - 1)
      ensures Asked(Init(k), Last(k)) in objects
    {
      assert k[|folder|] == name && Below(folder, k) && TidyBetween(k, |folder|, |k| - 1);
    }
  }

  lemma RoomDeeper(nodes: Nodes, destination: Key, name: string)
    requires RoomForEntry(nodes, destination, name)
    ensures OpenWay(nodes, destination + [name])
  {
    var child := destination + [name];
    forall i | 0 <= i <= |child| ensures Lookup(nodes, child[..i]) in {None, Some(Directory)} {
      if i <= |destination| {
        assert child[..i] == destination[..i];
      } else {
        assert child[..i] == child;
      }
    }
  }

  /** Two entries of one name are a file and a folder: one stored key is a prefix of another. */
  lemma SameNameClash(objects: Objects, folder: Key, a: Entry, b: Entry) returns (k: Key, l: Key)
    requires a in Level(objects, folder) && b in Level(objects, folder) && a.name == b.name && !a.folder && b.folder
    ensures k in objects && l in objects && Below(folder, k) && k < l
  {
    k :| k in objects && Below(folder, k) && EntryOf(folder, k) == a;
    l :| l in objects && Below(folder, l) && EntryOf(folder, l) == b;
    assert k == folder + [a.name] && l[..|folder| + 1] == folder + [a.name];
  }

  /** In a folder that suits, no two entries share a name. */
  lemma NamesDiffer(objects: Objects, folder: Key, destination: Key, depthLimit: nat, a: Entry, b: Entry)
    requires Suits(objects, folder, destination, depthLimit)
    requires a in Level(objects, folder) && b in Level(objects, folder) && a != b
    ensures a.name != b.name
  {
    if a.name == b.name {
      var _, _ := SameNameClash(objects, folder, if a.folder then b else a, if a.folder then a else b);
    }
  }

  /** The way to the destination stays open while the tree grows below it. */
  lemma StaysOpen(before: Nodes, destination: Key, after: Nodes)
    requires OpenWay(before, destination) && Contained(before, destination, after)
    requires Lookup(after, destination) == Some(Directory)
    ensures OpenWay(after, destination)
  {
    forall i | 0 <= i <= |destination| ensures Lookup(after, destination[..i]) in {None, Some(Directory)} {
      if i == |destination| {
        assert destination[..i] == destination;
      } else {
        assert !(destination <= destination[..i]);
      }
    }
  }

  lemma OthersStayFree(before: Nodes, destination: Key, name: string, after: Nodes, other: string)
    requires Contained(before, destination + [name], after) && NothingAt(before, destination + [other]) && name != other
    ensures NothingAt(after, destination + [other])
  {
    forall k | destination + [other] <= k ensures k !in after {
      OtherChild(destination, other, name, k);
      assert k[|destination|] == other;
      assert Lookup(after, k) == Lookup(before, k) && k !in before;
    }
  }

  lemma RoomMade(before: Nodes, destination: Key, made: Nodes, name: string)
    requires OnlyDirsUpTo(before, destination, made) && forall k :: destination < k ==> k !in before
    ensures NothingAt(made, destination + [name])
  {
    forall k | destination + [name] <= k ensures k !in made {
      assert destination < k;
      assert Lookup(made, k) == Lookup(before, k) && k !in before;
    }
  }

  /** From entry i on, the places of the entries are free. */
  ghost predicate RoomLeft(nodes: Nodes, destination: Key, entries: seq<Entry>, i: nat) {
    OpenWay(nodes, destination) && forall j :: i <= j < |entries| ==> NothingAt(nodes, destination + [entries[j].name])
  }

  lemma FirstRoom(before: Nodes, depthLimit: nat, destination: Key, made: Nodes, entries: seq<Entry>)
    requires RoomFor(before, depthLimit, destination) && OnlyDirsUpTo(before, destination, made)
    ensures RoomLeft(made, destination, entries, 0)
  {
    WayMade(before, destination, made);
    forall j | 0 <= j < |entries| ensures NothingAt(made, destination + [entries[j].name]) {
      RoomMade(before, destination, made, entries[j].name);
    }
  }

  lemma NextRoom(objects: Objects, folder: Key, destination: Key, depthLimit: nat, entries: seq<Entry>, i: nat,
                 nodes: Nodes, next: Nodes)
    requires Suits(objects, folder, destination, depthLimit) && i < |entries|
    requires forall e :: e in entries ==> e in Level(objects, folder)
    requires forall i, j :: 0 <= i < j < |entries| ==> entries[i] != entries[j]
    requires RoomLeft(nodes, destination, entries, i) && Contained(nodes, destination + [entries[i].name], next)
    requires Lookup(next, destination) == Some(Directory)
    ensures RoomLeft(next, destination, entries, i + 1)
  {
    assert Contained(nodes, destination, next) by { ContainedIn(nodes, destination, entries[i].name, next); }
    StaysOpen(nodes, destination, next);
    forall j | i < j < |entries| ensures NothingAt(next, destination + [entries[j].name]) {
      NamesDiffer(objects, folder, destination, depthLimit, entries[i], entries[j]);
      OthersStayFree(nodes, destination, entries[i].name, next, entries[j].name);
    }
  }

  lemma ContainedIn(before: Nodes, destination: Key, name: string, after: Nodes)
    requires Contained(before, destination + [name], after)
    ensures Contained(before, destination, after)
  {
    forall k | !(destination <= k) ensures Lookup(after, k) == Lookup(before, k) || FreshDir(before, destination, after, k) {
      assert !(destination + [name] <= k);
      assert k <= destination + [name] && !(destination <= k) ==> k <= destination;
    }
  }

  lemma WayMade(before: Nodes, destination: Key, made: Nodes)
    requires OnlyDirsUpTo(before, destination, made) && OpenWay(before, destination)
    ensures OpenWay(made, destination)
  {
  }

  /** What makes a folder entry's own download succeed. */
  lemma FolderFavored(objects: Objects, folder: Key, nodes: Nodes, destination: Key, depthLimit: nat, name: string)
    requires Suits(objects, folder, destination, depthLimit) && RoomForEntry(nodes, destination, name)
    requires Entry(name, true) in Level(objects, folder)
    ensures LocalName(name) && Suits(objects, Asked(folder, name), destination + [name], depthLimit)
    ensures RoomFor(nodes, depthLimit, destination + [name])
  {
    EntryFits(objects, folder, destination, depthLimit, Entry(name, true));
    FolderSuits(objects, folder, destination, depthLimit, name);
    RoomDeeper(nodes, destination, name);
  }

  lemma FileFavored(objects: Objects, folder: Key, nodes: Nodes, destination: Key, depthLimit: nat, name: string,
                    behavior: Behavior)
    requires Suits(objects, folder, destination, depthLimit) && RoomForEntry(nodes, destination, name)
    requires Entry(name, false) in Level(objects, folder) && |destination| <= depthLimit
    ensures LocalName(name) && Asked(folder, name) in objects
    ensures Reachable(nodes, depthLimit, destination + [name], behavior)
  {
    EntryFits(objects, folder, destination, depthLimit, Entry(name, false));
    FileSuits(objects, folder, name);
    assert Init(destination + [name]) == destination;
  }

  /** What the recursion uses up. Unless the walk comes to a blank folder, that is the
      segments left up to the longest stored key, whatever the local disk accepts; only
      otherwise is it the depth the local disk has left. */
  ghost function Measure(objects: Objects, folder: Key, destination: Key, depthLimit: nat): nat {
    if NoBlankReached(objects, folder) then (if |folder| < Longest(objects) then Longest(objects) - |folder| else 0)
    else Longest(objects) + 1 + if |destination| <= depthLimit then depthLimit + 1 - |destination| else 0
  }

  /** Every subfolder uses some of it up. */
  lemma WalkDescends(objects: Objects, folder: Key, destination: Key, depthLimit: nat, name: string)
    requires Entry(name, true) in Level(objects, folder) && |destination| <= depthLimit
    ensures Measure(objects, Asked(folder, name), destination + [name], depthLimit) <
            Measure(objects, folder, destination, depthLimit)
  {
    if NoBlankReached(objects, folder) { ReachDeeper(objects, folder, name); }
  }

  /** Downloads a folder. The disk is otherwise idle. When the walk comes to a folder with a
      blank name it lists the folder it is in once more, and it goes on doing so until the
      local path is too deep; so then it never succeeds. */
  method DownloadObjectTree(store: RemoteStore, disk: LocalDisk, transfer: Transfer,
                            remote: string, destination: Key, behavior: Behavior)
    returns (r: Outcome<nat>, ghost log: seq<Fetch>)
    requires Legal(store.objects) && disk.staging == None && forall n :: disk.rival(n) == map[]
    modifies store`calls, disk, transfer
    ensures disk.staging == None
    ensures Contained(old(disk.nodes), destination, disk.nodes)
    ensures destination in old(disk.nodes) ==> Lookup(disk.nodes, destination) == Lookup(old(disk.nodes), destination)
    ensures r.Done? ==> FolderDone(store.objects, Kept(remote), destination, log, r.value, disk.nodes)
    ensures RoomFor(old(disk.nodes), disk.depthLimit, destination) ==>
              (Undisturbed(store, disk, transfer) && Suits(store.objects, Kept(remote), destination, disk.depthLimit) ==> r.Done?)
    decreases Measure(store.objects, Kept(remote), destination, disk.depthLimit), 3
  {
    log := [];
    var canceled := transfer.Load();
    if canceled { return Failed, log; }
    var listed := ObjectStoreList(store, remote);
    if listed.Failed? { return Failed, log; }
    var entries := listed.value;
    ghost var before := disk.nodes;
    var created := disk.CreateDirAll(destination);
    assert Lookup(disk.nodes, destination) == Lookup(before, destination) || destination !in before;
    if !created { return Failed, log; }
    ghost var made := disk.nodes;
    var fetched, sub := DownloadEntries(store, disk, transfer, Kept(remote), remote, destination, entries, behavior);
    if RoomFor(before, disk.depthLimit, destination) { FirstRoom(before, disk.depthLimit, destination, made, entries); }
    MadeThenFilled(before, destination, made, disk.nodes);
    if fetched.Failed? { return Failed, log; }
    log := sub;
    AllHandled(store.objects, Kept(remote), destination, entries, log, fetched.value, disk.nodes);
    r := Done(fetched.value);
  }

  lemma MadeThenFilled(before: Nodes, destination: Key, made: Nodes, after: Nodes)
    requires OnlyDirsUpTo(before, destination, made) && Contained(made, destination, after)
    ensures Contained(before, destination, after)
  {
    forall k | !(destination <= k) ensures Lookup(after, k) == Lookup(before, k) || FreshDir(before, destination, after, k) {
      assert Lookup(after, k) == Lookup(made, k) || FreshDir(made, destination, after, k);
      assert Lookup(made, k) == Lookup(before, k) || FreshDir(before, destination, made, k);
    }
  }

  /** The loop over the listed entries. */
  method DownloadEntries(store: RemoteStore, disk: LocalDisk, transfer: Transfer, ghost folder: Key,
                         remote: string, destination: Key, entries: seq<Entry>, behavior: Behavior)
    returns (r: Outcome<nat>, ghost log: seq<Fetch>)
    requires folder == Kept(remote)
    requires Legal(store.objects) && disk.staging == None && forall n :: disk.rival(n) == map[]
    requires forall e :: e in entries ==> e in Level(store.objects, folder)
    requires forall i, j :: 0 <= i < j < |entries| ==> entries[i] != entries[j]
    requires |destination| <= disk.depthLimit && Lookup(disk.nodes, destination) == Some(Directory)
    modifies store`calls, disk, transfer
    ensures disk.staging == None
    ensures Contained(old(disk.nodes), destination, disk.nodes)
    ensures Lookup(disk.nodes, destination) == Some(Directory)
    ensures r.Done? ==>
              Handled(store.objects, folder, destination, entries, |entries|, log, r.value, disk.nodes)
    ensures RoomLeft(old(disk.nodes), destination, entries, 0) ==>
              (Undisturbed(store, disk, transfer) && Suits(store.objects, folder, destination, disk.depthLimit) ==> r.Done?)
    decreases Measure(store.objects, folder, destination, disk.depthLimit), 2
  {
    log := [];
    ghost var before := disk.nodes;
    ghost var favored := RoomLeft(before, destination, entries, 0) && Undisturbed(store, disk, transfer) &&
                         Suits(store.objects, folder, destination, disk.depthLimit);
    var total := 0;
    for i := 0 to |entries|
      invariant disk.staging == None
      invariant Contained(before, destination, disk.nodes) && Lookup(disk.nodes, destination) == Some(Directory)
      invariant Handled(store.objects, folder, destination, entries, i, log, total, disk.nodes)
      invariant favored ==> RoomLeft(disk.nodes, destination, entries, i)
    {
      var canceled := transfer.Load();
      if canceled { return Failed, log; }
      ghost var nodes := disk.nodes;
      var bytes, sub := DownloadEntry(store, disk, transfer, folder, remote, destination, entries[i], behavior);
      ContainedDeeper(before, destination, entries[i].name, nodes, disk.nodes);
      if bytes.Failed? { return Failed, log; }
      EntryStep(store.objects, folder, destination, disk.depthLimit, entries, i, log, total, nodes, sub, bytes.value,
                disk.nodes, favored);
      log, total := log + sub, total + bytes.value;
    }
    r := Done(total);
  }

  lemma EntryStep(objects: Objects, folder: Key, destination: Key, depthLimit: nat, entries: seq<Entry>, n: nat,
                  log: seq<Fetch>, total: nat, nodes: Nodes, sub: seq<Fetch>, bytes: nat, next: Nodes, favored: bool)
    requires n < |entries| && forall e :: e in entries ==> e in Level(objects, folder)
    requires forall i, j :: 0 <= i < j < |entries| ==> entries[i] != entries[j]
    requires Handled(objects, folder, destination, entries, n, log, total, nodes)
    requires EntryDone(objects, folder, destination, entries[n], sub, bytes, nodes, next)
    requires Contained(nodes, destination + [entries[n].name], next) && Lookup(next, destination) == Some(Directory)
    requires favored ==> Suits(objects, folder, destination, depthLimit) && RoomLeft(nodes, destination, entries, n)
    ensures Handled(objects, folder, destination, entries, n + 1, log + sub, total + bytes, next)
    ensures favored ==> RoomLeft(next, destination, entries, n + 1)
  {
    HandledStep(objects, folder, destination, entries, n, log, total, nodes, sub, bytes, next);
    if favored { NextRoom(objects, folder, destination, depthLimit, entries, n, nodes, next); }
  }

  /** The body of the loop: a recursive call for a folder, a staged download for a file. */
  method DownloadEntry(store: RemoteStore, disk: LocalDisk, transfer: Transfer, ghost folder: Key,
                       remote: string, destination: Key, entry: Entry, behavior: Behavior)
    returns (r: Outcome<nat>, ghost log: seq<Fetch>)
    requires folder == Kept(remote)
    requires Legal(store.objects) && disk.staging == None && forall n :: disk.rival(n) == map[]
    requires entry in Level(store.objects, folder) && |destination| <= disk.depthLimit
    modifies store`calls, disk, transfer
    ensures disk.staging == None
    ensures Contained(old(disk.nodes), destination + [entry.name], disk.nodes)
    ensures r.Done? ==>
              EntryDone(store.objects, folder, destination, entry, log, r.value, old(disk.nodes), disk.nodes)
    ensures RoomForEntry(old(disk.nodes), destination, entry.name) ==>
              (Undisturbed(store, disk, transfer) && Suits(store.objects, folder, destination, disk.depthLimit) ==> r.Done?)
    decreases Measure(store.objects, folder, destination, disk.depthLimit), 1
  {
    log := [];
    LegalEntry(store.objects, folder, entry);
    WalkGoesDeeper(remote, entry.name);
    var childRemote := JoinRemotePath(remote, entry.name);
    if DownloadChildPath(destination, entry.name).None? {
      if Suits(store.objects, folder, destination, disk.depthLimit) {
        EntryFits(store.objects, folder, destination, disk.depthLimit, entry);
      }
      return Failed, log;
    }
    if entry.folder {
      r, log := DownloadSubfolder(store, disk, transfer, folder, childRemote, destination, entry.name, behavior);
    } else {
      r, log := DownloadFile(store, disk, transfer, folder, childRemote, destination, entry.name, behavior);
    }
  }

  method DownloadSubfolder(store: RemoteStore, disk: LocalDisk, transfer: Transfer, ghost folder: Key,
                           childRemote: string, destination: Key, name: string, behavior: Behavior)
    returns (r: Outcome<nat>, ghost log: seq<Fetch>)
    requires Legal(store.objects) && disk.staging == None && forall n :: disk.rival(n) == map[]
    requires Entry(name, true) in Level(store.objects, folder) && Kept(childRemote) == Asked(folder, name)
    requires !Dropped(name) && |destination| <= disk.depthLimit
    modifies store`calls, disk, transfer
    ensures disk.staging == None
    ensures Contained(old(disk.nodes), destination + [name], disk.nodes)
    ensures r.Done? ==>
              EntryDone(store.objects, folder, destination, Entry(name, true), log, r.value, old(disk.nodes), disk.nodes)
    ensures RoomForEntry(old(disk.nodes), destination, name) ==>
              (Undisturbed(store, disk, transfer) && Suits(store.objects, folder, destination, disk.depthLimit) ==> r.Done?)
    decreases Measure(store.objects, folder, destination, disk.depthLimit), 0
  {
    ghost var before := disk.nodes;
    if RoomForEntry(before, destination, name) && Suits(store.objects, folder, destination, disk.depthLimit) {
      FolderFavored(store.objects, folder, before, destination, disk.depthLimit, name);
    }
    WalkDescends(store.objects, folder, destination, disk.depthLimit, name);
    r, log := DownloadObjectTree(store, disk, transfer, childRemote, destination + [name], behavior);
    if r.Done? { FolderEntryDone(store.objects, folder, destination, name, log, r.value, before, disk.nodes); }
  }

  method DownloadFile(store: RemoteStore, disk: LocalDisk, transfer: Transfer, ghost folder: Key,
                      childRemote: string, destination: Key, name: string, behavior: Behavior)
    returns (r: Outcome<nat>, ghost log: seq<Fetch>)
    requires Legal(store.objects) && disk.staging == None && forall n :: disk.rival(n) == map[]
    requires Entry(name, false) in Level(store.objects, folder) && Kept(childRemote) == Asked(folder, name)
    requires !Dropped(name) && |destination| <= disk.depthLimit
    modifies store`calls, disk, transfer
    ensures disk.staging == None
    ensures Contained(old(disk.nodes), destination + [name], disk.nodes)
    ensures r.Done? ==>
              EntryDone(store.objects, folder, destination, Entry(name, false), log, r.value, old(disk.nodes), disk.nodes)
    ensures RoomForEntry(old(disk.nodes), destination, name) ==>
              (Undisturbed(store, disk, transfer) && Suits(store.objects, folder, destination, disk.depthLimit) ==> r.Done?)
  {
    ghost var before := disk.nodes;
    if RoomForEntry(before, destination, name) && Suits(store.objects, folder, destination, disk.depthLimit) {
      FileFavored(store.objects, folder, before, destination, disk.depthLimit, name, behavior);
    }
    r := ObjectStoreDownload(store, disk, transfer, childRemote, destination + [name], behavior);
    log := [];
    ArrivedIsContained(before, destination, name, r.Done?, disk.nodes);
    if r.Done? {
      log := [Fetch(Asked(folder, name), destination + [name])];
      FileEntryDone(store.objects, folder, destination, name, before, disk.nodes);
    }
  }

  lemma ArrivedIsContained(before: Nodes, destination: Key, name: string, ok: bool, after: Nodes)
    requires FileArrived(before, destination + [name], ok, after)
    ensures Contained(before, destination + [name], after)
  {
    assert Init(destination + [name]) == destination;
  }

  lemma DeliveredUp(objects: Objects, folder: Key, name: string, log: seq<Fetch>, nodes: Nodes)
    requires Delivered(objects, Asked(folder, name), log, nodes)
    ensures Delivered(objects, folder, log, nodes)
  {
    var asked := Asked(folder, name);
    forall e | e in log ensures folder <= e.from && TidyFrom(e.from, |folder|) {
      assert asked <= e.from && folder == asked[..|folder|];
      forall i | |folder| <= i < |e.from| ensures !EndsInSpace(e.from[i]) {
        if i < |asked| { assert e.from[i] == asked[i] == TrimEnd(name); }
      }
    }
  }

  lemma FolderEntryDone(objects: Objects, folder: Key, destination: Key, name: string, log: seq<Fetch>,
                        total: nat, before: Nodes, nodes: Nodes)
    requires FolderDone(objects, Asked(folder, name), destination + [name], log, total, nodes)
    requires destination + [name] in before ==>
               Lookup(nodes, destination + [name]) == Lookup(before, destination + [name])
    requires !Dropped(name) && Entry(name, true) in Level(objects, folder)
    ensures EntryDone(objects, folder, destination, Entry(name, true), log, total, before, nodes)
  {
    assert Blank(name) ==> Asked(folder, name) == folder;
    DeliveredUp(objects, folder, name, log, nodes);
    if !EndsInSpace(name) && TidyBelow(objects, folder + [name]) {
      assert Asked(folder, name) == folder + [name];
      FolderEntryFetched(objects, folder, destination, name, log);
    }
  }

  lemma FileEntryDone(objects: Objects, folder: Key, destination: Key, name: string, before: Nodes, nodes: Nodes)
    requires
      var child := destination + [name];
      && Asked(folder, name) in objects
      && Lookup(nodes, child) == Some(File(objects[Asked(folder, name)]))
      && Lookup(before, child) != Some(Directory)
    requires !Dropped(name)
    ensures EntryDone(objects, folder, destination, Entry(name, false),
                      [Fetch(Asked(folder, name), destination + [name])], |objects[Asked(folder, name)]|, before, nodes)
  {
    var log := [Fetch(Asked(folder, name), destination + [name])];
    assert log[1..] == [];
    if !EndsInSpace(name) {
      assert Asked(folder, name) == folder + [name];
      FileEntryFetched(objects, folder, destination, name);
    }
  }

  // ------------------------------------------------------------------
  // A download that succeeds and is not exact
  // ------------------------------------------------------------------

  /** Two objects whose names differ by a trailing space. */
  function UntidyObjects(x: Bytes, y: Bytes): Objects {
    map[["d", "a "] := x, ["d", "a"] := y]
  }

  lemma UntidyNames()
    ensures TrimEnd("a ") == "a" && EndsInSpace("a ") && !EndsInSpace("a")
    ensures LocalName("a ") && LocalName("a") && LocalName("d")
    ensures "a" != "a "
  {
    assert "a "[..1] == "a" && "a "[1] == ' ';
  }

  lemma UntidyKey(x: Bytes, y: Bytes, k: Key)
    requires k in UntidyObjects(x, y)
    ensures |k| == 2 && k[0] == "d" && (k[1] == "a" || k[1] == "a ") && Init(k) == ["d"] && Last(k) == k[1]
    ensures LocalFrom(k, 0) && Clean(k)
  {
    UntidyNames();
  }

  lemma UntidySuits(x: Bytes, y: Bytes, destination: Key, depthLimit: nat)
    requires |destination| <= depthLimit
    ensures Legal(UntidyObjects(x, y)) && Suits(UntidyObjects(x, y), ["d"], destination, depthLimit)
    ensures !TidyBelow(UntidyObjects(x, y), ["d"])
  {
    var objects := UntidyObjects(x, y);
    forall k | k in objects ensures |k| == 2 && LocalFrom(k, 0) && Clean(k) && Asked(Init(k), Last(k)) in objects {
      UntidyKey(x, y, k);
      UntidyNames();
      assert Asked(["d"], k[1]) == ["d", "a"];
    }
    UntidyNames();
    var untidy := ["d", "a "];
    assert untidy in objects && Below(["d"], untidy) && EndsInSpace(untidy[1]);
  }

  lemma UntidyFetches(x: Bytes, y: Bytes, destination: Key, log: seq<Fetch>, total: nat, nodes: Nodes)
    requires FolderDone(UntidyObjects(x, y), ["d"], destination, log, total, nodes)
    requires !TidyBelow(UntidyObjects(x, y), ["d"])
    ensures !Exact(UntidyObjects(x, y), ["d"], destination, log)
    ensures forall e :: e in log ==> e.from == ["d", "a"]
  {
    forall e | e in log ensures e.from == ["d", "a"] {
      UntidyNames();
      UntidyKey(x, y, e.from);
      assert TidyFrom(e.from, 1);
    }
  }

  lemma UntidyFolderHasPath()
    ensures Kept(Render(["d"])) == ["d"]
  {
    assert !EndsInSpace("d");
    KeptRender(["d"]);
    RereadFixed(["d"]);
  }

  /** Undisturbed, the folder downloads; the object whose name ends in a space is never
      fetched, and the other one stands in for it. */
  method UntidyDownload(store: RemoteStore, disk: LocalDisk, transfer: Transfer, remote: string, destination: Key,
                        behavior: Behavior, x: Bytes, y: Bytes)
    returns (r: Outcome<nat>, ghost log: seq<Fetch>)
    requires store.objects == UntidyObjects(x, y) && disk.staging == None && Undisturbed(store, disk, transfer)
    requires Kept(remote) == ["d"]
    requires RoomFor(disk.nodes, disk.depthLimit, destination)
    modifies store`calls, disk, transfer
    ensures r.Done? && !Exact(store.objects, ["d"], destination, log)
    ensures forall e :: e in log ==> e.from == ["d", "a"]
  {
    UntidySuits(x, y, destination, disk.depthLimit);
    r, log := DownloadObjectTree(store, disk, transfer, remote, destination, behavior);
    UntidyFetches(x, y, destination, log, r.value, disk.nodes);
  }
}
