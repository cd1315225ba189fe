/** The object store behind the browser: a flat map from keys to bytes, on which
    folders are only shared key prefixes, with the rename and delete built on it. */
module ObjectStore {
  import opened Basics
  import opened RemotePaths

  type Objects = map<Key, Bytes>

  /** What the network does to one request. A lost reply is an error the caller sees
      although the request took effect. */
  datatype Fault = Works | Refused | LostReply

  /** How the body of one download arrives: pieces of the object, or a broken stream. */
  datatype Piece = Take(length: nat) | Broken

  datatype Entry = Entry(name: string, folder: bool)

  /** `key` lies strictly below the folder `prefix`. */
  predicate Below(prefix: Key, key: Key) {
    |prefix| < |key| && prefix <= key
  }

  /** Keys are object paths: at least one segment, every segment nameable. */
  predicate Legal(objects: Objects) {
    forall k :: k in objects ==> k != [] && Clean(k)
  }

  function Rebase(from: Key, to: Key, key: Key): Key
    requires |from| <= |key|
  {
    to + key[|from|..]
  }

  class RemoteStore {
    var objects: Objects
    var calls: nat
    /** The contents after every copy or delete request so far. */
    ghost var trace: seq<Objects>
    const fault: nat -> Fault
    const wire: nat -> seq<Piece>

    constructor (objects: Objects, fault: nat -> Fault, wire: nat -> seq<Piece>)
      ensures this.objects == objects && trace == [] && this.fault == fault && this.wire == wire
    {
      this.objects, this.fault, this.wire := objects, fault, wire;
      calls, trace := 0, [];
    }

    ghost predicate Reliable() {
      forall n :: fault(n).Works?
    }

    method Head(key: Key) returns (r: Outcome<bool>)
      modifies this`calls
      ensures r.Done? ==> r.value == (key in objects)
      ensures Reliable() ==> r.Done?
    {
      r := if fault(calls).Works? then Done(key in objects) else Failed;
      calls := calls + 1;
    }

    /** Server-side copy; the source must exist. */
    method Copy(source: Key, target: Key) returns (ok: bool)
      modifies this
      ensures trace == old(trace) + [objects]
      ensures ok ==> source in old(objects) && objects == old(objects)[target := old(objects)[source]]
      ensures Reliable() && source in old(objects) ==> ok
      ensures objects == old(objects) ||
              (source in old(objects) && objects == old(objects)[target := old(objects)[source]])
    {
      ok := source in objects && fault(calls).Works?;
      if source in objects && !fault(calls).Refused? {
        objects := objects[target := objects[source]];
      }
      calls, trace := calls + 1, trace + [objects];
    }

    method Delete(key: Key) returns (ok: bool)
      modifies this
      ensures trace == old(trace) + [objects]
      ensures ok ==> objects == old(objects) - {key}
      ensures Reliable() ==> ok
      ensures objects == old(objects) || objects == old(objects) - {key}
    {
      ok := fault(calls).Works?;
      if !fault(calls).Refused? {
        objects := objects - {key};
      }
      calls, trace := calls + 1, trace + [objects];
    }

    /** `list`: every object below the prefix, once, in an order of the provider's. */
    method List(prefix: Key) returns (r: Outcome<seq<Key>>)
      modifies this`calls
      ensures r.Done? ==>
                && (forall k :: k in r.value <==> k in objects && Below(prefix, k))
                && (forall i, j :: 0 <= i < j < |r.value| ==> r.value[i] != r.value[j])
      ensures Reliable() ==> r.Done?
    {
      var keys := set k | k in objects && Below(prefix, k);
      var listed := Enumerate(keys);
      r := if fault(calls).Works? then Done(listed) else Failed;
      calls := calls + 1;
    }

    /** `list_with_delimiter`: the folder and the file names one level below. */
    method ListWithDelimiter(prefix: Key) returns (r: Outcome<(seq<string>, seq<string>)>)
      modifies this`calls
      ensures r.Done? ==>
                && (forall n :: n in r.value.0 <==> Entry(n, true) in Level(objects, prefix))
                && (forall n :: n in r.value.1 <==> Entry(n, false) in Level(objects, prefix))
                && (forall i, j :: 0 <= i < j < |r.value.0| ==> r.value.0[i] != r.value.0[j])
                && (forall i, j :: 0 <= i < j < |r.value.1| ==> r.value.1[i] != r.value.1[j])
      ensures Reliable() ==> r.Done?
    {
      var level := Level(objects, prefix);
      var folders := Enumerate(set e | e in level && e.folder :: e.name);
      var files := Enumerate(set e | e in level && !e.folder :: e.name);
      r := if fault(calls).Works? then Done((folders, files)) else Failed;
      calls := calls + 1;
    }

    /** `get`: the object's size and bytes, and the pieces in which they will arrive. */
    method Get(key: Key) returns (r: Outcome<(nat, Bytes, seq<Piece>)>)
      modifies this`calls
      ensures r.Done? ==> key in objects && r.value.0 == |objects[key]| && r.value.1 == objects[key] &&
                          r.value.2 == wire(old(calls))
      ensures Reliable() && key in objects ==> r.Done?
    {
      r := if key in objects && fault(calls).Works?
           then Done((|objects[key]|, objects[key], wire(calls))) else Failed;
      calls := calls + 1;
    }
  }

  method Enumerate<T(==)>(s: set<T>) returns (q: seq<T>)
    ensures forall x :: x in q <==> x in s
    ensures forall i, j :: 0 <= i < j < |q| ==> q[i] != q[j]
  {
    q := [];
    var rest := s;
    while rest != {}
      invariant rest <= s
      invariant forall x :: x in q <==> x in s - rest
      invariant forall i, j :: 0 <= i < j < |q| ==> q[i] != q[j]
      decreases rest
    {
      var x :| x in rest;
      assert x !in q && forall i :: 0 <= i < |q| ==> q[i] in q;
      q, rest := q + [x], rest - {x};
    }
  }

  // ------------------------------------------------------------------
  // One-level listings
  // ------------------------------------------------------------------

  /** The entry under which a key below the prefix shows up one level below it. */
  function EntryOf(prefix: Key, key: Key): Entry
    requires Below(prefix, key)
  {
    Entry(key[|prefix|], |key| > |prefix| + 1)
  }

  function Level(objects: Objects, prefix: Key): set<Entry> {
    set k | k in objects && Below(prefix, k) :: EntryOf(prefix, k)
  }

  /** A one-level listing partitions the subtree: every object below the prefix is the
      file of exactly one entry or lies below the folder of exactly one entry. */
  lemma LevelPartitions(objects: Objects, prefix: Key, key: Key)
    requires key in objects
    ensures Below(prefix, key) <==>
              exists e :: e in Level(objects, prefix) && Holds(prefix, e, key)
    ensures forall e, e' | e in Level(objects, prefix) && e' in Level(objects, prefix) ::
              Holds(prefix, e, key) && Holds(prefix, e', key) ==> e == e'
  {
    if Below(prefix, key) {
      var e := EntryOf(prefix, key);
      assert prefix + [key[|prefix|]] <= key;
      assert Holds(prefix, e, key);
    }
    forall e | Holds(prefix, e, key)
      ensures Below(prefix, key) && e == EntryOf(prefix, key)
    {
      assert (prefix + [e.name])[|prefix|] == e.name;
    }
  }

  predicate Holds(prefix: Key, e: Entry, key: Key) {
    if e.folder then Below(prefix + [e.name], key) else key == prefix + [e.name]
  }

  // ------------------------------------------------------------------
  // Delete and rename: what they mean
  // ------------------------------------------------------------------

  /** The objects a rename or delete of `path` is about: the object of that name, or
      else everything below the folder. */
  predicate Selected(objects: Objects, path: Key, key: Key) {
    key in objects && if path in objects then key == path else Below(path, key)
  }

  predicate IsTarget(objects: Objects, from: Key, to: Key, key: Key) {
    to <= key && Selected(objects, from, Rebase(to, from, key))
  }

  function DeletedAt(objects: Objects, path: Key, key: Key): Option<Bytes> {
    if Selected(objects, path, key) then None else Lookup(objects, key)
  }

  /** The contents after a rename, key by key: selected objects are gone from under
      `from`, found again under `to`, and nothing else changes. */
  function RenamedAt(objects: Objects, from: Key, to: Key, key: Key): Option<Bytes> {
    if Selected(objects, from, key) then None
    else if IsTarget(objects, from, to, key) then Some(objects[Rebase(to, from, key)])
    else Lookup(objects, key)
  }

  /** What holds of the contents after every single request of a rename: either no
      source is gone yet, or every target is written; sources are never altered; keys
      that are neither source nor target keep what they had. */
  ghost predicate Halfway(objects: Objects, from: Key, to: Key, now: Objects) {
    && ((forall s :: Selected(objects, from, s) ==> Lookup(now, s) == Some(objects[s])) ||
        (forall s :: Selected(objects, from, s) ==> Lookup(now, Rebase(from, to, s)) == Some(objects[s])))
    && (forall s :: Selected(objects, from, s) && s in now ==> now[s] == objects[s])
    && (forall k :: !Selected(objects, from, k) && !IsTarget(objects, from, to, k) ==>
          Lookup(now, k) == Lookup(objects, k))
  }

  lemma TargetsAndSourcesDiffer(objects: Objects, from: Key, to: Key, key: Key)
    requires Apart(from, to)
    ensures Selected(objects, from, key) ==>
              IsTarget(objects, from, to, Rebase(from, to, key)) && Rebase(to, from, Rebase(from, to, key)) == key
    ensures IsTarget(objects, from, to, key) ==>
              !Selected(objects, from, key) && Rebase(from, to, Rebase(to, from, key)) == key
  {
    if Selected(objects, from, key) {
      RebaseBack(from, to, key);
    }
    if IsTarget(objects, from, to, key) {
      RebaseBack(to, from, key);
      if from <= key { PrefixesCompare(from, to, key); }
    }
  }

  lemma RebaseBack(from: Key, to: Key, key: Key)
    requires from <= key
    ensures to <= Rebase(from, to, key) && Rebase(to, from, Rebase(from, to, key)) == key
  {
    assert key == from + key[|from|..];
    assert Rebase(from, to, key)[|to|..] == key[|from|..];
  }

  lemma PrefixesCompare(a: Key, b: Key, key: Key)
    requires a <= key && b <= key
    ensures a <= b || b <= a
  {
    if |a| <= |b| {
      assert a == key[..|a|] == b[..|a|];
    } else {
      assert b == key[..|b|] == a[..|b|];
    }
  }

  /** After a failed folder rename, renaming again from whatever was left behind
      arrives where the undisturbed rename would have. */
  lemma RetryCompletesRename(objects: Objects, from: Key, to: Key, now: Objects, key: Key)
    requires Apart(from, to) && from !in objects && Halfway(objects, from, to, now)
    ensures RenamedAt(now, from, to, key) == RenamedAt(objects, from, to, key)
  {
    assert from !in now by { assert !IsTarget(objects, from, to, from); }
    forall s ensures Selected(now, from, s) <==> Selected(objects, from, s) && s in now
    {
      TargetsAndSourcesDiffer(objects, from, to, s);
      if Below(from, s) && IsTarget(objects, from, to, s) { PrefixesCompare(from, to, s); }
    }
    TargetsAndSourcesDiffer(objects, from, to, key);
    if IsTarget(objects, from, to, key) {
      var s := Rebase(to, from, key);
      assert Rebase(from, to, s) == key;
      assert Selected(objects, from, s);
    }
  }

  /** Renaming there and back restores every key, when nothing was in the way. */
  lemma RenameRoundTrip(objects: Objects, from: Key, to: Key, now: Objects, key: Key)
    requires Apart(from, to) && from !in objects
    requires forall k :: k in objects ==> !(to <= k)
    requires forall k :: Lookup(now, k) == RenamedAt(objects, from, to, k)
    ensures RenamedAt(now, to, from, key) == Lookup(objects, key)
  {
    assert Lookup(now, to) == RenamedAt(objects, from, to, to);
    assert to[|to|..] == [] && Rebase(to, from, to) == from;
    assert to !in now;
    forall k ensures Selected(now, to, k) <==> IsTarget(objects, from, to, k)
    {
      assert Lookup(now, k) == RenamedAt(objects, from, to, k);
      TargetsAndSourcesDiffer(objects, from, to, k);
    }
    assert Lookup(now, key) == RenamedAt(objects, from, to, key);
    TargetsAndSourcesDiffer(objects, from, to, key);
    if Selected(objects, from, key) {
      var t := Rebase(from, to, key);
      assert Lookup(now, t) == RenamedAt(objects, from, to, t);
      TargetsAndSourcesDiffer(objects, from, to, t);
      assert Selected(now, to, t);
    } else if from <= key {
      RebaseBack(from, to, key);
    }
  }

  // ------------------------------------------------------------------
  // Delete and rename: how they are done
  // ------------------------------------------------------------------

  method ObjectStoreDelete(store: RemoteStore, key: Key) returns (ok: bool)
    modifies store
    ensures ok ==> key != [] && exists k :: Selected(old(store.objects), key, k)
    ensures store.Reliable() && key != [] && (exists k :: Selected(old(store.objects), key, k)) ==> ok
    ensures ok ==> forall k :: Lookup(store.objects, k) == DeletedAt(old(store.objects), key, k)
    ensures forall k :: Lookup(store.objects, k) == Lookup(old(store.objects), k) ||
                        Lookup(store.objects, k) == DeletedAt(old(store.objects), key, k)
  {
    if key == [] { return false; }
    ghost var before := store.objects;
    var head := store.Head(key);
    if head.Failed? { return false; }
    if head.value {
      assert Selected(before, key, key);
      ok := store.Delete(key);
      return;
    }
    var listed := store.List(key);
    if listed.Failed? || listed.value == [] { return false; }
    var victims := listed.value;
    assert forall k :: Selected(before, key, k) <==> k in victims;
    assert Selected(before, key, victims[0]);
    for i := 0 to |victims|
      invariant forall k :: Lookup(store.objects, k) ==
                            if k in victims[..i] then None else Lookup(before, k)
    {
      ghost var was := store.objects;
      ok := store.Delete(victims[i]);
      assert forall k :: k in victims[..i + 1] <==> k in victims[..i] || k == victims[i];
      assert forall k :: Lookup(store.objects, k) == Lookup(was, k) || k == victims[i];
      if !ok { return; }
    }
    assert victims[..|victims|] == victims;
    ok := true;
  }

  method ObjectStoreRename(store: RemoteStore, from: Key, to: Key) returns (ok: bool)
    requires Apart(from, to)
    modifies store
    ensures ok ==> exists k :: Selected(old(store.objects), from, k)
    ensures store.Reliable() && (exists k :: Selected(old(store.objects), from, k)) ==> ok
    ensures ok ==> forall k :: Lookup(store.objects, k) == RenamedAt(old(store.objects), from, to, k)
    ensures old(store.trace) <= store.trace
    ensures forall i :: |old(store.trace)| <= i < |store.trace| ==>
                        Halfway(old(store.objects), from, to, store.trace[i])
    ensures Halfway(old(store.objects), from, to, store.objects)
  {
    ghost var before := store.objects;
    var head := store.Head(from);
    if head.Failed? { return false; }
    if head.value {
      assert Selected(before, from, from);
      ok := MoveObject(store, from, to);
      return;
    }
    var listed := store.List(from);
    if listed.Failed? || listed.value == [] { return false; }
    assert forall k :: k in listed.value <==> Selected(before, from, k);
    assert Selected(before, from, listed.value[0]);
    ok := MoveAll(store, from, to, listed.value);
  }

  lemma ObjectMoves(before: Objects, from: Key, to: Key)
    requires Apart(from, to) && from in before
    ensures
      var copied := before[to := before[from]];
      && Halfway(before, from, to, before) && Halfway(before, from, to, copied)
      && Halfway(before, from, to, copied - {from})
      && forall k :: Lookup(copied - {from}, k) == RenamedAt(before, from, to, k)
  {
    assert Rebase(from, to, from) == to;
    forall k ensures IsTarget(before, from, to, k) <==> k == to
    {
      TargetsAndSourcesDiffer(before, from, to, k);
      assert Rebase(to, from, to) == from;
    }
  }

  /** The branch for a single object: copy it, then delete it. */
  method MoveObject(store: RemoteStore, from: Key, to: Key) returns (ok: bool)
    requires Apart(from, to) && from in store.objects
    modifies store
    ensures store.Reliable() ==> ok
    ensures ok ==> forall k :: Lookup(store.objects, k) == RenamedAt(old(store.objects), from, to, k)
    ensures old(store.trace) <= store.trace
    ensures forall i :: |old(store.trace)| <= i < |store.trace| ==>
                        Halfway(old(store.objects), from, to, store.trace[i])
    ensures Halfway(old(store.objects), from, to, store.objects)
  {
    ObjectMoves(store.objects, from, to);
    ok := store.Copy(from, to);
    if ok {
      ok := store.Delete(from);
    }
  }

  /** The contents while the sources in `done` have been copied. */
  ghost predicate Copied(before: Objects, from: Key, to: Key, done: seq<Key>, now: Objects) {
    forall k :: Lookup(now, k) ==
                if IsTarget(before, from, to, k) && Rebase(to, from, k) in done
                then Some(before[Rebase(to, from, k)]) else Lookup(before, k)
  }

  /** The contents while, after the last copy, the sources in `done` have been deleted. */
  ghost predicate Removed(before: Objects, from: Key, to: Key, done: seq<Key>, now: Objects) {
    forall k :: Lookup(now, k) ==
                if Selected(before, from, k) && k !in done
                then Lookup(before, k) else RenamedAt(before, from, to, k)
  }

  lemma CopyStep(before: Objects, from: Key, to: Key, done: seq<Key>, source: Key, now: Objects)
    requires Apart(from, to) && Copied(before, from, to, done, now) && Selected(before, from, source)
    ensures Lookup(now, source) == Some(before[source])
    ensures Copied(before, from, to, done + [source], now[Rebase(from, to, source) := before[source]])
  {
    TargetsAndSourcesDiffer(before, from, to, source);
    var next := now[Rebase(from, to, source) := before[source]];
    forall k ensures Lookup(next, k) ==
                     if IsTarget(before, from, to, k) && Rebase(to, from, k) in done + [source]
                     then Some(before[Rebase(to, from, k)]) else Lookup(before, k)
    {
      assert Lookup(now, k) == Lookup(now, k);
      TargetsAndSourcesDiffer(before, from, to, k);
    }
  }

  lemma CopiedIsHalfway(before: Objects, from: Key, to: Key, done: seq<Key>, now: Objects)
    requires Apart(from, to) && Copied(before, from, to, done, now)
    ensures Halfway(before, from, to, now)
  {
    forall s | Selected(before, from, s) ensures Lookup(now, s) == Some(before[s]) {
      TargetsAndSourcesDiffer(before, from, to, s);
    }
  }

  lemma AllCopied(before: Objects, from: Key, to: Key, done: seq<Key>, now: Objects)
    requires Apart(from, to) && Copied(before, from, to, done, now)
    requires forall k :: Selected(before, from, k) ==> k in done
    ensures Removed(before, from, to, [], now)
  {
    forall k ensures Lookup(now, k) ==
                     if Selected(before, from, k) then Lookup(before, k) else RenamedAt(before, from, to, k)
    {
      TargetsAndSourcesDiffer(before, from, to, k);
    }
  }

  lemma RemovedIsHalfway(before: Objects, from: Key, to: Key, done: seq<Key>, now: Objects)
    requires Apart(from, to) && Removed(before, from, to, done, now)
    ensures Halfway(before, from, to, now)
  {
    forall s | Selected(before, from, s) ensures Lookup(now, Rebase(from, to, s)) == Some(before[s]) {
      var t := Rebase(from, to, s);
      TargetsAndSourcesDiffer(before, from, to, s);
      TargetsAndSourcesDiffer(before, from, to, t);
      assert Lookup(now, t) == RenamedAt(before, from, to, t);
    }
  }

  /** Copies every source of a folder rename before it deletes the first one. */
  method MoveAll(store: RemoteStore, from: Key, to: Key, sources: seq<Key>) returns (ok: bool)
    requires Apart(from, to)
    requires forall k :: k in sources <==> Selected(store.objects, from, k)
    modifies store
    ensures store.Reliable() ==> ok
    ensures ok ==> forall k :: Lookup(store.objects, k) == RenamedAt(old(store.objects), from, to, k)
    ensures old(store.trace) <= store.trace
    ensures forall i :: |old(store.trace)| <= i < |store.trace| ==>
                        Halfway(old(store.objects), from, to, store.trace[i])
    ensures Halfway(old(store.objects), from, to, store.objects)
  {
    ghost var before := store.objects;
    for i := 0 to |sources|
      invariant Copied(before, from, to, sources[..i], store.objects)
      invariant old(store.trace) <= store.trace
      invariant forall n :: |old(store.trace)| <= n < |store.trace| ==> Halfway(before, from, to, store.trace[n])
    {
      var source := sources[i];
      CopyStep(before, from, to, sources[..i], source, store.objects);
      CopiedIsHalfway(before, from, to, sources[..i], store.objects);
      CopiedIsHalfway(before, from, to, sources[..i] + [source],
                      store.objects[Rebase(from, to, source) := before[source]]);
      assert sources[..i + 1] == sources[..i] + [source];
      ok := store.Copy(source, Rebase(from, to, source));
      if !ok { return; }
    }
    AllCopied(before, from, to, sources[..|sources|], store.objects);
    ok := DeleteSources(store, before, from, to, sources);
  }

  method DeleteSources(store: RemoteStore, ghost before: Objects, from: Key, to: Key, sources: seq<Key>)
    returns (ok: bool)
    requires Apart(from, to)
    requires forall k :: k in sources <==> Selected(before, from, k)
    requires Removed(before, from, to, [], store.objects)
    modifies store
    ensures store.Reliable() ==> ok
    ensures ok ==> forall k :: Lookup(store.objects, k) == RenamedAt(before, from, to, k)
    ensures old(store.trace) <= store.trace
    ensures forall i :: |old(store.trace)| <= i < |store.trace| ==> Halfway(before, from, to, store.trace[i])
    ensures Halfway(before, from, to, store.objects)
  {
    RemovedIsHalfway(before, from, to, [], store.objects);
    for i := 0 to |sources|
      invariant Removed(before, from, to, sources[..i], store.objects)
      invariant Halfway(before, from, to, store.objects)
      invariant old(store.trace) <= store.trace
      invariant forall n :: |old(store.trace)| <= n < |store.trace| ==> Halfway(before, from, to, store.trace[n])
    {
      assert sources[..i + 1] == sources[..i] + [sources[i]];
      assert Removed(before, from, to, sources[..i + 1], store.objects - {sources[i]});
      RemovedIsHalfway(before, from, to, sources[..i + 1], store.objects - {sources[i]});
      ok := store.Delete(sources[i]);
      if !ok { return; }
    }
    assert sources[..|sources|] == sources;
    ok := true;
  }

  /** The rename command, from the strings the user supplied to the store's contents. */
  method RenameCloudStoragePath(store: RemoteStore, path: string, newName: string) returns (ok: bool)
    modifies store
    ensures old(store.trace) <= store.trace
    ensures match PlanRename(path, newName)
            case Reject => !ok && store.objects == old(store.objects)
            case Unchanged => ok && store.objects == old(store.objects)
            case Move(from, to) =>
              && (store.Reliable() && (exists k :: Selected(old(store.objects), from, k)) ==> ok)
              && (ok ==> (exists k :: Selected(old(store.objects), from, k)) &&
                         forall k :: Lookup(store.objects, k) == RenamedAt(old(store.objects), from, to, k))
              && Halfway(old(store.objects), from, to, store.objects)
              && forall i :: |old(store.trace)| <= i < |store.trace| ==>
                             Halfway(old(store.objects), from, to, store.trace[i])
  {
    RenameTargetApart(path, newName);
    match PlanRename(path, newName)
    case Reject => ok := false;
    case Unchanged => ok := true;
    case Move(from, to) => ok := ObjectStoreRename(store, from, to);
  }
}
