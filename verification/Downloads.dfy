/** Downloading objects to the local disk: one object through a staging file, and a
    whole folder by walking one-level listings. */
module Downloads {
  import opened Basics
  import opened RemotePaths
  import opened ObjectStore

  datatype Node = Directory | File(content: Bytes)

  type Nodes = map<Key, Node>

  datatype Behavior = Overwrite | Fail

  /** Only missing directories on the way to `path` have appeared. */
  ghost predicate OnlyDirsUpTo(before: Nodes, path: Key, after: Nodes) {
    forall k :: Lookup(after, k) == Lookup(before, k) || FreshDir(before, path, after, k)
  }

  predicate FreshDir(before: Nodes, path: Key, after: Nodes, k: Key) {
    k <= path && k !in before && Lookup(after, k) == Some(Directory)
  }

  /** The disk as it is, as others left it, and how both came about. */
  datatype Sight = Sight(nodes: Nodes, outside: Nodes, trace: seq<(Nodes, Nodes)>)

  /** No file is in the way of a directory at `path`. */
  predicate OpenWay(nodes: Nodes, path: Key) {
    forall i :: 0 <= i <= |path| ==> Lookup(nodes, path[..i]) in {None, Some(Directory)}
  }

  /** A file may be put there. */
  predicate FreeSpot(nodes: Nodes, destination: Key, behavior: Behavior) {
    Lookup(nodes, destination) != Some(Directory) && (behavior.Fail? ==> destination !in nodes)
  }

  /** The local disk as this process sees it. Another program may write to it at any
      moment; `outside` is what the disk would hold without this process's files. */
  class LocalDisk {
    var nodes: Nodes
    var staging: Option<Bytes>
    var calls: nat
    ghost var outside: Nodes
    /** The nodes, and what others left, after every change to the disk so far. */
    ghost var trace: seq<(Nodes, Nodes)>
    /** The deepest path the file system accepts. */
    const depthLimit: nat
    const refuses: nat -> bool
    const rival: nat -> Nodes

    constructor (nodes: Nodes, depthLimit: nat, refuses: nat -> bool, rival: nat -> Nodes)
      ensures this.nodes == nodes && outside == nodes && staging == None && trace == []
      ensures this.depthLimit == depthLimit && this.refuses == refuses && this.rival == rival
    {
      this.nodes, outside, this.depthLimit := nodes, nodes, depthLimit;
      this.refuses, this.rival := refuses, rival;
      staging, calls, trace := None, 0, [];
    }

    ghost function Now(): Sight
      reads this
    {
      Sight(nodes, outside, trace)
    }

    /** The part of the disk this process did not touch is what others left there. */
    ghost predicate Agrees(key: Key)
      reads this
    {
      Lookup(nodes, key) == Lookup(outside, key)
    }

    /** Nothing on the disk is ever refused, and nobody else writes. */
    ghost predicate Calm() {
      forall n :: !refuses(n) && rival(n) == map[]
    }

    /** `create_dir_all`: fails on a file in the way, beyond the depth limit, or on any
        refusal, possibly after creating some of the directories. */
    method CreateDirAll(path: Key) returns (ok: bool)
      modifies this`nodes, this`calls, this`trace
      ensures OnlyDirsUpTo(old(nodes), path, nodes)
      ensures trace == old(trace) + [(nodes, outside)]
      ensures ok ==> |path| <= depthLimit && Lookup(nodes, path) == Some(Directory)
      ensures ok ==> forall i :: 0 <= i <= |path| ==> Lookup(nodes, path[..i]) == Some(Directory)
      ensures Calm() && |path| <= depthLimit && OpenWay(old(nodes), path) ==> ok
    {
      ok := |path| <= depthLimit;
      for i := 0 to |path| + 1
        invariant OnlyDirsUpTo(old(nodes), path, nodes)
        invariant ok ==> forall j :: 0 <= j < i ==> Lookup(nodes, path[..j]) == Some(Directory)
        invariant ok ==> |path| <= depthLimit
        invariant trace == old(trace)
        invariant Calm() && |path| <= depthLimit && OpenWay(old(nodes), path) ==> ok
        invariant forall k: Key :: |k| >= i ==> Lookup(nodes, k) == Lookup(old(nodes), k)
      {
        var part := path[..i];
        ok := ok && !refuses(calls) && Lookup(nodes, part) in {None, Some(Directory)};
        calls := calls + 1;
        if !ok { break; }
        nodes := nodes[part := Directory];
      }
      assert path[..|path|] == path;
      trace := trace + [(nodes, outside)];
    }

    /** `remove_dir_all` on the folder this disk holds; a refusal may come halfway. */
    method RemoveAll() returns (ok: bool)
      modifies this`nodes, this`calls, this`trace
      ensures ok ==> nodes == map[]
      ensures !ok ==> nodes.Items <= old(nodes).Items
      ensures Calm() ==> ok
    {
      ok := !refuses(calls);
      if ok {
        nodes := map[];
      } else {
        assert {} <= nodes.Keys;
        var gone :| gone <= nodes.Keys;
        nodes := nodes - gone;
      }
      calls, trace := calls + 1, trace + [(nodes, outside)];
    }

    /** `File::create` followed by writing the whole content. */
    method WriteFile(path: Key, content: Bytes) returns (ok: bool)
      modifies this`nodes, this`calls, this`trace
      ensures ok ==> nodes == old(nodes)[path := File(content)]
      ensures ok ==> Lookup(old(nodes), path) != Some(Directory)
      ensures Calm() && Lookup(old(nodes), path) != Some(Directory) ==> ok
    {
      ok := !refuses(calls) && Lookup(nodes, path) != Some(Directory);
      if ok { nodes := nodes[path := File(content)]; }
      calls, trace := calls + 1, trace + [(nodes, outside)];
    }

    method CreateStaging() returns (ok: bool)
      modifies this`staging, this`calls
      ensures ok ==> staging == Some([])
      ensures !ok ==> staging == old(staging)
      ensures Calm() ==> ok
    {
      ok := !refuses(calls);
      if ok { staging := Some([]); }
      calls := calls + 1;
    }

    method Append(chunk: Bytes) returns (ok: bool)
      requires staging.Some?
      modifies this`staging, this`calls
      ensures staging.Some?
      ensures ok ==> staging.value == old(staging.value) + chunk
      ensures Calm() ==> ok
    {
      ok := !refuses(calls);
      if ok { staging := Some(staging.value + chunk); }
      calls := calls + 1;
    }

    method DropStaging()
      modifies this`staging
      ensures staging == None
    {
      staging := None;
    }

    /** What other programs write before this process takes its next step. */
    method OthersRun()
      modifies this`nodes, this`outside, this`calls, this`trace
      ensures forall k :: old(Agrees(k)) ==> Agrees(k)
      ensures rival(old(calls)) == map[] ==> nodes == old(nodes)
      ensures trace == old(trace) + [(nodes, outside)]
    {
      nodes := nodes + rival(calls);
      outside := outside + rival(calls);
      calls, trace := calls + 1, trace + [(nodes, outside)];
    }

    /** The atomic rename of the staging file onto its destination. */
    method Persist(destination: Key, behavior: Behavior) returns (ok: bool)
      requires staging.Some?
      modifies this`nodes, this`staging, this`calls, this`trace
      ensures staging == None
      ensures ok ==> nodes == old(nodes)[destination := File(old(staging.value))]
      ensures ok ==> Lookup(old(nodes), destination) != Some(Directory)
      ensures ok && behavior.Fail? ==> destination !in old(nodes)
      ensures !ok ==> nodes == old(nodes)
      ensures trace == old(trace) + [(nodes, outside)]
      ensures Calm() && FreeSpot(old(nodes), destination, behavior) ==> ok
    {
      ok := !refuses(calls) && Lookup(nodes, destination) != Some(Directory) &&
            (behavior.Fail? ==> destination !in nodes);
      if ok { nodes := nodes[destination := File(staging.value)]; }
      calls, staging, trace := calls + 1, None, trace + [(nodes, outside)];
    }
  }

  /** The cancellation flag of one transfer, set by another thread at some moment. */
  class Transfer {
    var polls: nat
    const canceled: nat -> bool

    constructor (canceled: nat -> bool)
      ensures polls == 0 && this.canceled == canceled
    {
      polls, this.canceled := 0, canceled;
    }

    /** No poll since the given one has seen the flag set. */
    ghost predicate QuietSince(start: nat)
      reads this
    {
      start <= polls && forall i :: start <= i < polls ==> !canceled(i)
    }

    ghost predicate NeverCanceled() {
      forall n :: !canceled(n)
    }

    method Load() returns (b: bool)
      modifies this
      ensures polls == old(polls) + 1 && b == canceled(old(polls))
    {
      b := canceled(polls);
      polls := polls + 1;
    }
  }

  // ------------------------------------------------------------------
  // One object
  // ------------------------------------------------------------------

  /** All the destination ever shows: what others left there, or the whole object. */
  ghost predicate NeverPartial(trace: seq<(Nodes, Nodes)>, from: nat, destination: Key, whole: Option<Bytes>) {
    forall i :: from <= i < |trace| ==>
      Lookup(trace[i].0, destination) == Lookup(trace[i].1, destination) ||
      (whole.Some? && i == |trace| - 1 && Lookup(trace[i].0, destination) == Some(File(whole.value)))
  }

  /** The stream does not break, and brings at least `length` bytes. */
  predicate Brings(pieces: seq<Piece>, length: int) {
    if pieces == [] then length <= 0
    else pieces[0].Take? && Brings(pieces[1..], length - pieces[0].length)
  }

  lemma {:induction false} BringsMore(pieces: seq<Piece>, length: int, less: int)
    requires Brings(pieces, length) && (less <= length || less <= 0)
    ensures Brings(pieces, less)
  {
    if pieces != [] { BringsMore(pieces[1..], length - pieces[0].length, less - pieces[0].length); }
  }

  lemma NextPiece(pieces: seq<Piece>, i: nat, size: nat, written: nat)
    requires i < |pieces| && written <= size && Brings(pieces[i..], size - written)
    ensures pieces[i].Take?
    ensures Brings(pieces[i + 1..], size - if written + pieces[i].length <= size then written + pieces[i].length else size)
  {
    var left := size - written - pieces[i].length;
    assert pieces[i..][1..] == pieces[i + 1..];
    BringsMore(pieces[i + 1..], left, if left >= 0 then left else 0);
  }

  /** What a download shows of itself at a destination it has not touched before: nothing,
      unless it succeeds with the whole object; Fail mode then found nothing there. */
  ghost predicate Guarded(before: Sight, after: Sight, destination: Key, behavior: Behavior, whole: Option<Bytes>) {
    Lookup(before.nodes, destination) == Lookup(before.outside, destination) ==>
      && (whole.None? ==> Lookup(after.nodes, destination) == Lookup(after.outside, destination))
      && (whole.Some? && behavior.Fail? ==> destination !in after.outside)
      && before.trace <= after.trace
      && NeverPartial(after.trace, |before.trace|, destination, whole)
  }

  lemma GuardedThen(a: Sight, b: Sight, c: Sight, destination: Key, behavior: Behavior, whole: Option<Bytes>)
    requires Guarded(a, b, destination, behavior, None) && Guarded(b, c, destination, behavior, whole)
    ensures Guarded(a, c, destination, behavior, whole)
  {
  }

  /** Where the next piece ends. */
  function EndOf(piece: Piece, size: nat, written: nat): nat
    requires piece.Take?
  {
    if written + piece.length <= size then written + piece.length else size
  }

  /** The loop body of a download: one piece of the stream into the staging file. */
  method StagePiece(disk: LocalDisk, transfer: Transfer, body: Bytes, piece: Piece, written: nat,
                    ghost destination: Key, ghost behavior: Behavior)
    returns (ok: bool)
    requires written <= |body| && disk.staging == Some(body[..written])
    modifies disk`staging, disk`calls, disk`nodes, disk`outside, disk`trace, transfer
    ensures ok ==> piece.Take? && disk.staging == Some(body[..EndOf(piece, |body|, written)])
    ensures !ok ==> disk.staging == None
    ensures transfer.polls <= old(transfer.polls) + 1 && old(transfer.polls) <= transfer.polls
    ensures ok && transfer.polls > old(transfer.polls) ==> !transfer.canceled(old(transfer.polls))
    ensures Guarded(old(disk.Now()), disk.Now(), destination, behavior, None)
    ensures (forall n :: disk.rival(n) == map[]) ==> disk.nodes == old(disk.nodes)
    ensures disk.Calm() && transfer.NeverCanceled() && piece.Take? ==> ok
  {
    if piece.Broken? {
      disk.DropStaging();
      return false;
    }
    var end := EndOf(piece, |body|, written);
    var canceled := transfer.Load();
    if canceled {
      disk.DropStaging();
      return false;
    }
    ok := disk.Append(body[written..end]);
    if !ok {
      disk.DropStaging();
      return;
    }
    assert body[..written] + body[written..end] == body[..end];
    ghost var agreed := disk.Agrees(destination);
    disk.OthersRun();
    assert agreed ==> disk.Agrees(destination);
  }

  /** Receives the pieces of the body into the staging file. */
  method StageBody(disk: LocalDisk, transfer: Transfer, body: Bytes, total: nat, pieces: seq<Piece>,
                   ghost destination: Key, ghost behavior: Behavior)
    returns (ok: bool)
    requires disk.staging == Some([]) && total == |body|
    modifies disk`staging, disk`calls, disk`nodes, disk`outside, disk`trace, transfer
    ensures disk.staging == if ok then Some(body) else None
    ensures ok ==> transfer.QuietSince(old(transfer.polls))
    ensures old(transfer.polls) <= transfer.polls
    ensures Guarded(old(disk.Now()), disk.Now(), destination, behavior, None)
    ensures (forall n :: disk.rival(n) == map[]) ==> disk.nodes == old(disk.nodes)
    ensures disk.Calm() && transfer.NeverCanceled() && Brings(pieces, |body|) ==> ok
  {
    ghost var quiet := forall n :: disk.rival(n) == map[];
    ghost var start := disk.Now();
    var written: nat := 0;
    for i := 0 to |pieces|
      invariant written <= |body| && disk.staging == Some(body[..written])
      invariant transfer.QuietSince(old(transfer.polls))
      invariant Guarded(start, disk.Now(), destination, behavior, None)
      invariant quiet ==> disk.nodes == old(disk.nodes)
      invariant Brings(pieces, |body|) ==> Brings(pieces[i..], |body| - written)
    {
      ghost var before := disk.Now();
      if Brings(pieces[i..], |body| - written) { NextPiece(pieces, i, |body|, written); }
      ok := StagePiece(disk, transfer, body, pieces[i], written, destination, behavior);
      GuardedThen(start, before, disk.Now(), destination, behavior, None);
      if !ok { return; }
      written := EndOf(pieces[i], |body|, written);
    }
    assert body[..|body|] == body;
    ok := written == total;
    if !ok { disk.DropStaging(); }
  }

  /** The parent folder and an empty staging file in it. */
  method Prepare(disk: LocalDisk, destination: Key, ghost behavior: Behavior) returns (ok: bool)
    requires destination != [] && disk.staging == None
    modifies disk`nodes, disk`staging, disk`calls, disk`trace
    ensures disk.staging == if ok then Some([]) else None
    ensures FileArrived(old(disk.nodes), destination, false, disk.nodes)
    ensures Guarded(old(disk.Now()), disk.Now(), destination, behavior, None)
    ensures Reachable(old(disk.nodes), disk.depthLimit, destination, behavior) ==> (disk.Calm() ==> ok)
  {
    ok := disk.CreateDirAll(Init(destination));
    assert Lookup(disk.nodes, destination) == Lookup(old(disk.nodes), destination);
    if ok { ok := disk.CreateStaging(); }
  }

  /** The last look at the flag, and the atomic rename. */
  method Finish(disk: LocalDisk, transfer: Transfer, body: Bytes, destination: Key, behavior: Behavior) returns (ok: bool)
    requires disk.staging == Some(body)
    modifies disk`nodes, disk`staging, disk`calls, disk`trace, transfer
    ensures disk.staging == None
    ensures transfer.polls == old(transfer.polls) + 1 && (ok ==> !transfer.canceled(old(transfer.polls)))
    ensures disk.nodes == if ok then old(disk.nodes)[destination := File(body)] else old(disk.nodes)
    ensures ok ==> Lookup(old(disk.nodes), destination) != Some(Directory)
    ensures Guarded(old(disk.Now()), disk.Now(), destination, behavior, if ok then Some(body) else None)
    ensures disk.Calm() && transfer.NeverCanceled() && FreeSpot(old(disk.nodes), destination, behavior) ==> ok
  {
    var canceled := transfer.Load();
    if canceled {
      disk.DropStaging();
      return false;
    }
    ok := disk.Persist(destination, behavior);
  }

  /** From creating the parent folder to the atomic rename onto the destination. */
  method ReceiveFile(disk: LocalDisk, transfer: Transfer, body: Bytes, total: nat, pieces: seq<Piece>,
                     destination: Key, behavior: Behavior)
    returns (ok: bool)
    requires destination != [] && disk.staging == None && total == |body|
    modifies disk, transfer
    ensures disk.staging == None
    ensures old(transfer.polls) <= transfer.polls
    ensures ok ==> Lookup(disk.nodes, destination) == Some(File(body)) && transfer.QuietSince(old(transfer.polls))
    ensures Guarded(old(disk.Now()), disk.Now(), destination, behavior, if ok then Some(body) else None)
    ensures (forall n :: disk.rival(n) == map[]) ==> FileArrived(old(disk.nodes), destination, ok, disk.nodes)
    ensures Reachable(old(disk.nodes), disk.depthLimit, destination, behavior) ==>
              (disk.Calm() && transfer.NeverCanceled() && Brings(pieces, |body|) ==> ok)
  {
    ghost var start := disk.Now();
    ok := Prepare(disk, destination, behavior);
    if !ok { return; }
    ghost var made := disk.Now();
    ok := StageBody(disk, transfer, body, total, pieces, destination, behavior);
    ghost var staged := disk.Now();
    GuardedThen(start, made, staged, destination, behavior, None);
    if !ok { return; }
    ok := Finish(disk, transfer, body, destination, behavior);
    GuardedThen(start, staged, disk.Now(), destination, behavior, if ok then Some(body) else None);
    if ok && staged.nodes == made.nodes { FileArrives(start.nodes, made.nodes, destination, body); }
  }

  /** The parent folder can be made, and the file put there. */
  predicate Reachable(nodes: Nodes, depthLimit: nat, destination: Key, behavior: Behavior)
    requires destination != []
  {
    |destination| - 1 <= depthLimit && OpenWay(nodes, Init(destination)) && FreeSpot(nodes, destination, behavior)
  }

  /** What one download does to an otherwise idle disk. */
  ghost predicate FileArrived(before: Nodes, destination: Key, ok: bool, after: Nodes)
    requires destination != []
  {
    && (forall k :: k != destination ==>
          Lookup(after, k) == Lookup(before, k) || FreshDir(before, Init(destination), after, k))
    && (ok ==> Lookup(before, destination) != Some(Directory))
    && (!ok ==> Lookup(after, destination) == Lookup(before, destination))
  }

  lemma FileArrives(before: Nodes, made: Nodes, destination: Key, content: Bytes)
    requires destination != [] && FileArrived(before, destination, false, made)
    requires Lookup(made, destination) != Some(Directory)
    ensures FileArrived(before, destination, true, made[destination := File(content)])
  {
  }

  /** Nothing fails, nobody cancels, and every stream is complete. */
  ghost predicate Undisturbed(store: RemoteStore, disk: LocalDisk, transfer: Transfer)
    reads store`objects
  {
    && store.Reliable() && disk.Calm() && transfer.NeverCanceled()
    && forall n, k :: k in store.objects ==> Brings(store.wire(n), |store.objects[k]|)
  }

  /** The download of one key. */
  method DownloadKey(store: RemoteStore, disk: LocalDisk, transfer: Transfer, key: Key, destination: Key, behavior: Behavior)
    returns (r: Outcome<nat>)
    requires destination != [] && disk.staging == None
    modifies store`calls, disk, transfer
    ensures disk.staging == None
    ensures r.Done? ==>
              && key in store.objects && r.value == |store.objects[key]|
              && Lookup(disk.nodes, destination) == Some(File(store.objects[key]))
              && transfer.QuietSince(old(transfer.polls))
    ensures Guarded(old(disk.Now()), disk.Now(), destination, behavior,
                    if r.Done? then Lookup(store.objects, key) else None)
    ensures (forall n :: disk.rival(n) == map[]) ==>
              FileArrived(old(disk.nodes), destination, r.Done?, disk.nodes)
    ensures Reachable(old(disk.nodes), disk.depthLimit, destination, behavior) ==>
              (Undisturbed(store, disk, transfer) && key in store.objects ==> r.Done?)
  {
    var canceled := transfer.Load();
    if canceled { return Failed; }
    var result := store.Get(key);
    if result.Failed? { return Failed; }
    var (total, body, pieces) := result.value;
    var received := ReceiveFile(disk, transfer, body, total, pieces, destination, behavior);
    r := if received then Done(total) else Failed;
  }

  /** Success delivers the whole object and nothing else ever shows at the destination;
      failure or cancellation leaves there what others have put there. */
  method ObjectStoreDownload(store: RemoteStore, disk: LocalDisk, transfer: Transfer,
                             remote: string, destination: Key, behavior: Behavior)
    returns (r: Outcome<nat>)
    requires destination != [] && disk.staging == None
    modifies store`calls, disk, transfer
    ensures disk.staging == None
    ensures r.Done? ==>
              && Kept(remote) in store.objects
              && r.value == |store.objects[Kept(remote)]|
              && Lookup(disk.nodes, destination) == Some(File(store.objects[Kept(remote)]))
              && transfer.QuietSince(old(transfer.polls))
    ensures Guarded(old(disk.Now()), disk.Now(), destination, behavior,
                    if r.Done? then Lookup(store.objects, Kept(remote)) else None)
    ensures (forall n :: disk.rival(n) == map[]) ==>
              FileArrived(old(disk.nodes), destination, r.Done?, disk.nodes)
    ensures Reachable(old(disk.nodes), disk.depthLimit, destination, behavior) ==>
              (Undisturbed(store, disk, transfer) && Kept(remote) in store.objects ==> r.Done?)
  {
    KeySegments(remote);
    r := DownloadKey(store, disk, transfer, ParseKey(ObjectKey(remote)), destination, behavior);
  }
}
