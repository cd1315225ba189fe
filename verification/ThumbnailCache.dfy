/** The thumbnail cache: 256 slot files shared by every call, while the pictures change
    underneath. Each call runs step by step between the steps of the others. */
module ThumbnailCache {
  import opened Basics

  type Path = string

  const MAX_CACHE_ENTRY := 128 * 1024
  const DIGEST := 32

  /** The digest of a path's version, the preview rendered from it, if any, and the
      versions that pictures ever have. */
  datatype World = World(fingerprint: (Path, nat) -> Bytes, render: (Path, nat) -> Option<Bytes>,
                         versions: set<(Path, nat)>)

  /** Digests have 32 bytes, and no two versions that occur have the same. */
  ghost predicate Sound(w: World) {
    && (forall p, v :: |w.fingerprint(p, v)| == DIGEST)
    && (forall x, y :: x in w.versions && y in w.versions && w.fingerprint(x.0, x.1) == w.fingerprint(y.0, y.1) ==> x == y)
  }

  /** Every change of a picture, its removal too, gives it a version it never had. */
  datatype File = File(version: nat, present: bool)

  datatype Pc =
    | Looking
    | Decoding
    | Checking(png: Bytes)   // rendered; the source is about to be checked again
    | Storing(png: Bytes)
    | Returned(preview: Option<Bytes>)

  /** A call: the picture, and the version its fingerprint was taken of. */
  datatype Call = Call(path: Path, version: nat, pc: Pc)

  datatype State = State(files: map<Path, File>, slots: map<byte, Bytes>, calls: map<nat, Call>)

  datatype Step =
    | Change(path: Path, file: File)
    | Begin(id: nat, path: Path)
    | Look(id: nat, readable: bool)
    | Decode(id: nat, result: Option<Bytes>)
    | Check(id: nat)
    | Store(id: nat, works: bool)

  // ------------------------------------------------------------------
  // The steps
  // ------------------------------------------------------------------

  /** What an entry holds for this key: the entry must fit, start with the whole key, and
      have something after it. */
  function Cached(entry: Bytes, key: Bytes): Option<Bytes> {
    if |entry| <= MAX_CACHE_ENTRY && key <= entry && |entry| > |key| then Some(entry[|key|..]) else None
  }

  function At(s: State, id: nat, pc: Pc): State
    requires id in s.calls
  {
    s.(calls := s.calls[id := s.calls[id].(pc := pc)])
  }

  predicate IsAt(s: State, id: nat, pc: Pc) {
    id in s.calls && s.calls[id].pc == pc
  }

  function Key(w: World, call: Call): Bytes {
    w.fingerprint(call.path, call.version)
  }

  /** A step that may be taken. While the picture keeps the version it had when the call
      began, decoding renders that version; otherwise it may yield anything. */
  predicate Possible(w: World, s: State, step: Step) {
    match step
    case Change(path, file) =>
      (path, file.version) in w.versions && (path in s.files ==> s.files[path].version < file.version)
    case Begin(id, path) => id !in s.calls
    case Look(id, _) => IsAt(s, id, Looking)
    case Decode(id, result) =>
      IsAt(s, id, Decoding) && (result.Some? && Unchanged(s, s.calls[id]) ==>
                                  result == w.render(s.calls[id].path, s.calls[id].version))
    case Check(id) => id in s.calls && s.calls[id].pc.Checking?
    case Store(id, _) => id in s.calls && s.calls[id].pc.Storing?
  }

  predicate Unchanged(s: State, call: Call) {
    call.path in s.files && s.files[call.path].version == call.version
  }

  function Next(w: World, s: State, step: Step): State
    requires Possible(w, s, step)
  {
    match step
    case Change(path, file) => s.(files := s.files[path := file])
    case Begin(id, path) =>
      if path in s.files && s.files[path].present
      then s.(calls := s.calls[id := Call(path, s.files[path].version, Looking)])
      else s.(calls := s.calls[id := Call(path, 0, Returned(None))])
    case Look(id, readable) =>
      var key := Key(w, s.calls[id]);
      var entry := if readable && |key| > 0 then Lookup(s.slots, key[0]) else None;
      var hit := if entry.Some? then Cached(entry.value, key) else None;
      At(s, id, if hit.Some? then Returned(hit) else Decoding)
    case Decode(id, result) =>
      At(s, id, if result.Some? && |result.value| + |Key(w, s.calls[id])| <= MAX_CACHE_ENTRY
                then Checking(result.value) else Returned(None))
    case Check(id) =>
      var call := s.calls[id];
      var same := call.path in s.files && s.files[call.path].present &&
                  w.fingerprint(call.path, s.files[call.path].version) == Key(w, call);
      At(s, id, if same then Storing(call.pc.png) else Returned(None))
    case Store(id, works) =>
      var key, png := Key(w, s.calls[id]), s.calls[id].pc.png;
      var stored := if works && |key| > 0 then s.(slots := s.slots[key[0] := key + png]) else s;
      At(stored, id, Returned(Some(png)))
  }

  function Taken(w: World, s: State, step: Step): State {
    if Possible(w, s, step) then Next(w, s, step) else s
  }

  function Run(w: World, s: State, steps: seq<Step>): State
    decreases |steps|
  {
    if steps == [] then s
    else Run(w, Taken(w, s, steps[0]), steps[1..])
  }

  // ------------------------------------------------------------------
  // The invariant
  // ------------------------------------------------------------------

  /** The entry is the digest of some version whose first byte is the slot's number,
      followed by that version's preview, and it fits. */
  ghost predicate SlotOk(w: World, slot: byte, entry: Bytes) {
    exists p, v :: HoldsPreview(w, slot, entry, p, v)
  }

  predicate HoldsPreview(w: World, slot: byte, entry: Bytes, p: Path, v: nat) {
    && (p, v) in w.versions && |w.fingerprint(p, v)| > 0 && w.fingerprint(p, v)[0] == slot && |entry| <= MAX_CACHE_ENTRY
    && w.render(p, v).Some? && entry == w.fingerprint(p, v) + w.render(p, v).value
  }

  predicate CallOk(w: World, s: State, call: Call) {
    var rendered := w.render(call.path, call.version);
    match call.pc
    case Looking => HasBeen(w, s, call)
    case Decoding => HasBeen(w, s, call)
    case Checking(png) =>
      HasBeen(w, s, call) && |png| + DIGEST <= MAX_CACHE_ENTRY && (Unchanged(s, call) ==> rendered == Some(png))
    case Storing(png) => (call.path, call.version) in w.versions && |png| + DIGEST <= MAX_CACHE_ENTRY && rendered == Some(png)
    case Returned(preview) => preview.Some? ==> preview == rendered
  }

  /** The call's version is one the picture had, and no later than the one it has. */
  predicate HasBeen(w: World, s: State, call: Call) {
    (call.path, call.version) in w.versions && call.path in s.files && call.version <= s.files[call.path].version
  }

  predicate Occurring(w: World, files: map<Path, File>) {
    forall p :: p in files ==> (p, files[p].version) in w.versions
  }

  ghost predicate Inv(w: World, s: State) {
    && Occurring(w, s.files)
    && (forall slot :: slot in s.slots ==> SlotOk(w, slot, s.slots[slot]))
    && (forall id :: id in s.calls ==> CallOk(w, s, s.calls[id]))
  }

  /** A hit can only be the preview of the very version looked for. */
  lemma HitIsRendering(w: World, slot: byte, entry: Bytes, path: Path, version: nat)
    requires Sound(w) && (path, version) in w.versions && SlotOk(w, slot, entry) && Cached(entry, w.fingerprint(path, version)).Some?
    ensures Cached(entry, w.fingerprint(path, version)) == w.render(path, version)
  {
    var p, v :| HoldsPreview(w, slot, entry, p, v);
    var key := w.fingerprint(path, version);
    assert entry[..DIGEST] == key == w.fingerprint(p, v);
    assert entry[DIGEST..] == w.render(p, v).value;
  }

  lemma CallsStayOk(w: World, s: State, t: State, id: nat)
    requires Inv(w, s) && t.files == s.files && id in t.calls && CallOk(w, t, t.calls[id])
    requires t.calls.Keys <= s.calls.Keys + {id} && forall k :: k in t.calls && k != id ==> t.calls[k] == s.calls[k]
    ensures forall k :: k in t.calls ==> CallOk(w, t, t.calls[k])
  {
    forall k | k in t.calls ensures CallOk(w, t, t.calls[k]) {
      if k != id { assert CallOk(w, s, s.calls[k]); }
    }
  }

  lemma ChangeKeepsInv(w: World, s: State, path: Path, file: File)
    requires Inv(w, s) && Possible(w, s, Change(path, file))
    ensures Inv(w, Next(w, s, Change(path, file)))
  {
    var t := Next(w, s, Change(path, file));
    forall id | id in t.calls ensures CallOk(w, t, t.calls[id]) {
      assert CallOk(w, s, s.calls[id]);
    }
  }

  lemma LookKeepsInv(w: World, s: State, id: nat, readable: bool)
    requires Sound(w) && Inv(w, s) && Possible(w, s, Look(id, readable))
    ensures Inv(w, Next(w, s, Look(id, readable)))
  {
    var t := Next(w, s, Look(id, readable));
    var call := s.calls[id];
    assert CallOk(w, s, call);
    if t.calls[id].pc.Returned? {
      HitIsRendering(w, Key(w, call)[0], s.slots[Key(w, call)[0]], call.path, call.version);
    }
    CallsStayOk(w, s, t, id);
  }

  lemma StoreKeepsInv(w: World, s: State, id: nat, works: bool)
    requires Sound(w) && Inv(w, s) && Possible(w, s, Store(id, works))
    ensures Inv(w, Next(w, s, Store(id, works)))
  {
    var t := Next(w, s, Store(id, works));
    var call := s.calls[id];
    assert CallOk(w, s, call);
    CallsStayOk(w, s, t, id);
    forall slot | slot in t.slots ensures SlotOk(w, slot, t.slots[slot]) {
      if works && slot == Key(w, call)[0] {
        assert HoldsPreview(w, slot, t.slots[slot], call.path, call.version);
      } else {
        assert t.slots[slot] == s.slots[slot];
      }
    }
  }

  lemma BeginKeepsInv(w: World, s: State, id: nat, path: Path)
    requires Inv(w, s) && Possible(w, s, Begin(id, path))
    ensures Inv(w, Next(w, s, Begin(id, path)))
  {
    CallsStayOk(w, s, Next(w, s, Begin(id, path)), id);
  }

  lemma DecodeKeepsInv(w: World, s: State, id: nat, result: Option<Bytes>)
    requires Sound(w) && Inv(w, s) && Possible(w, s, Decode(id, result))
    ensures Inv(w, Next(w, s, Decode(id, result)))
  {
    assert CallOk(w, s, s.calls[id]);
    CallsStayOk(w, s, Next(w, s, Decode(id, result)), id);
  }

  lemma CheckKeepsInv(w: World, s: State, id: nat)
    requires Sound(w) && Inv(w, s) && Possible(w, s, Check(id))
    ensures Inv(w, Next(w, s, Check(id)))
  {
    var call := s.calls[id];
    assert CallOk(w, s, call);
    if Next(w, s, Check(id)).calls[id].pc.Storing? {
      var now := (call.path, s.files[call.path].version);
      assert now in w.versions && now == (call.path, call.version);
    }
    CallsStayOk(w, s, Next(w, s, Check(id)), id);
  }

  lemma StepKeepsInv(w: World, s: State, step: Step)
    requires Sound(w) && Inv(w, s) && Possible(w, s, step)
    ensures Inv(w, Next(w, s, step))
  {
    match step
    case Change(path, file) => ChangeKeepsInv(w, s, path, file);
    case Begin(id, path) => BeginKeepsInv(w, s, id, path);
    case Look(id, readable) => LookKeepsInv(w, s, id, readable);
    case Decode(id, result) => DecodeKeepsInv(w, s, id, result);
    case Check(id) => CheckKeepsInv(w, s, id);
    case Store(id, works) => StoreKeepsInv(w, s, id, works);
  }

  lemma {:induction false} RunKeepsInv(w: World, s: State, steps: seq<Step>)
    requires Sound(w) && Inv(w, s)
    ensures Inv(w, Run(w, s, steps))
    decreases |steps|
  {
    if steps != [] {
      if Possible(w, s, steps[0]) { StepKeepsInv(w, s, steps[0]); }
      RunKeepsInv(w, Taken(w, s, steps[0]), steps[1..]);
    }
  }

  /** Two pictures, one of them with two versions, and digests that tell the three apart. */
  function SampleDigest(path: Path, version: nat): (d: Bytes)
    ensures |d| == DIGEST
  {
    seq(DIGEST, _ => if path == "b" then 2 as byte else if version == 1 then 1 else 0)
  }

  const SAMPLE := World(SampleDigest, (p: Path, v: nat) => Some([]), {("a", 0), ("a", 1), ("b", 0)})

  lemma SampleDiffers(x: (Path, nat), y: (Path, nat))
    requires x in SAMPLE.versions && y in SAMPLE.versions && SampleDigest(x.0, x.1) == SampleDigest(y.0, y.1)
    ensures x == y
  {
    assert SampleDigest(x.0, x.1)[0] == SampleDigest(y.0, y.1)[0];
    assert "a" != "b";
  }

  /** Such worlds exist, and pictures change in them. */
  lemma SampleIsSound()
    ensures Sound(SAMPLE)
    ensures
      var s := State(map["a" := File(0, true), "b" := File(0, true)], map[], map[]);
      Inv(SAMPLE, s) && Possible(SAMPLE, s, Change("a", File(1, true))) && Possible(SAMPLE, s, Begin(0, "b"))
  {
    forall x, y | x in SAMPLE.versions && y in SAMPLE.versions && SampleDigest(x.0, x.1) == SampleDigest(y.0, y.1)
      ensures x == y
    {
      SampleDiffers(x, y);
    }
  }

  // ------------------------------------------------------------------
  // What a call returns
  // ------------------------------------------------------------------

  /** A call keeps looking for the version it began with. */
  lemma {:induction false} CallIsFixed(w: World, s: State, steps: seq<Step>, id: nat)
    requires id in s.calls
    ensures
      var t := Run(w, s, steps);
      id in t.calls && t.calls[id].path == s.calls[id].path && t.calls[id].version == s.calls[id].version
    decreases |steps|
  {
    if steps != [] { CallIsFixed(w, Taken(w, s, steps[0]), steps[1..], id); }
  }

  /** From empty slots, under every interleaving of calls and changes before and after: a
      preview returned by a call is the rendering of the version the picture had, and was
      fingerprinted at, when the call began. */
  lemma PreviewIsOfStartVersion(w: World, files: map<Path, File>, before: seq<Step>, id: nat, path: Path,
                                after: seq<Step>, preview: Bytes)
    requires Sound(w) && Occurring(w, files)
    requires Possible(w, Run(w, State(files, map[], map[]), before), Begin(id, path))
    requires IsAt(Run(w, Taken(w, Run(w, State(files, map[], map[]), before), Begin(id, path)), after), id,
                  Returned(Some(preview)))
    ensures
      var s := Run(w, State(files, map[], map[]), before);
      path in s.files && s.files[path].present && w.render(path, s.files[path].version) == Some(preview)
  {
    var s := Run(w, State(files, map[], map[]), before);
    RunKeepsInv(w, State(files, map[], map[]), before);
    StepKeepsInv(w, s, Begin(id, path));
    var t := Taken(w, s, Begin(id, path));
    RunKeepsInv(w, t, after);
    CallIsFixed(w, t, after, id);
    assert CallOk(w, Run(w, t, after), Run(w, t, after).calls[id]);
    if t.calls[id].pc.Returned? { ReturnedStays(w, t, after, id); }
  }

  lemma {:induction false} ReturnedStays(w: World, s: State, steps: seq<Step>, id: nat)
    requires id in s.calls && s.calls[id].pc.Returned?
    ensures id in Run(w, s, steps).calls && Run(w, s, steps).calls[id] == s.calls[id]
    decreases |steps|
  {
    if steps != [] { ReturnedStays(w, Taken(w, s, steps[0]), steps[1..], id); }
  }

  /** The steps of one call alone, with nothing failing. */
  function WholeCall(w: World, s: State, id: nat, path: Path): State
    requires id !in s.calls && path in s.files && s.files[path].present
  {
    var rendered := w.render(path, s.files[path].version);
    Run(w, s, [Begin(id, path), Look(id, true), Decode(id, rendered), Check(id), Store(id, true)])
  }

  function Fits(w: World, path: Path, version: nat): Option<Bytes> {
    var rendered := w.render(path, version);
    if rendered.Some? && |rendered.value| + DIGEST <= MAX_CACHE_ENTRY then rendered else None
  }

  lemma RunStep(w: World, s: State, step: Step, rest: seq<Step>)
    ensures Run(w, s, [step] + rest) == Run(w, Taken(w, s, step), rest)
  {
    assert ([step] + rest)[1..] == rest;
  }

  lemma RunFive(w: World, s: State, a: Step, b: Step, c: Step, d: Step, e: Step)
    ensures Run(w, s, [a, b, c, d, e]) == Taken(w, Taken(w, Taken(w, Taken(w, Taken(w, s, a), b), c), d), e)
  {
    RunStep(w, s, a, [b, c, d, e]);
    assert [a, b, c, d, e] == [a] + [b, c, d, e];
    var s1 := Taken(w, s, a);
    RunStep(w, s1, b, [c, d, e]);
    assert [b, c, d, e] == [b] + [c, d, e];
    var s2 := Taken(w, s1, b);
    RunStep(w, s2, c, [d, e]);
    assert [c, d, e] == [c] + [d, e];
    var s3 := Taken(w, s2, c);
    RunStep(w, s3, d, [e]);
    assert [d, e] == [d] + [e];
    var s4 := Taken(w, s3, d);
    RunStep(w, s4, e, []);
    assert [e] == [e] + [];
  }

  /** An undisturbed call agrees with rendering afresh, whatever the cache held before:
      hit or miss, it returns the present version's preview, and none exactly when there
      is none or it is too large. */
  lemma UndisturbedCall(w: World, s: State, id: nat, path: Path)
    requires Sound(w) && Inv(w, s) && id !in s.calls && path in s.files && s.files[path].present
    ensures IsAt(WholeCall(w, s, id, path), id, Returned(Fits(w, path, s.files[path].version)))
  {
    var version := s.files[path].version;
    var rendered := w.render(path, version);
    RunFive(w, s, Begin(id, path), Look(id, true), Decode(id, rendered), Check(id), Store(id, true));
    var s1 := Taken(w, s, Begin(id, path));
    var s2 := Taken(w, s1, Look(id, true));
    var key := w.fingerprint(path, version);
    if s2.calls[id].pc.Returned? {
      HitIsRendering(w, key[0], s.slots[key[0]], path, version);
      HitFits(w, key[0], s.slots[key[0]], path, version);
    }
  }

  lemma HitFits(w: World, slot: byte, entry: Bytes, path: Path, version: nat)
    requires Sound(w) && (path, version) in w.versions && SlotOk(w, slot, entry) && Cached(entry, w.fingerprint(path, version)).Some?
    ensures Fits(w, path, version) == w.render(path, version)
  {
    HitIsRendering(w, slot, entry, path, version);
  }
}
