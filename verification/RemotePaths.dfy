/** The remote-path strings of the cloud storage browser: canonicalisation, the
    parent/child/join helpers, object keys, and the target a rename computes. */
module RemotePaths {
  import opened Basics

  // ------------------------------------------------------------------
  // Strings: trimming and splitting
  // ------------------------------------------------------------------

  /** Unicode White_Space, the set `str::trim` removes. */
  predicate IsSpace(c: char) {
    '\t' <= c <= '\r' || c == ' ' || c == '\U{85}' || c == '\U{A0}' || c == '\U{1680}' ||
    '\U{2000}' <= c <= '\U{200A}' || c == '\U{2028}' || c == '\U{2029}' || c == '\U{202F}' ||
    c == '\U{205F}' || c == '\U{3000}'
  }

  predicate EndsInSpace(s: string) {
    s != "" && IsSpace(s[|s| - 1])
  }

  function TrimEnd(s: string): (r: string)
    ensures r <= s
    ensures !EndsInSpace(r)
    ensures r == s <==> !EndsInSpace(s)
  {
    if EndsInSpace(s) then TrimEnd(s[..|s| - 1]) else s
  }

  function TrimStart(s: string): string {
    if s != "" && IsSpace(s[0]) then TrimStart(s[1..]) else s
  }

  function Trim(s: string): string {
    TrimEnd(TrimStart(s))
  }

  function Split(s: string): (parts: seq<string>)
    ensures |parts| >= 1
    ensures forall i :: 0 <= i < |parts| ==> '/' !in parts[i]
  {
    if s == "" then [""]
    else if s[0] == '/' then [""] + Split(s[1..])
    else
      var rest := Split(s[1..]);
      [[s[0]] + rest[0]] + rest[1..]
  }

  function RSplitOnce(s: string): Option<(string, string)> {
    if s == "" then None
    else
      var front, c := s[..|s| - 1], s[|s| - 1];
      if c == '/' then Some((front, ""))
      else match RSplitOnce(front)
        case None => None
        case Some((parent, child)) => Some((parent, child + [c]))
  }

  function TrimSlashes(s: string): string {
    if s != "" && s[0] == '/' then TrimSlashes(s[1..]) else s
  }

  // ------------------------------------------------------------------
  // Segments
  // ------------------------------------------------------------------

  type Key = seq<string>

  function Init<T>(s: seq<T>): seq<T> requires s != [] { s[..|s| - 1] }

  function Last<T>(s: seq<T>): T requires s != [] { s[|s| - 1] }

  predicate SlashFree(segments: Key) {
    forall i :: 0 <= i < |segments| ==> '/' !in segments[i]
  }

  predicate Dropped(segment: string) {
    segment == "" || segment == "." || segment == ".."
  }

  /** What canonicalisation leaves behind: nameable segments only. */
  predicate Clean(segments: Key) {
    SlashFree(segments) && forall i :: 0 <= i < |segments| ==> !Dropped(segments[i])
  }

  function Keep(segments: Key): (kept: Key)
    ensures SlashFree(segments) ==> Clean(kept)
    ensures |kept| <= |segments|
  {
    if segments == [] then []
    else if Dropped(segments[0]) then Keep(segments[1..])
    else [segments[0]] + Keep(segments[1..])
  }

  /** The segments `normalize_remote_path` keeps. */
  function Kept(path: string): (kept: Key)
    ensures Clean(kept)
  {
    Keep(Split(Trim(path)))
  }

  function Slashed(segments: Key): string {
    if segments == [] then "" else "/" + segments[0] + Slashed(segments[1..])
  }

  function Render(segments: Key): string {
    if segments == [] then "/" else Slashed(segments)
  }

  // ------------------------------------------------------------------
  // The path helpers
  // ------------------------------------------------------------------

  function NormalizeRemotePath(path: string): string {
    Render(Kept(path))
  }

  /** The loop of `normalize_remote_path`, pushing the segments it keeps. */
  method NormalizePath(path: string) returns (normalized: string)
    ensures normalized == NormalizeRemotePath(path)
  {
    var parts := Split(Trim(path));
    var segments: Key := [];
    for i := 0 to |parts|
      invariant segments + Keep(parts[i..]) == Keep(parts)
    {
      assert parts[i..][1..] == parts[i + 1..];
      var segment := parts[i];
      if segment == "" || segment == "." || segment == ".." {
        continue;
      }
      assert segments + ([segment] + Keep(parts[i + 1..])) == segments + [segment] + Keep(parts[i + 1..]);
      segments := segments + [segment];
    }
    assert segments + Keep(parts[|parts|..]) == segments;
    normalized := Render(segments);
  }

  function RemoteChildName(path: string): string {
    match RSplitOnce(NormalizeRemotePath(path))
    case Some((_, child)) => child
    case None => NormalizeRemotePath(path)
  }

  function RemoteParentPath(path: string): string {
    match RSplitOnce(NormalizeRemotePath(path))
    case Some((parent, _)) => if parent != "" then parent else "/"
    case None => "/"
  }

  function JoinRemotePath(parent: string, name: string): string {
    var p := NormalizeRemotePath(parent);
    if p == "/" then "/" + name else p + "/" + name
  }

  function ObjectKey(path: string): string {
    TrimSlashes(NormalizeRemotePath(path))
  }

  /** `path_from_key`: an object path is the key's segments. */
  function ParseKey(key: string): Key {
    if key == "" then [] else Split(key)
  }

  function ValidateRemoteChildName(name: string): Option<string> {
    var trimmed := Trim(name);
    if Dropped(trimmed) || '/' in trimmed || '\\' in trimmed then None else Some(trimmed)
  }

  // ------------------------------------------------------------------
  // Rendering and splitting are inverse
  // ------------------------------------------------------------------

  lemma {:induction false} SplitSlashed(head: string, tail: Key)
    requires '/' !in head && SlashFree(tail)
    ensures Split(head + Slashed(tail)) == [head] + tail
    decreases |tail|, |head|
  {
    var s := head + Slashed(tail);
    if head != "" {
      assert s[1..] == head[1..] + Slashed(tail);
      SplitSlashed(head[1..], tail);
      assert Split(s[1..])[1..] == tail;
      assert [s[0]] + head[1..] == head;
    } else if tail != [] {
      assert s[1..] == tail[0] + Slashed(tail[1..]);
      SplitSlashed(tail[0], tail[1..]);
      assert [tail[0]] + tail[1..] == tail;
    }
  }

  lemma SplitRendered(segments: Key)
    requires SlashFree(segments)
    ensures Split(Slashed(segments)) == [""] + segments
  {
    assert "" + Slashed(segments) == Slashed(segments);
    SplitSlashed("", segments);
  }

  lemma {:induction false} SlashedSnoc(front: Key, last: string)
    ensures Slashed(front + [last]) == Slashed(front) + "/" + last
  {
    if front == [] {
      assert (front + [last])[1..] == [];
    } else {
      assert (front + [last])[1..] == front[1..] + [last];
      SlashedSnoc(front[1..], last);
    }
  }

  lemma {:induction false} TrimEndAfter(a: string, b: string)
    requires a != "" && !IsSpace(a[|a| - 1])
    ensures TrimEnd(a + b) == a + TrimEnd(b)
  {
    if EndsInSpace(b) {
      assert (a + b)[..|a + b| - 1] == a + b[..|b| - 1];
      TrimEndAfter(a, b[..|b| - 1]);
    } else if b == "" {
      assert a + b == a;
    }
  }

  lemma {:induction false} RSplitAtLastSlash(parent: string, child: string)
    requires '/' !in child
    ensures RSplitOnce(parent + "/" + child) == Some((parent, child))
  {
    var s := parent + "/" + child;
    if child == "" {
      assert s[..|s| - 1] == parent;
    } else {
      assert s[..|s| - 1] == parent + "/" + child[..|child| - 1];
      RSplitAtLastSlash(parent, child[..|child| - 1]);
      assert child[..|child| - 1] + [child[|child| - 1]] == child;
    }
  }

  lemma {:induction false} KeepConcat(a: Key, b: Key)
    ensures Keep(a + b) == Keep(a) + Keep(b)
  {
    if a == [] {
      assert a + b == b;
    } else {
      assert (a + b)[1..] == a[1..] + b;
      KeepConcat(a[1..], b);
    }
  }

  lemma {:induction false} KeepClean(segments: Key)
    requires Clean(segments)
    ensures Keep(segments) == segments
  {
    if segments != [] {
      KeepClean(segments[1..]);
    }
  }

  lemma SlashedIsPlain(segments: Key)
    requires segments != []
    ensures Slashed(segments) != "" && Slashed(segments)[0] == '/'
  {
  }

  /** Canonical strings name segment lists uniquely. */
  lemma RenderInjective(a: Key, b: Key)
    requires Clean(a) && Clean(b)
    ensures Render(a) == Render(b) ==> a == b
  {
    SplitRendered(a);
    SplitRendered(b);
    if a != [] { assert |Slashed(a)| >= 2; }
    if b != [] { assert |Slashed(b)| >= 2; }
    if a != [] && b != [] && Render(a) == Render(b) {
      assert a == ([""] + a)[1..] == ([""] + b)[1..] == b;
    }
  }

  // ------------------------------------------------------------------
  // What reading a rendered path back yields
  // ------------------------------------------------------------------

  /** Reading a rendered path loses exactly the whitespace at the end of its last
      segment, and that segment altogether when nothing nameable is left of it. */
  function Reread(segments: Key): (r: Key)
    requires Clean(segments)
    ensures Clean(r)
  {
    if segments == [] then [] else Init(segments) + Keep([TrimEnd(Last(segments))])
  }

  lemma TrimOfRender(segments: Key, name: string)
    ensures Trim(Render(segments + [name])) == Slashed(segments + [TrimEnd(name)])
  {
    SlashedSnoc(segments, name);
    SlashedIsPlain(segments + [name]);
    TrimEndAfter(Slashed(segments) + "/", name);
    SlashedSnoc(segments, TrimEnd(name));
  }

  lemma KeptOfRender(segments: Key, name: string)
    requires Clean(segments) && '/' !in name
    ensures Kept(Render(segments + [name])) == segments + Keep([TrimEnd(name)])
  {
    TrimOfRender(segments, name);
    SplitRendered(segments + [TrimEnd(name)]);
    KeepConcat([""], segments + [TrimEnd(name)]);
    KeepConcat(segments, [TrimEnd(name)]);
    KeepClean(segments);
  }

  lemma KeptRender(segments: Key)
    requires Clean(segments)
    ensures Kept(Render(segments)) == Reread(segments)
  {
    if segments == [] {
      assert Split("/") == ["", ""] by { SplitSlashed("", [""]); }
    } else {
      assert segments == Init(segments) + [Last(segments)];
      KeptOfRender(Init(segments), Last(segments));
    }
  }

  lemma RereadFixed(segments: Key)
    requires Clean(segments)
    ensures Reread(segments) == segments <==> segments == [] || !EndsInSpace(Last(segments))
    ensures |Reread(segments)| <= |segments|
  {
    if segments != [] {
      assert segments == Init(segments) + [Last(segments)];
      var trimmed := TrimEnd(Last(segments));
      if Reread(segments) == segments {
        assert Keep([trimmed]) == [Last(segments)];
      }
    }
  }

  /** Canonicalising twice changes nothing exactly when the last kept segment does
      not end in whitespace: trimming happens before the segments are picked. */
  lemma NormalizeIdempotent(path: string)
    ensures NormalizeRemotePath(NormalizeRemotePath(path)) == NormalizeRemotePath(path)
       <==> Kept(path) == [] || !EndsInSpace(Last(Kept(path)))
  {
    KeptRender(Kept(path));
    RereadFixed(Kept(path));
    RenderInjective(Reread(Kept(path)), Kept(path));
  }

  /** For every name that ends in whitespace, a path on which the second pass does
      change the result. */
  lemma NormalizeNotIdempotent(name: string)
    requires !Dropped(name) && '/' !in name && EndsInSpace(name)
    ensures NormalizeRemotePath("/" + name + "/") == "/" + name
    ensures NormalizeRemotePath("/" + name) != "/" + name
  {
    OneSegment(name);
    OneSegmentMore(name);
    KeptOfRender([name], "");
    assert [name] + Keep([TrimEnd("")]) == [name];
    KeptOfRender([], name);
    assert [] + [name] == [name];
    RereadFixed([name]);
    RenderInjective([] + Keep([TrimEnd(name)]), [name]);
  }

  lemma OneSegment(name: string)
    ensures Render([name]) == "/" + name
  {
    assert Slashed([name]) == "/" + name + Slashed([]) == "/" + name by { assert [name][1..] == []; }
  }

  lemma OneSegmentMore(name: string)
    ensures Render([name] + [""]) == "/" + name + "/"
  {
    SlashedSnoc([name], "");
    OneSegment(name);
  }

  lemma ParentAndChild(path: string)
    ensures Kept(path) != [] ==>
              RemoteParentPath(path) == Render(Init(Kept(path))) && RemoteChildName(path) == Last(Kept(path))
    ensures Kept(path) == [] ==> RemoteParentPath(path) == "/" && RemoteChildName(path) == ""
  {
    var k := Kept(path);
    if k == [] {
      RSplitAtLastSlash("", "");
      assert "" + "/" + "" == "/";
    } else {
      assert k == Init(k) + [Last(k)];
      SlashedSnoc(Init(k), Last(k));
      RSplitAtLastSlash(Slashed(Init(k)), Last(k));
      if Init(k) != [] { SlashedIsPlain(Init(k)); }
    }
  }

  lemma JoinRenders(parent: string, name: string)
    ensures JoinRemotePath(parent, name) == Render(Kept(parent) + [name])
  {
    var k := Kept(parent);
    SlashedSnoc(k, name);
    if k == [] {
      assert k + [name] == [name];
    } else {
      assert Slashed(k) != "/" by { assert |k[0]| >= 1; }
    }
  }

  /** The segments of a joined path: the name arrives trimmed at its end, or is
      dropped altogether. */
  lemma KeptJoin(parent: string, name: string)
    requires '/' !in name
    ensures Kept(JoinRemotePath(parent, name)) == Kept(parent) + Keep([TrimEnd(name)])
  {
    JoinRenders(parent, name);
    KeptOfRender(Kept(parent), name);
  }

  /** Segments of the path rebuilt from parent and child. */
  function Rejoined(segments: Key): (r: Key)
    requires Clean(segments)
    ensures Reread(segments) != [] ==> Clean(r)
  {
    var k := Reread(segments);
    if k == [] then [""] else Reread(Init(k)) + [Last(k)]
  }

  lemma JoinIsRejoined(segments: Key)
    requires Clean(segments)
    ensures
      var p := Render(segments);
      JoinRemotePath(RemoteParentPath(p), RemoteChildName(p)) == Render(Rejoined(segments))
  {
    var p := Render(segments);
    var k := Reread(segments);
    KeptRender(segments);
    ParentAndChild(p);
    JoinRenders(RemoteParentPath(p), RemoteChildName(p));
    KeptRender(if k == [] then [] else Init(k));
    if k == [] {
      assert Reread([]) + [""] == [""];
    }
  }

  predicate TidyEnd(segments: Key) {
    segments == [] || !EndsInSpace(Last(segments))
  }

  lemma RejoinedTidy(segments: Key)
    requires Clean(segments) && segments != [] && TidyEnd(segments)
    ensures Rejoined(segments) == segments <==> TidyEnd(Init(segments))
  {
    RereadFixed(segments);
    RereadFixed(Init(segments));
    assert segments == Init(segments) + [Last(segments)];
    assert Init(Rejoined(segments)) == Reread(Init(segments));
  }

  lemma RejoinedUntidy(segments: Key)
    requires Clean(segments) && segments != [] && !TidyEnd(segments)
    ensures Rejoined(segments) != segments
  {
    var kept := Keep([TrimEnd(Last(segments))]);
    var k := Reread(segments);
    assert k == Init(segments) + kept;
    if kept == [] {
      if k != [] { RereadFixed(Init(k)); }
    } else {
      assert Last(k) == kept[0] == TrimEnd(Last(segments));
      assert Last(Rejoined(segments)) == Last(k);
    }
  }

  /** Splitting a canonical path into parent and child and joining them again gives
      the path back exactly when neither of its last two segments ends in whitespace. */
  lemma JoinParentChild(segments: Key)
    requires Clean(segments) && segments != []
    ensures
      var p := Render(segments);
      (JoinRemotePath(RemoteParentPath(p), RemoteChildName(p)) == p) ==
      (TidyEnd(segments) && TidyEnd(Init(segments)))
  {
    JoinIsRejoined(segments);
    if TidyEnd(segments) { RejoinedTidy(segments); } else { RejoinedUntidy(segments); }
    if Reread(segments) != [] {
      RenderInjective(Rejoined(segments), segments);
    } else {
      assert Slashed([""]) == "/" by { assert [""][1..] == []; }
      assert |Slashed(segments)| >= 2;
    }
  }

  lemma {:induction false} TrimSlashesOfSlashed(segments: Key)
    requires Clean(segments)
    ensures ParseKey(TrimSlashes(Render(segments))) == segments
  {
    if segments != [] {
      var s := Slashed(segments);
      var body := segments[0] + Slashed(segments[1..]);
      assert s[1..] == body;
      assert body[0] == segments[0][0] && segments[0][0] in segments[0];
      assert TrimSlashes(s) == body;
      SplitSlashed(segments[0], segments[1..]);
    } else {
      assert TrimSlashes("/") == "" by { assert "/"[1..] == ""; }
    }
  }

  lemma KeySegments(path: string)
    ensures ParseKey(ObjectKey(path)) == Kept(path)
    ensures ObjectKey(path) == "" <==> Kept(path) == []
  {
    TrimSlashesOfSlashed(Kept(path));
    if ObjectKey(path) != "" {
      assert |Split(ObjectKey(path))| >= 1;
    }
  }

  // ------------------------------------------------------------------
  // Renaming
  // ------------------------------------------------------------------

  /** What `rename_cloud_storage_path` decides before it touches the store. */
  datatype RenamePlan = Reject | Unchanged | Move(from: Key, to: Key)

  function PlanRename(path: string, newName: string): RenamePlan {
    match ValidateRemoteChildName(newName)
    case None => Reject
    case Some(name) =>
      var from := NormalizeRemotePath(path);
      if from == "/" then Reject
      else
        var to := JoinRemotePath(RemoteParentPath(from), name);
        if to == from then Unchanged
        else if ObjectKey(from) == "" || ObjectKey(to) == "" then Reject
        else
          var f, t := ParseKey(ObjectKey(from)), ParseKey(ObjectKey(to));
          if f == t then Unchanged else Move(f, t)
  }

  /** Neither key is, or lies below, the other. */
  predicate Apart(a: Key, b: Key) {
    !(a <= b) && !(b <= a)
  }

  /** The two keys in terms of the segments of the path being renamed. */
  lemma RenameTargetSegments(path: string, name: string)
    requires Trim(name) == name && !Dropped(name) && '/' !in name
    requires Kept(path) != []
    ensures Kept(JoinRemotePath(RemoteParentPath(path), name)) == Reread(Init(Kept(path))) + [name]
  {
    ParentAndChild(path);
    KeptRender(Init(Kept(path)));
    KeptJoin(RemoteParentPath(path), name);
    assert TrimEnd(name) == name by { TrimShrinks(name); }
  }

  lemma {:induction false} TrimShrinks(s: string)
    ensures |TrimStart(s)| <= |s| && (TrimStart(s) == s || |TrimStart(s)| < |s|)
    ensures Trim(s) == s ==> TrimEnd(s) == s
    ensures Trim(Trim(s)) == Trim(s)
  {
    if s != "" && IsSpace(s[0]) {
      TrimShrinks(s[1..]);
    } else if Trim(s) != "" {
      assert Trim(s)[0] == s[0];
    }
  }

  /** Whatever strings the user supplies, the rename target never overlaps the source. */
  lemma RenameTargetApart(path: string, newName: string)
    ensures PlanRename(path, newName).Move? ==>
              var Move(from, to) := PlanRename(path, newName);
              Clean(from) && Clean(to) && from != [] && to != [] && Apart(from, to)
  {
    if PlanRename(path, newName).Move? {
      var name := ValidateRemoteChildName(newName).value;
      var from := NormalizeRemotePath(path);
      KeySegments(from);
      KeySegments(JoinRemotePath(RemoteParentPath(from), name));
      assert Trim(name) == name by { TrimShrinks(newName); }
      RenameTargetSegments(from, name);
      ApartAtTheName(Kept(from), name);
    }
  }

  lemma ApartAtTheName(from: Key, name: string)
    requires Clean(from) && from != [] && !EndsInSpace(name)
    requires from != Reread(Init(from)) + [name]
    ensures Apart(from, Reread(Init(from)) + [name])
  {
    var parent := Init(from);
    var to := Reread(parent) + [name];
    RereadFixed(parent);
    if Reread(parent) != parent {
      var i := |parent| - 1;
      assert from[i] == Last(parent);
      assert to[i] == name || to[i] == TrimEnd(Last(parent));
      assert from[i] != to[i];
    } else {
      assert |from| == |to|;
    }
  }
}
