/** Codex quota windows: picking them out of a provider's JSON, and redacting that JSON
    before it is cached. Numbers are reals and integers without rounding. */
module CodexQuota {
  import opened Basics

  datatype Json =
    | Null
    | Bool(flag: bool)
    | Int(number: int)
    | Float(value: real)
    | Str(text: string)
    | Arr(items: seq<Json>)
    | Obj(fields: map<string, Json>)

  datatype Window = Window(usedPercent: Option<real>, resetsAt: Option<string>)

  datatype Snapshot = Snapshot(fiveHour: Window, weekly: Window)

  const UNKNOWN := Window(None, None)

  /** How Unix seconds are written as a timestamp, where they can be. */
  type Format = int -> Option<string>

  // ------------------------------------------------------------------
  // Reading JSON
  // ------------------------------------------------------------------

  function Get(v: Json, key: string): Option<Json> {
    if v.Obj? then Lookup(v.fields, key) else None
  }

  function AsReal(v: Json): Option<real> {
    match v
    case Int(n) => Some(n as real)
    case Float(r) => Some(r)
    case _ => None
  }

  /** A field that is there and not null. */
  function NonNull(v: Json, key: string): Option<Json> {
    if Get(v, key) == Some(Null) then None else Get(v, key)
  }

  const MINUTE_KEYS: seq<(string, real)> :=
    [("windowDurationMins", 1.0), ("window_minutes", 1.0), ("durationMinutes", 1.0), ("limit_window_seconds", 60.0)]

  datatype Minutes = Malformed | Undeclared | Declared(minutes: real)

  function MinutesFrom(v: Json, keys: seq<(string, real)>): Minutes
    requires forall k :: k in keys ==> k.1 > 0.0
    decreases |keys|
  {
    if keys == [] then Undeclared
    else
      match NonNull(v, keys[0].0)
      case None => MinutesFrom(v, keys[1..])
      case Some(field) =>
        match AsReal(field)
        case None => Malformed
        case Some(r) => if r / keys[0].1 > 0.0 then Declared(r / keys[0].1) else Malformed
  }

  /** `quota_window_minutes`. */
  function QuotaWindowMinutes(v: Json): Minutes {
    if v.Obj? then MinutesFrom(v, MINUTE_KEYS) else Malformed
  }

  predicate NamesCodex(bucket: Json, key: string) {
    match NonNull(bucket, key) case None => true case Some(id) => id == Str("codex")
  }

  function CheckedBucket(bucket: Json): Option<Json> {
    if bucket.Obj? && NamesCodex(bucket, "limitId") && NamesCodex(bucket, "limit_id") then Some(bucket) else None
  }

  function CodexBucket(buckets: Json): Option<Json> {
    match Get(buckets, "codex") case None => None case Some(b) => CheckedBucket(b)
  }

  function RootBucket(root: Json): Option<Json> {
    var byId := Get(root, "rateLimitsByLimitId");
    if byId.Some? && byId.value.Obj? then
      CodexBucket(byId.value)
    else if Get(root, "rateLimits").Some? then CheckedBucket(Get(root, "rateLimits").value)
    else if Get(root, "rate_limit").Some? then CheckedBucket(Get(root, "rate_limit").value)
    else if Get(root, "limits").Some? && Get(root, "limits").value.Arr? then Get(root, "limits")
    else if Get(root, "primary").Some? || Get(root, "secondary").Some? then CheckedBucket(root)
    else None
  }

  /** `codex_quota_bucket`. */
  function QuotaBucket(v: Json): Option<Json> {
    RootBucket(match Get(v, "result") case Some(r) => r case None => v)
  }

  type Candidate = (string, Json)

  function Named(bucket: Json, names: seq<string>): seq<Candidate> {
    if names == [] then []
    else
      (match Get(bucket, names[0]) case Some(w) => [(names[0], w)] case None => []) + Named(bucket, names[1..])
  }

  const WINDOW_NAMES := ["primary", "primary_window", "secondary", "secondary_window"]

  function Candidates(bucket: Json): seq<Candidate> {
    if bucket.Arr? then seq(|bucket.items|, i requires 0 <= i < |bucket.items| => ("", bucket.items[i]))
    else Named(bucket, WINDOW_NAMES)
  }

  /** The first candidate that passes. */
  function First(candidates: seq<Candidate>, passes: Candidate -> bool): (r: Option<nat>)
    ensures r.Some? ==> r.value < |candidates| && passes(candidates[r.value])
    ensures r.Some? ==> forall i :: 0 <= i < r.value ==> !passes(candidates[i])
    ensures r.None? ==> forall i :: 0 <= i < |candidates| ==> !passes(candidates[i])
  {
    if candidates == [] then None
    else if passes(candidates[0]) then Some(0)
    else
      match First(candidates[1..], passes)
      case Some(i) =>
        assert forall k :: 1 <= k < |candidates| ==> candidates[k] == candidates[1..][k - 1];
        Some(i + 1)
      case None =>
        assert forall k :: 1 <= k < |candidates| ==> candidates[k] == candidates[1..][k - 1];
        None
  }

  function Declares(minutes: real): Candidate -> bool {
    (c: Candidate) => QuotaWindowMinutes(c.1) == Declared(minutes)
  }

  function IsLegacy(names: seq<string>): Candidate -> bool {
    (c: Candidate) => c.0 in names && QuotaWindowMinutes(c.1) == Undeclared
  }

  /** Which candidate fills a slot: one that declares the slot's length, else one that
      declares none under a legacy name. */
  function Pick(candidates: seq<Candidate>, minutes: real, legacy: seq<string>): Option<nat> {
    match First(candidates, Declares(minutes))
    case Some(i) => Some(i)
    case None => First(candidates, IsLegacy(legacy))
  }

  function FirstNumber(v: Json, keys: seq<string>): Option<real> {
    if keys == [] then None
    else
      match Get(v, keys[0])
      case Some(n) => if AsReal(n).Some? then AsReal(n) else FirstNumber(v, keys[1..])
      case None => FirstNumber(v, keys[1..])
  }

  function Clamped(r: real): (c: real)
    ensures 0.0 <= c <= 100.0 && (0.0 <= r <= 100.0 ==> c == r)
  {
    if r < 0.0 then 0.0 else if r > 100.0 then 100.0 else r
  }

  /** `timestamp_to_rfc3339`: a text as it is, or 64-bit seconds written out. */
  function Timestamp(v: Json, format: Format): Option<string> {
    match v
    case Str(t) => Some(t)
    case Int(n) => if -0x8000_0000_0000_0000 <= n < 0x8000_0000_0000_0000 then format(n) else None
    case _ => None
  }

  function FirstTimestamp(v: Json, keys: seq<string>, format: Format): Option<string> {
    if keys == [] then None
    else
      var t := match Get(v, keys[0]) case Some(x) => Timestamp(x, format) case None => None;
      if t.Some? then t else FirstTimestamp(v, keys[1..], format)
  }

  const PERCENT_KEYS := ["usedPercent", "used_percent", "used_percentage", "usage_percent", "percentUsed"]
  const RESET_KEYS := ["resetsAt", "resets_at", "reset_at"]

  function ReadWindow(v: Json, format: Format): Window {
    if !v.Obj? then UNKNOWN
    else
      Window(match FirstNumber(v, PERCENT_KEYS) case Some(r) => Some(Clamped(r)) case None => None,
             FirstTimestamp(v, RESET_KEYS, format))
  }

  const FIVE_HOURS := 300.0
  const WEEK := 10080.0
  const PRIMARY := ["primary", "primary_window"]
  const SECONDARY := ["secondary", "secondary_window"]

  function Slot(candidates: seq<Candidate>, minutes: real, legacy: seq<string>, format: Format): Window {
    match Pick(candidates, minutes, legacy)
    case Some(i) => ReadWindow(candidates[i].1, format)
    case None => UNKNOWN
  }

  /** `normalize_codex_rate_limits`. */
  function Normalize(v: Json, format: Format): Snapshot {
    match QuotaBucket(v)
    case None => Snapshot(UNKNOWN, UNKNOWN)
    case Some(bucket) =>
      var candidates := Candidates(bucket);
      Snapshot(Slot(candidates, FIVE_HOURS, PRIMARY, format), Slot(candidates, WEEK, SECONDARY, format))
  }

  // ------------------------------------------------------------------
  // Redaction
  // ------------------------------------------------------------------

  function NormalChar(c: char): char {
    if 'A' <= c <= 'Z' then (c as int + 32) as char
    else if c == '-' || c == ' ' then '_'
    else c
  }

  function NormalKey(key: string): (r: string)
    ensures |r| == |key| && forall i :: 0 <= i < |r| ==> r[i] == NormalChar(key[i])
  {
    seq(|key|, i requires 0 <= i < |key| => NormalChar(key[i]))
  }

  predicate Contains(s: string, part: string) {
    part <= s || (s != [] && Contains(s[1..], part))
  }

  predicate EndsWith(s: string, part: string) {
    |part| <= |s| && s[|s| - |part|..] == part
  }

  /** `provider_json_key_is_sensitive`. */
  predicate Sensitive(key: string) {
    var k := NormalKey(key);
    || k == "token"
    || EndsWith(k, "_token")
    || Contains(k, "access_token")
    || Contains(k, "accesstoken")
    || Contains(k, "refresh_token")
    || Contains(k, "refreshtoken")
    || Contains(k, "api_key")
    || Contains(k, "apikey")
    || Contains(k, "secret")
    || Contains(k, "password")
    || Contains(k, "authorization")
  }

  const REDACTED := Str("[REDACTED]")

  /** `scrub_sensitive_provider_json`. */
  function Scrub(v: Json): Json {
    match v
    case Obj(fields) => Obj(map k | k in fields :: if Sensitive(k) then REDACTED else Scrub(fields[k]))
    case Arr(items) => Arr(seq(|items|, i requires 0 <= i < |items| => Scrub(items[i])))
    case _ => v
  }

  /** No sensitive field keeps its value, at any depth. */
  predicate IsRedacted(v: Json) {
    match v
    case Obj(fields) => forall k :: k in fields ==> if Sensitive(k) then fields[k] == REDACTED else IsRedacted(fields[k])
    case Arr(items) => forall i :: 0 <= i < |items| ==> IsRedacted(items[i])
    case _ => true
  }

  /** Redaction leaves no sensitive value anywhere, and alters only values that are
      sensitive: a redacted value, and no other, stays as it is. */
  lemma {:induction false} ScrubRedacts(v: Json)
    ensures IsRedacted(Scrub(v))
    ensures Scrub(v) == v <==> IsRedacted(v)
  {
    match v
    case Obj(fields) =>
      var s := Scrub(v).fields;
      forall k | k in fields ensures IsRedacted(Scrub(fields[k])) && (Scrub(fields[k]) == fields[k] <==> IsRedacted(fields[k])) {
        ScrubRedacts(fields[k]);
      }
      assert s == fields <==> forall k :: k in fields ==> s[k] == fields[k];
    case Arr(items) =>
      var s := Scrub(v).items;
      forall i | 0 <= i < |items| ensures IsRedacted(Scrub(items[i])) && (Scrub(items[i]) == items[i] <==> IsRedacted(items[i])) {
        ScrubRedacts(items[i]);
      }
      assert s == items <==> forall i :: 0 <= i < |items| ==> s[i] == items[i];
    case _ =>
  }

  lemma {:induction false} ScrubIdempotent(v: Json)
    ensures Scrub(Scrub(v)) == Scrub(v)
  {
    ScrubRedacts(v);
    ScrubRedacts(Scrub(v));
  }

  // ------------------------------------------------------------------
  // The keys that are read are not sensitive
  // ------------------------------------------------------------------

  /** A pattern found in a string brings its neighbouring characters along. */
  lemma {:induction false} ContainsPart(s: string, part: string) returns (at: nat)
    requires Contains(s, part)
    ensures at + |part| <= |s| && forall i :: 0 <= i < |part| ==> s[at + i] == part[i]
  {
    if part <= s {
      at := 0;
    } else {
      at := ContainsPart(s[1..], part);
      at := at + 1;
    }
  }

  /** Every sensitive pattern has a k, a z, a c before an r, or an s before an s. */
  predicate Plain(key: string) {
    && (forall c :: c in key ==> c != 'k' && c != 'K' && c != 'z' && c != 'Z')
    && (forall i :: 0 < i < |key| ==>
          && ((key[i] != 'r' && key[i] != 'R') || (key[i - 1] != 'c' && key[i - 1] != 'C'))
          && ((key[i] != 's' && key[i] != 'S') || (key[i - 1] != 's' && key[i - 1] != 'S')))
  }

  lemma PlainNormal(key: string)
    requires Plain(key)
    ensures Plain(NormalKey(key))
  {
    var k := NormalKey(key);
    forall c | c in k ensures c != 'k' && c != 'K' && c != 'z' && c != 'Z' {
      var i :| 0 <= i < |k| && k[i] == c;
      assert key[i] in key;
    }
  }

  predicate Tells(part: string, j: nat) {
    && j < |part|
    && (part[j] == 'k' || part[j] == 'z' ||
        (j > 0 && ((part[j - 1] == 'c' && part[j] == 'r') || (part[j - 1] == 's' && part[j] == 's'))))
  }

  lemma TellingPart(k: string, part: string, j: nat)
    requires Tells(part, j) && Contains(k, part)
    ensures !Plain(k)
  {
    var at := ContainsPart(k, part);
    var m := at + j;
    assert k[m] == part[j] && k[m] in k;
    if j > 0 {
      var i := j - 1;
      assert k[at + i] == part[i];
      assert k[m - 1] == part[j - 1];
    }
  }

  lemma PlainLacks(k: string, part: string, j: nat)
    requires Plain(k) && Tells(part, j)
    ensures !Contains(k, part)
  {
    if Contains(k, part) { TellingPart(k, part, j); }
  }

  lemma LacksTokens(k: string)
    requires Plain(k)
    ensures !Contains(k, "access_token") && !Contains(k, "accesstoken")
    ensures !Contains(k, "refresh_token") && !Contains(k, "refreshtoken")
  {
    PlainLacks(k, "access_token", 9);
    PlainLacks(k, "accesstoken", 8);
    PlainLacks(k, "refresh_token", 10);
    PlainLacks(k, "refreshtoken", 9);
  }

  lemma LacksSecrets(k: string)
    requires Plain(k)
    ensures !Contains(k, "api_key") && !Contains(k, "apikey") && !Contains(k, "secret")
    ensures !Contains(k, "password") && !Contains(k, "authorization")
  {
    PlainLacks(k, "api_key", 4);
    PlainLacks(k, "apikey", 3);
    PlainLacks(k, "secret", 3);
    PlainLacks(k, "password", 3);
    PlainLacks(k, "authorization", 7);
  }

  lemma TokenEndHasK(k: string)
    requires k == "token" || EndsWith(k, "_token")
    ensures 'k' in k
  {
    if k == "token" {
      assert k[2] == 'k';
    } else {
      assert k[|k| - 6..][3] == k[|k| - 3] == 'k';
    }
  }

  lemma LacksTokenEnd(k: string)
    requires Plain(k)
    ensures k != "token" && !EndsWith(k, "_token")
  {
    if k == "token" || EndsWith(k, "_token") { TokenEndHasK(k); }
  }

  lemma PlainIsNotSensitive(key: string)
    requires Plain(key)
    ensures !Sensitive(key)
  {
    PlainNormal(key);
    LacksTokenEnd(NormalKey(key));
    LacksTokens(NormalKey(key));
    LacksSecrets(NormalKey(key));
  }

  lemma BucketKeysPlain()
    ensures Plain("result") && Plain("codex") && Plain("limits") && Plain("source")
  {
  }

  lemma LimitKeysPlain()
    ensures Plain("rateLimits") && Plain("rate_limit") && Plain("limitId") && Plain("limit_id")
  {
  }

  lemma LimitsByIdPlain()
    ensures Plain("rateLimitsByLimitId")
  {
  }

  lemma PrimaryPlain()
    ensures Plain("primary") && Plain("primary_window")
  {
  }

  lemma SecondaryPlain()
    ensures Plain("secondary") && Plain("secondary_window")
  {
  }

  lemma PercentKeysPlain()
    ensures Plain("usedPercent") && Plain("used_percent") && Plain("percentUsed")
  {
  }

  lemma PercentageKeysPlain()
    ensures Plain("used_percentage") && Plain("usage_percent")
  {
  }

  lemma ResetKeysPlain()
    ensures Plain("resetsAt") && Plain("resets_at") && Plain("reset_at")
  {
  }

  lemma MinuteKeysPlain()
    ensures Plain("windowDurationMins") && Plain("window_minutes")
  {
  }

  lemma DurationKeysPlain()
    ensures Plain("durationMinutes") && Plain("limit_window_seconds")
  {
  }

  // ------------------------------------------------------------------
  // Reading a redacted value is redacting what is read
  // ------------------------------------------------------------------

  function ScrubOption(v: Option<Json>): Option<Json> {
    match v case Some(x) => Some(Scrub(x)) case None => None
  }

  function ScrubCandidate(c: Candidate): Candidate {
    (c.0, Scrub(c.1))
  }

  function ScrubCandidates(cs: seq<Candidate>): (r: seq<Candidate>)
    ensures |r| == |cs| && forall i :: 0 <= i < |r| ==> r[i] == ScrubCandidate(cs[i])
  {
    seq(|cs|, i requires 0 <= i < |cs| => ScrubCandidate(cs[i]))
  }

  lemma GetScrubbed(v: Json, key: string)
    requires Plain(key)
    ensures Get(Scrub(v), key) == ScrubOption(Get(v, key))
    ensures NonNull(Scrub(v), key) == ScrubOption(NonNull(v, key))
  {
    PlainIsNotSensitive(key);
  }

  lemma {:induction false} MinutesScrubbed(v: Json, keys: seq<(string, real)>)
    requires forall k :: k in keys ==> k.1 > 0.0 && Plain(k.0)
    ensures MinutesFrom(Scrub(v), keys) == MinutesFrom(v, keys)
    decreases |keys|
  {
    if keys != [] {
      GetScrubbed(v, keys[0].0);
      MinutesScrubbed(v, keys[1..]);
    }
  }

  lemma WindowMinutesScrubbed(v: Json)
    ensures QuotaWindowMinutes(Scrub(v)) == QuotaWindowMinutes(v)
  {
    MinuteKeysPlain();
    DurationKeysPlain();
    MinutesScrubbed(v, MINUTE_KEYS);
  }

  lemma {:induction false} NumberScrubbed(v: Json, keys: seq<string>)
    requires forall k :: k in keys ==> Plain(k)
    ensures FirstNumber(Scrub(v), keys) == FirstNumber(v, keys)
  {
    if keys != [] {
      GetScrubbed(v, keys[0]);
      NumberScrubbed(v, keys[1..]);
    }
  }

  lemma {:induction false} TimestampScrubbed(v: Json, keys: seq<string>, format: Format)
    requires forall k :: k in keys ==> Plain(k)
    ensures FirstTimestamp(Scrub(v), keys, format) == FirstTimestamp(v, keys, format)
  {
    if keys != [] {
      GetScrubbed(v, keys[0]);
      TimestampScrubbed(v, keys[1..], format);
    }
  }

  lemma WindowScrubbed(v: Json, format: Format)
    ensures ReadWindow(Scrub(v), format) == ReadWindow(v, format)
  {
    PercentKeysPlain();
    PercentageKeysPlain();
    ResetKeysPlain();
    NumberScrubbed(v, PERCENT_KEYS);
    TimestampScrubbed(v, RESET_KEYS, format);
  }

  lemma CheckedScrubbed(b: Json)
    ensures CheckedBucket(Scrub(b)) == ScrubOption(CheckedBucket(b))
  {
    LimitKeysPlain();
    GetScrubbed(b, "limitId");
    GetScrubbed(b, "limit_id");
  }

  predicate ReadsAlike(v: Json, key: string) {
    Get(Scrub(v), key) == ScrubOption(Get(v, key))
  }

  lemma RootGets(root: Json)
    ensures ReadsAlike(root, "rateLimitsByLimitId") && ReadsAlike(root, "rateLimits") && ReadsAlike(root, "rate_limit")
    ensures ReadsAlike(root, "limits") && ReadsAlike(root, "primary") && ReadsAlike(root, "secondary")
  {
    BucketKeysPlain();
    LimitKeysPlain();
    LimitsByIdPlain();
    PrimaryPlain();
    SecondaryPlain();
    GetScrubbed(root, "rateLimitsByLimitId");
    GetScrubbed(root, "rateLimits");
    GetScrubbed(root, "rate_limit");
    GetScrubbed(root, "limits");
    GetScrubbed(root, "primary");
    GetScrubbed(root, "secondary");
  }

  lemma CodexScrubbed(buckets: Json)
    ensures CodexBucket(Scrub(buckets)) == ScrubOption(CodexBucket(buckets))
  {
    BucketKeysPlain();
    GetScrubbed(buckets, "codex");
    if Get(buckets, "codex").Some? { CheckedScrubbed(Get(buckets, "codex").value); }
  }

  lemma ScrubKeepsKind(v: Json)
    ensures Scrub(v).Obj? == v.Obj? && Scrub(v).Arr? == v.Arr?
  {
  }

  lemma RootScrubbed(root: Json)
    ensures RootBucket(Scrub(root)) == ScrubOption(RootBucket(root))
  {
    RootGets(root);
    var byId, plural, single := Get(root, "rateLimitsByLimitId"), Get(root, "rateLimits"), Get(root, "rate_limit");
    if byId.Some? { ScrubKeepsKind(byId.value); }
    if byId.Some? && byId.value.Obj? {
      CodexScrubbed(byId.value);
    } else if plural.Some? {
      CheckedScrubbed(plural.value);
    } else if single.Some? {
      CheckedScrubbed(single.value);
    } else {
      if Get(root, "limits").Some? { ScrubKeepsKind(Get(root, "limits").value); }
      CheckedScrubbed(root);
    }
  }

  lemma BucketScrubbed(v: Json)
    ensures QuotaBucket(Scrub(v)) == ScrubOption(QuotaBucket(v))
  {
    BucketKeysPlain();
    GetScrubbed(v, "result");
    RootScrubbed(v);
    if Get(v, "result").Some? { RootScrubbed(Get(v, "result").value); }
  }

  lemma {:induction false} NamedScrubbed(bucket: Json, names: seq<string>)
    requires forall k :: k in names ==> Plain(k)
    ensures Named(Scrub(bucket), names) == ScrubCandidates(Named(bucket, names))
  {
    if names != [] {
      GetScrubbed(bucket, names[0]);
      NamedScrubbed(bucket, names[1..]);
    }
  }

  lemma CandidatesScrubbed(bucket: Json)
    ensures Candidates(Scrub(bucket)) == ScrubCandidates(Candidates(bucket))
  {
    if !bucket.Arr? {
      PrimaryPlain();
      SecondaryPlain();
      NamedScrubbed(bucket, WINDOW_NAMES);
    }
  }

  lemma {:induction false} FirstScrubbed(cs: seq<Candidate>, passes: Candidate -> bool)
    requires forall c :: passes(ScrubCandidate(c)) == passes(c)
    ensures First(ScrubCandidates(cs), passes) == First(cs, passes)
  {
    if cs != [] {
      assert ScrubCandidates(cs)[1..] == ScrubCandidates(cs[1..]);
      FirstScrubbed(cs[1..], passes);
    }
  }

  lemma SlotScrubbed(cs: seq<Candidate>, minutes: real, legacy: seq<string>, format: Format)
    ensures Slot(ScrubCandidates(cs), minutes, legacy, format) == Slot(cs, minutes, legacy, format)
  {
    forall c: Candidate
      ensures Declares(minutes)(ScrubCandidate(c)) == Declares(minutes)(c)
      ensures IsLegacy(legacy)(ScrubCandidate(c)) == IsLegacy(legacy)(c)
    {
      WindowMinutesScrubbed(c.1);
    }
    FirstScrubbed(cs, Declares(minutes));
    FirstScrubbed(cs, IsLegacy(legacy));
    if Pick(cs, minutes, legacy).Some? {
      WindowScrubbed(cs[Pick(cs, minutes, legacy).value].1, format);
    }
  }

  /** The cached form of any JSON value yields the same windows as the value itself. */
  lemma NormalizeScrubbed(v: Json, format: Format)
    ensures Normalize(Scrub(v), format) == Normalize(v, format)
  {
    BucketScrubbed(v);
    if QuotaBucket(v).Some? {
      var bucket := QuotaBucket(v).value;
      CandidatesScrubbed(bucket);
      SlotScrubbed(Candidates(bucket), FIVE_HOURS, PRIMARY, format);
      SlotScrubbed(Candidates(bucket), WEEK, SECONDARY, format);
    }
  }

  // ------------------------------------------------------------------
  // Only base Codex quota
  // ------------------------------------------------------------------

  /** A bucket that carries a limit id carries Codex's: no other quota is ever shown. */
  lemma BucketIsCodex(v: Json)
    ensures QuotaBucket(v).Some? && QuotaBucket(v).value.Obj? ==>
              var bucket := QuotaBucket(v).value;
              Get(bucket, "limitId") in {None, Some(Null), Some(Str("codex"))} &&
              Get(bucket, "limit_id") in {None, Some(Null), Some(Str("codex"))}
  {
  }

  // ------------------------------------------------------------------
  // The two slots
  // ------------------------------------------------------------------

  /** One candidate never fills both slots. */
  lemma SlotsDiffer(candidates: seq<Candidate>)
    ensures
      var five, week := Pick(candidates, FIVE_HOURS, PRIMARY), Pick(candidates, WEEK, SECONDARY);
      five.Some? && week.Some? ==> five.value != week.value
  {
    assert PRIMARY[0] != SECONDARY[0] && PRIMARY[0] != SECONDARY[1] && PRIMARY[1] != SECONDARY[0];
    assert PRIMARY[1][0] != SECONDARY[1][0];
  }

  /** A window that declares another length never fills a slot, and a slot stays unknown
      only when no candidate declares its length and none without a length has its name. */
  lemma SlotIsJustified(candidates: seq<Candidate>, minutes: real, legacy: seq<string>)
    ensures
      match Pick(candidates, minutes, legacy)
      case Some(i) =>
        && i < |candidates|
        && (match QuotaWindowMinutes(candidates[i].1)
           case Declared(m) => m == minutes
           case Undeclared => candidates[i].0 in legacy &&
                              (forall c :: c in candidates ==> QuotaWindowMinutes(c.1) != Declared(minutes))
           case Malformed => false)
      case None =>
        forall c :: c in candidates ==>
          QuotaWindowMinutes(c.1) != Declared(minutes) &&
          (c.0 in legacy ==> QuotaWindowMinutes(c.1) != Undeclared)
  {
    forall c | c in candidates && First(candidates, Declares(minutes)).None?
      ensures QuotaWindowMinutes(c.1) != Declared(minutes)
    {
      assert !Declares(minutes)(c);
    }
    forall c | c in candidates && First(candidates, IsLegacy(legacy)).None?
      ensures !IsLegacy(legacy)(c)
    {
    }
  }
}
