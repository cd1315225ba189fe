/** The two tables behind the usage display: one account row and one quota snapshot row
    per provider, written by refreshes, failed refreshes and disconnects. */
module UsageTables {
  import opened Basics
  import opened CodexQuota

  datatype Provider = Codex | ClaudeCode

  datatype Account = Account(accountLabel: Option<string>, email: Option<string>, plan: Option<string>, authState: string,
                             attemptAt: string, error: Option<string>)

  datatype Row = Row(snapshot: Snapshot, raw: Option<Json>, capturedAt: string)

  datatype Tables = Tables(accounts: map<Provider, Account>, snapshots: map<Provider, Row>)

  /** What a refresh brings back. */
  datatype Update = Update(accountLabel: Option<string>, email: Option<string>, plan: Option<string>, authState: string,
                           snapshot: Option<Snapshot>, raw: Option<Json>, capturedAt: Option<string>,
                           error: Option<string>)

  /** What the display is given. */
  datatype Shown = Shown(authState: string, accountLabel: Option<string>, email: Option<string>, plan: Option<string>,
                         fiveHour: Window, weekly: Window, refreshAt: Option<string>, attemptAt: Option<string>,
                         error: Option<string>)

  /** Timestamps: writing Unix seconds, and reading a text back as seconds. */
  datatype Clock = Clock(format: Format, parse: string -> Option<int>)

  // ------------------------------------------------------------------
  // Saving
  // ------------------------------------------------------------------

  /** `scrub_provider_error`: at most 500 characters, on one line. */
  function OneLine(error: string): (r: string)
    ensures |r| == if |error| < 500 then |error| else 500
    ensures '\n' !in r && '\r' !in r
    ensures forall i :: 0 <= i < |r| ==> r[i] == error[i] || (r[i] == ' ' && error[i] in "\n\r")
  {
    seq(if |error| < 500 then |error| else 500,
        i requires 0 <= i < |error| => if error[i] == '\n' || error[i] == '\r' then ' ' else error[i])
  }

  function AccountOf(u: Update, now: string): Account {
    Account(u.accountLabel, u.email, u.plan, u.authState, now, match u.error case Some(e) => Some(OneLine(e)) case None => None)
  }

  function RowOf(u: Update, now: string): Row
    requires u.snapshot.Some?
  {
    Row(u.snapshot.value, ScrubOption(u.raw), match u.capturedAt case Some(at) => at case None => now)
  }

  function Updated(t: Tables, p: Provider, u: Update, now: string): Tables {
    Tables(t.accounts[p := AccountOf(u, now)],
           if u.snapshot.Some? then t.snapshots[p := RowOf(u, now)] else t.snapshots - {p})
  }

  function FailedAccount(a: Option<Account>, error: string, now: string): Account {
    match a
    case None => Account(None, None, None, "error", now, Some(OneLine(error)))
    case Some(was) =>
      was.(authState := if was.authState == "connected" then was.authState else "error",
           attemptAt := now, error := Some(OneLine(error)))
  }

  function Errored(t: Tables, p: Provider, error: string, now: string): Tables {
    t.(accounts := t.accounts[p := FailedAccount(Lookup(t.accounts, p), error, now)])
  }

  function Disconnected(t: Tables, p: Provider): Tables {
    Tables(t.accounts - {p}, t.snapshots - {p})
  }

  // ------------------------------------------------------------------
  // Loading
  // ------------------------------------------------------------------

  predicate HasReset(w: Window, now: int, clock: Clock) {
    w.resetsAt.Some? && clock.parse(w.resetsAt.value).Some? && clock.parse(w.resetsAt.value).value <= now
  }

  /** A window that has rolled over is unknown; any other is as it was. */
  function Expired(w: Window, now: int, clock: Clock): Window {
    if HasReset(w, now, clock) then UNKNOWN else w
  }

  /** `expire_reset_quota_windows`, in place over the two windows. */
  method ExpireResetQuotaWindows(windows: array<Window>, now: int, clock: Clock)
    modifies windows
    ensures forall i :: 0 <= i < windows.Length ==> windows[i] == Expired(old(windows[i]), now, clock)
  {
    for i := 0 to windows.Length
      invariant forall k :: 0 <= k < i ==> windows[k] == Expired(old(windows[k]), now, clock)
      invariant forall k :: i <= k < windows.Length ==> windows[k] == old(windows[k])
    {
      var w := windows[i];
      if w.resetsAt.Some? && clock.parse(w.resetsAt.value).Some? && clock.parse(w.resetsAt.value).value <= now {
        windows[i] := w.(usedPercent := None).(resetsAt := None);
      }
    }
  }

  predicate FromLocalSessions(raw: Json) {
    Get(raw, "source") == Some(Str("codex_local_sessions"))
  }

  /** The windows of a stored row, before expiry, if it may be shown at all: Codex rows
      are read from the cached JSON again. */
  function Readable(p: Provider, row: Row, clock: Clock): Option<Snapshot> {
    if p.ClaudeCode? then Some(row.snapshot)
    else
      match row.raw
      case None => None
      case Some(raw) => if FromLocalSessions(raw) then None else Some(Normalize(raw, clock.format))
  }

  const NOT_CONNECTED := Shown("disconnected", None, None, None, UNKNOWN, UNKNOWN, None, None, None)

  function Loaded(t: Tables, p: Provider, now: int, clock: Clock): Shown {
    if p !in t.accounts then NOT_CONNECTED
    else
      var a := t.accounts[p];
      var windows := if p in t.snapshots then Readable(p, t.snapshots[p], clock) else None;
      match windows
      case None => Shown(a.authState, a.accountLabel, a.email, a.plan, UNKNOWN, UNKNOWN, None, Some(a.attemptAt), a.error)
      case Some(s) =>
        Shown(a.authState, a.accountLabel, a.email, a.plan, Expired(s.fiveHour, now, clock), Expired(s.weekly, now, clock),
              Some(t.snapshots[p].capturedAt), Some(a.attemptAt), a.error)
  }

  // ------------------------------------------------------------------
  // The database
  // ------------------------------------------------------------------

  class UsageDb {
    var accounts: map<Provider, Account>
    var snapshots: map<Provider, Row>

    constructor ()
      ensures Contents() == EMPTY
    {
      accounts, snapshots := map[], map[];
    }

    function Contents(): Tables
      reads this
    {
      Tables(accounts, snapshots)
    }

    method SaveProviderUpdate(p: Provider, u: Update, now: string)
      modifies this
      ensures Contents() == Updated(old(Contents()), p, u, now)
    {
      var capturedAt := if u.capturedAt.Some? then u.capturedAt.value else now;
      if u.snapshot.None? {
        snapshots := snapshots - {p};
      }
      var lastError: Option<string> := None;
      if u.error.Some? {
        lastError := Some(OneLine(u.error.value));
      }
      accounts := accounts[p := Account(u.accountLabel, u.email, u.plan, u.authState, now, lastError)];
      if u.snapshot.Some? {
        var raw: Option<Json> := None;
        if u.raw.Some? {
          raw := Some(Scrub(u.raw.value));
        }
        snapshots := snapshots[p := Row(u.snapshot.value, raw, capturedAt)];
      }
    }

    method SaveProviderError(p: Provider, error: string, now: string)
      modifies this
      ensures Contents() == Errored(old(Contents()), p, error, now)
    {
      if p in accounts {
        var a := accounts[p];
        if a.authState != "connected" {
          a := a.(authState := "error");
        }
        accounts := accounts[p := a.(attemptAt := now, error := Some(OneLine(error)))];
      } else {
        accounts := accounts[p := Account(None, None, None, "error", now, Some(OneLine(error)))];
      }
    }

    method Disconnect(p: Provider) returns (shown: Shown)
      modifies this
      ensures Contents() == Disconnected(old(Contents()), p)
      ensures forall now, clock :: shown == Loaded(Contents(), p, now, clock)
    {
      accounts := accounts - {p};
      snapshots := snapshots - {p};
      shown := NOT_CONNECTED;
    }

    method LoadProviderState(p: Provider, now: int, clock: Clock) returns (shown: Shown)
      ensures shown == Loaded(Contents(), p, now, clock)
    {
      if p !in accounts {
        return NOT_CONNECTED;
      }
      var a := accounts[p];
      shown := Shown(a.authState, a.accountLabel, a.email, a.plan, UNKNOWN, UNKNOWN, None, Some(a.attemptAt), a.error);
      if p in snapshots {
        var snapshot := snapshots[p].snapshot;
        if p == Codex {
          if snapshots[p].raw.None? || FromLocalSessions(snapshots[p].raw.value) {
            return;
          }
          snapshot := Normalize(snapshots[p].raw.value, clock.format);
        }
        var windows := new Window[2][snapshot.fiveHour, snapshot.weekly];
        ExpireResetQuotaWindows(windows, now, clock);
        shown := shown.(fiveHour := windows[0], weekly := windows[1], refreshAt := Some(snapshots[p].capturedAt));
      }
    }
  }

  // ------------------------------------------------------------------
  // Every run
  // ------------------------------------------------------------------

  const EMPTY := Tables(map[], map[])

  datatype Command =
    | DoUpdate(p: Provider, update: Update, now: string)
    | DoError(p: Provider, error: string, now: string)
    | DoDisconnect(p: Provider)

  function Step(t: Tables, c: Command): Tables {
    match c
    case DoUpdate(p, u, now) => Updated(t, p, u, now)
    case DoError(p, error, now) => Errored(t, p, error, now)
    case DoDisconnect(p) => Disconnected(t, p)
  }

  function Run(t: Tables, commands: seq<Command>): Tables
    decreases |commands|
  {
    if commands == [] then t else Run(Step(t, commands[0]), commands[1..])
  }

  lemma {:induction false} RunJoins(t: Tables, a: seq<Command>, b: seq<Command>)
    ensures Run(t, a + b) == Run(Run(t, a), b)
    decreases |a|
  {
    if a == [] {
      assert a + b == b;
    } else {
      assert (a + b)[1..] == a[1..] + b;
      RunJoins(Step(t, a[0]), a[1..], b);
    }
  }

  /** Commands that leave a provider's login alone: other providers' and failures. */
  predicate LeavesLogin(c: Command, p: Provider) {
    c.p != p || c.DoError?
  }

  predicate AllLeaveLogin(commands: seq<Command>, p: Provider) {
    forall c :: c in commands ==> LeavesLogin(c, p)
  }

  predicate AnyError(commands: seq<Command>, p: Provider) {
    exists c :: c in commands && c.p == p && c.DoError?
  }

  /** Failures keep label, mail, plan and quota together, and never start a login. */
  lemma {:induction false} ErrorsKeepLogin(t: Tables, commands: seq<Command>, p: Provider)
    requires AllLeaveLogin(commands, p)
    ensures Lookup(Run(t, commands).snapshots, p) == Lookup(t.snapshots, p)
    ensures
      match Lookup(t.accounts, p)
      case None =>
        var now := Lookup(Run(t, commands).accounts, p);
        && now.Some? == AnyError(commands, p)
        && (now.Some? ==> now.value.accountLabel == now.value.email == now.value.plan == None && now.value.authState == "error")
      case Some(was) =>
        var now := Lookup(Run(t, commands).accounts, p);
        && now.Some? && now.value.accountLabel == was.accountLabel && now.value.email == was.email && now.value.plan == was.plan
        && now.value.authState ==
           (if was.authState == "connected" || !AnyError(commands, p) then was.authState else "error")
    decreases |commands|
  {
    if commands != [] {
      var next := Step(t, commands[0]);
      assert LeavesLogin(commands[0], p);
      ErrorsKeepLogin(next, commands[1..], p);
      assert commands == [commands[0]] + commands[1..];
      assert AnyError(commands, p) <==> (commands[0].p == p && commands[0].DoError?) || AnyError(commands[1..], p);
    }
  }

  /** After any run, from any tables: what is stored for a login is what its latest update
      brought, label and quota alike, however many refreshes failed since. */
  lemma LoginIsFromLatestUpdate(t: Tables, before: seq<Command>, p: Provider, u: Update, now: string, after: seq<Command>)
    requires AllLeaveLogin(after, p)
    ensures
      var end := Run(t, before + [DoUpdate(p, u, now)] + after);
      && p in end.accounts
      && end.accounts[p].accountLabel == u.accountLabel && end.accounts[p].email == u.email && end.accounts[p].plan == u.plan
      && Lookup(end.snapshots, p) == (if u.snapshot.Some? then Some(RowOf(u, now)) else None)
      && end.accounts[p].authState == (if u.authState == "connected" || !AnyError(after, p) then u.authState else "error")
  {
    RunJoins(t, before + [DoUpdate(p, u, now)], after);
    RunJoins(t, before, [DoUpdate(p, u, now)]);
    var mid := Run(t, before);
    assert Run(mid, [DoUpdate(p, u, now)]) == Updated(mid, p, u, now);
    ErrorsKeepLogin(Updated(mid, p, u, now), after, p);
  }

  /** After a disconnect, until the next update, nobody's label or quota is stored. */
  lemma DisconnectForgets(t: Tables, before: seq<Command>, p: Provider, after: seq<Command>, now: int, clock: Clock)
    requires AllLeaveLogin(after, p)
    ensures
      var end := Run(t, before + [DoDisconnect(p)] + after);
      && p !in end.snapshots && (p in end.accounts <==> AnyError(after, p))
      && (p in end.accounts ==> end.accounts[p].accountLabel == end.accounts[p].email == None)
      && Loaded(end, p, now, clock).fiveHour == Loaded(end, p, now, clock).weekly == UNKNOWN
  {
    RunJoins(t, before + [DoDisconnect(p)], after);
    RunJoins(t, before, [DoDisconnect(p)]);
    var mid := Run(t, before);
    assert Run(mid, [DoDisconnect(p)]) == Disconnected(mid, p);
    ErrorsKeepLogin(Disconnected(mid, p), after, p);
  }

  /** A stored snapshot always belongs to an account row. */
  lemma {:induction false} SnapshotHasAccount(t: Tables, commands: seq<Command>)
    requires t.snapshots.Keys <= t.accounts.Keys
    ensures Run(t, commands).snapshots.Keys <= Run(t, commands).accounts.Keys
    decreases |commands|
  {
    if commands != [] { SnapshotHasAccount(Step(t, commands[0]), commands[1..]); }
  }

  // ------------------------------------------------------------------
  // What a saved update shows
  // ------------------------------------------------------------------

  /** Codex updates carry the windows of the JSON they carry. */
  predicate Faithful(p: Provider, u: Update, clock: Clock) {
    p.Codex? && u.snapshot.Some? && u.raw.Some? ==> u.snapshot.value == Normalize(u.raw.value, clock.format)
  }

  predicate MayShow(p: Provider, u: Update) {
    p.Codex? ==> u.raw.Some? && !FromLocalSessions(u.raw.value)
  }

  lemma SourceScrubbed(raw: Json)
    ensures FromLocalSessions(Scrub(raw)) == FromLocalSessions(raw)
  {
    BucketKeysPlain();
    GetScrubbed(raw, "source");
  }

  /** Loading after a save, however many failures came between, shows the saved windows up
      to expiry; a Codex save without JSON, or from local sessions, shows none. */
  lemma LoadAfterSave(t: Tables, p: Provider, u: Update, at: string, after: seq<Command>, now: int, clock: Clock)
    requires u.snapshot.Some? && Faithful(p, u, clock) && AllLeaveLogin(after, p)
    ensures
      var shown := Loaded(Run(Updated(t, p, u, at), after), p, now, clock);
      && shown.accountLabel == u.accountLabel
      && if MayShow(p, u)
         then shown.fiveHour == Expired(u.snapshot.value.fiveHour, now, clock) &&
              shown.weekly == Expired(u.snapshot.value.weekly, now, clock) &&
              shown.refreshAt == Some(RowOf(u, at).capturedAt)
         else shown.fiveHour == shown.weekly == UNKNOWN && shown.refreshAt == None
  {
    ErrorsKeepLogin(Updated(t, p, u, at), after, p);
    if u.raw.Some? {
      SourceScrubbed(u.raw.value);
      NormalizeScrubbed(u.raw.value, clock.format);
    }
  }

  /** The cache holds no secret: over every run each stored JSON is redacted. */
  lemma {:induction false} CacheIsRedacted(t: Tables, commands: seq<Command>, p: Provider)
    requires p in t.snapshots && t.snapshots[p].raw.Some? ==> IsRedacted(t.snapshots[p].raw.value)
    ensures
      var end := Run(t, commands);
      p in end.snapshots && end.snapshots[p].raw.Some? ==> IsRedacted(end.snapshots[p].raw.value)
    decreases |commands|
  {
    if commands != [] {
      var c := commands[0];
      if c.DoUpdate? && c.update.raw.Some? { ScrubRedacts(c.update.raw.value); }
      CacheIsRedacted(Step(t, c), commands[1..], p);
    }
  }
}
