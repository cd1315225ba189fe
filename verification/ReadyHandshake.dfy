/** The startup handshake of a portable update: the script waits for a marker that the
    program it started must leave in this attempt's work directory, among the work
    directories older attempts left behind. */
module ReadyHandshake {
  import opened Basics

  const PREFIX := "portable-"

  /** A work directory: when it was last announced, and whether it is marked ready. */
  datatype WorkDir = WorkDir(awaiting: Option<nat>, ready: bool)

  type Updates = map<string, WorkDir>

  predicate VersionDir(name: string) {
    PREFIX < name && forall i :: |PREFIX| <= i < |name| ==> '0' <= name[i] <= '9' || name[i] == '.'
  }

  predicate Candidate(dirs: Updates, name: string) {
    name in dirs && VersionDir(name) && dirs[name].awaiting.Some?
  }

  /** The directory a starting program takes for the pending update. */
  ghost predicate IsPending(dirs: Updates, pending: Option<string>) {
    match pending
    case None => forall n :: !Candidate(dirs, n)
    case Some(name) =>
      Candidate(dirs, name) &&
      forall n :: Candidate(dirs, n) ==> dirs[n].awaiting.value <= dirs[name].awaiting.value
  }

  // ------------------------------------------------------------------
  // Finding the pending directory
  // ------------------------------------------------------------------

  /** Sorting by time and popping the last: the latest candidate, the last among equals. */
  function PopLatest(candidates: seq<(nat, string)>): (r: Option<(nat, string)>)
    ensures r.None? <==> candidates == []
    ensures r.Some? ==> r.value in candidates && forall c :: c in candidates ==> c.0 <= r.value.0
  {
    if candidates == [] then None
    else
      var last := candidates[|candidates| - 1];
      match PopLatest(candidates[..|candidates| - 1])
      case None => Some(last)
      case Some(c) => if c.0 <= last.0 then Some(last) else Some(c)
  }

  /** `pending_portable_update_work_dir` over the entries of the updates directory. */
  method PendingWorkDir(entries: seq<string>, dirs: Updates) returns (pending: Option<string>)
    requires forall n :: n in dirs ==> n in entries
    ensures IsPending(dirs, pending)
  {
    var candidates: seq<(nat, string)> := [];
    for i := 0 to |entries|
      invariant forall n :: n in entries[..i] && Candidate(dirs, n) ==> (dirs[n].awaiting.value, n) in candidates
      invariant forall c :: c in candidates ==> Candidate(dirs, c.1) && c.0 == dirs[c.1].awaiting.value
    {
      var name := entries[i];
      assert entries[..i + 1] == entries[..i] + [name];
      if name !in dirs || !VersionDir(name) || dirs[name].awaiting.None? {
        continue;
      }
      candidates := candidates + [(dirs[name].awaiting.value, name)];
    }
    assert entries[..|entries|] == entries;
    assert forall n :: Candidate(dirs, n) ==> (dirs[n].awaiting.value, n) in candidates;
    match PopLatest(candidates)
    case None =>
      pending := None;
    case Some(c) => pending := Some(c.1);
  }

  // ------------------------------------------------------------------
  // Attempts as a state machine
  // ------------------------------------------------------------------

  /** How far the current attempt has got. */
  datatype Attempt =
    | Idle
    | Prepared(dir: string)
    | Announced(dir: string)
    | Started(dir: string, process: nat)

  /** `running` is the one instance of the program that runs, if any. */
  datatype State = State(clock: nat, processes: nat, dirs: Updates, running: Option<nat>, attempt: Attempt)

  datatype Step =
    | Prepare(version: string)
    | Exit
    | GiveUp
    | Announce(readyRemoved: bool)
    | Start
    | Launch
    | Mark(pending: Option<string>)
    | Commit(cleaned: bool)

  ghost predicate Next(s: State, step: Step, t: State) {
    match step
    // The running program prepares a work directory: both markers are removed first.
    case Prepare(version) =>
      s.running.Some? && s.attempt.Idle? &&
      t == s.(dirs := s.dirs[PREFIX + version := WorkDir(None, false)], attempt := Prepared(PREFIX + version))
    case Exit => s.running.Some? && t == s.(running := None)
    // The script stops: the old program lives on, a move failed, the new process died
    // or was stopped at the deadline. The work directory stays as it is.
    case GiveUp =>
      !s.attempt.Idle? && t == s.(attempt := Idle, running := if s.attempt.Started? then None else s.running)
    // The script announces itself once nothing is running any more.
    case Announce(readyRemoved) =>
      s.attempt.Prepared? && s.running.None? && s.attempt.dir in s.dirs &&
      t == s.(attempt := Announced(s.attempt.dir), clock := s.clock + 1,
              dirs := s.dirs[s.attempt.dir :=
                WorkDir(Some(s.clock), !readyRemoved && s.dirs[s.attempt.dir].ready)])
    case Start =>
      s.attempt.Announced? &&
      t == s.(attempt := Started(s.attempt.dir, s.processes), running := Some(s.processes), processes := s.processes + 1)
    // Someone else starts the program while no attempt is under way.
    case Launch =>
      s.attempt.Idle? && s.running.None? && t == s.(running := Some(s.processes), processes := s.processes + 1)
    // The running program calls mark_portable_update_ready.
    case Mark(pending) =>
      s.running.Some? && IsPending(s.dirs, pending) &&
      t == (if pending.None? then s
            else s.(dirs := s.dirs[pending.value := s.dirs[pending.value].(ready := true)]))
    // The script sees the marker. Removing the work directory may fail silently.
    case Commit(cleaned) =>
      s.attempt.Started? && s.attempt.dir in s.dirs && s.dirs[s.attempt.dir].ready &&
      t == s.(attempt := Idle, dirs := if cleaned then s.dirs - {s.attempt.dir} else s.dirs)
  }

  /** Whatever older attempts left behind was announced in the past. */
  ghost predicate Past(s: State) {
    && (forall n :: n in s.dirs && s.dirs[n].awaiting.Some? ==> s.dirs[n].awaiting.value < s.clock)
    && (s.running.Some? ==> s.running.value < s.processes)
  }

  ghost predicate Begins(s: State) {
    Past(s) && s.attempt.Idle?
  }

  ghost predicate IsRun(states: seq<State>, steps: seq<Step>) {
    |states| == |steps| + 1 && Begins(states[0]) &&
    forall i :: 0 <= i < |steps| ==> Next(states[i], steps[i], states[i + 1])
  }

  /** Step `j` is the started program marking the attempt under way at step `i`. */
  predicate MarkedAt(states: seq<State>, steps: seq<Step>, j: nat, i: nat) {
    j < i < |states| && j < |steps| &&
    states[i].attempt.Started? && states[j].attempt == states[i].attempt &&
    states[j].running == Some(states[i].attempt.process) && steps[j] == Mark(Some(states[i].attempt.dir))
  }

  /** This attempt's announcement is later than every other. */
  ghost predicate Latest(s: State, dir: string) {
    dir in s.dirs && s.dirs[dir].awaiting.Some? &&
    forall n :: n in s.dirs && n != dir && s.dirs[n].awaiting.Some? ==>
      s.dirs[n].awaiting.value < s.dirs[dir].awaiting.value
  }

  ghost predicate Inv(states: seq<State>, steps: seq<Step>, i: nat)
    requires i < |states|
  {
    var s := states[i];
    && Past(s)
    && match s.attempt
       case Idle => true
       case Prepared(dir) => dir in s.dirs && s.dirs[dir] == WorkDir(None, false)
       case Announced(dir) => s.running.None? && Latest(s, dir) && !s.dirs[dir].ready
       case Started(dir, process) =>
         && Latest(s, dir)
         && (s.running.Some? ==> s.running.value == process)
         && (s.dirs[dir].ready ==> exists j: nat :: MarkedAt(states, steps, j, i))
  }

  lemma {:induction false} InvHolds(states: seq<State>, steps: seq<Step>, i: nat)
    requires IsRun(states, steps) && i < |states|
    ensures Inv(states, steps, i)
  {
    if i > 0 {
      InvHolds(states, steps, i - 1);
      var s, step, t := states[i - 1], steps[i - 1], states[i];
      assert Next(s, step, t);
      if step.Mark? && s.attempt.Started? && step.pending == Some(s.attempt.dir) {
        assert MarkedAt(states, steps, i - 1, i);
      } else if s.attempt.Started? && t.attempt == s.attempt && s.dirs[s.attempt.dir].ready {
        var j: nat :| MarkedAt(states, steps, j, i - 1);
        assert MarkedAt(states, steps, j, i);
      }
    }
  }

  /** An attempt commits only after the program it started itself has marked this very
      attempt, however many failed or uncleaned attempts came before. */
  lemma CommitNeedsOwnMark(states: seq<State>, steps: seq<Step>, i: nat)
    requires IsRun(states, steps) && i < |steps| && steps[i].Commit?
    ensures exists j: nat :: MarkedAt(states, steps, j, i)
  {
    InvHolds(states, steps, i);
    assert Next(states[i], steps[i], states[i + 1]);
  }

  /** Conversely, once the started program runs and the attempt's name is a version, its
      mark lands in this attempt's directory and lets the script commit. */
  lemma OwnMarkLands(states: seq<State>, steps: seq<Step>, i: nat)
    requires IsRun(states, steps) && i < |steps|
    requires states[i].attempt.Started? && steps[i].Mark?
    ensures VersionDir(states[i].attempt.dir) ==>
              var dir := states[i].attempt.dir;
              && steps[i].pending == Some(dir)
              && Next(states[i + 1], Commit(true),
                      states[i + 1].(attempt := Idle, dirs := states[i + 1].dirs - {dir}))
    ensures states[i].running == Some(states[i].attempt.process)
  {
    InvHolds(states, steps, i);
    assert Next(states[i], steps[i], states[i + 1]);
    var dir := states[i].attempt.dir;
    if VersionDir(dir) {
      assert Candidate(states[i].dirs, dir);
    }
  }
}
