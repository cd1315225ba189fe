/** Downloading an update under concurrent cancellation: every command and every step
    of every download task is one step of a shared state machine. */
module UpdateDownload {
  import opened Basics

  type Job = string

  /** The most one read from the network brings. */
  const BUFFER := 64 * 1024

  /** What the outside world serves: how many mirrors a job has, the body each of them
      sends, and whether a file has the published digest. */
  datatype World = World(mirrors: Job -> nat, body: (Job, nat) -> Bytes, matches: (Job, Bytes) -> bool)

  /** Where a download task is. */
  datatype Pc =
    | Requesting                        // registered; checksum not fetched yet
    | Trying(mirror: nat)               // about to check the flag for this mirror
    | Opening(mirror: nat)              // about to connect and create the file
    | Polling(mirror: nat, got: Bytes)  // about to check the flag, in the loop
    | Reading(mirror: nat, got: Bytes)  // about to read the next chunk
    | Verifying(mirror: nat)
    | Failing                           // about to remove the file
    | Ended(result: Result)             // result known, still registered
    | Returned(result: Result)

  /** Early: refused before any byte was downloaded. */
  datatype Result = Ok | Error | EarlyError

  datatype Task = Task(flag: nat, pc: Pc)

  /** The registry maps jobs to flags; flags live on while anyone holds them. */
  datatype State = State(registry: map<Job, nat>, flags: seq<bool>, tasks: map<Job, Task>, files: map<Job, Bytes>)

  datatype Step =
    | Cancel(job: Job)
    | Register(job: Job)
    | RefuseEarly(job: Job)
    | Begin(job: Job)
    | Poll(job: Job)
    | OpenFails(job: Job)
    | Open(job: Job)
    | Read(job: Job, chunk: Bytes)
    | ReadFails(job: Job)
    | EndOfFile(job: Job)
    | Verify(job: Job)
    | CleanUp(job: Job)
    | Finish(job: Job)

  // ------------------------------------------------------------------
  // One download task
  // ------------------------------------------------------------------

  /** What a task does next: its new place and its file, or None when the step is not
      its next one. `canceled` is what it would read from its flag. */
  function TaskStep(world: World, job: Job, pc: Pc, file: Option<Bytes>, canceled: bool, step: Step):
    Option<(Pc, Option<Bytes>)>
  {
    match step
    case RefuseEarly(_) => if pc.Requesting? then Some((Ended(EarlyError), file)) else None
    case Begin(_) => if pc.Requesting? then Some((Trying(0), file)) else None
    case Poll(_) =>
      if pc.Trying? then
        Some((if pc.mirror >= world.mirrors(job) || canceled then Failing else Opening(pc.mirror), file))
      else if pc.Polling? then
        Some((if canceled then Failing else Reading(pc.mirror, pc.got), file))
      else None
    case OpenFails(_) => if pc.Opening? then Some((Trying(pc.mirror + 1), None)) else None
    case Open(_) => if pc.Opening? then Some((Polling(pc.mirror, []), Some([]))) else None
    case Read(_, chunk) =>
      if pc.Reading? && 0 < |chunk| <= BUFFER && pc.got + chunk <= world.body(job, pc.mirror) && file.Some? then
        Some((Polling(pc.mirror, pc.got + chunk), Some(file.value + chunk)))
      else None
    case ReadFails(_) => if pc.Reading? then Some((Trying(pc.mirror + 1), None)) else None
    case EndOfFile(_) =>
      if pc.Reading? && pc.got == world.body(job, pc.mirror) then Some((Verifying(pc.mirror), file)) else None
    case Verify(_) =>
      if pc.Verifying? then
        Some((if file.Some? && world.matches(job, file.value) then Ended(Ok) else Failing, file))
      else None
    case CleanUp(_) => if pc.Failing? then Some((Ended(Error), None)) else None
    case Finish(_) => if pc.Ended? then Some((Returned(pc.result), file)) else None
    case _ => None
  }

  /** The file under way is what one mirror sent so far; a success left the whole body. */
  predicate TaskInv(world: World, job: Job, pc: Pc, file: Option<Bytes>) {
    match pc
    case Requesting => true
    case Trying(_) => true
    case Opening(m) => m < world.mirrors(job)
    case Polling(m, got) => Partial(world, job, m, got, file)
    case Reading(m, got) => Partial(world, job, m, got, file)
    case Verifying(m) => Partial(world, job, m, world.body(job, m), file)
    case Failing => true
    case Ended(r) => ResultInv(world, job, r, file)
    case Returned(r) => ResultInv(world, job, r, file)
  }

  predicate Partial(world: World, job: Job, mirror: nat, got: Bytes, file: Option<Bytes>) {
    mirror < world.mirrors(job) && file == Some(got) && got <= world.body(job, mirror)
  }

  predicate ResultInv(world: World, job: Job, r: Result, file: Option<Bytes>) {
    match r
    case Ok => WholeBody(world, job, file)
    case Error => file.None?
    case EarlyError => true
  }

  /** The file is the whole body of one of the job's mirrors and has the digest. */
  predicate WholeBody(world: World, job: Job, file: Option<Bytes>) {
    file.Some? && world.matches(job, file.value) &&
    exists m: nat | m < world.mirrors(job) :: file.value == world.body(job, m)
  }

  lemma TaskInvPreserved(world: World, job: Job, pc: Pc, file: Option<Bytes>, canceled: bool, step: Step)
    requires TaskInv(world, job, pc, file)
    ensures
      var r := TaskStep(world, job, pc, file, canceled, step);
      r.Some? ==> TaskInv(world, job, r.value.0, r.value.1)
  {
  }

  lemma ReturnsOnlyByFinish(world: World, job: Job, pc: Pc, file: Option<Bytes>, canceled: bool, step: Step)
    ensures
      var r := TaskStep(world, job, pc, file, canceled, step);
      r.Some? ==> !pc.Returned? && (r.value.0.Returned? <==> step.Finish?)
  {
  }

  /** Nothing after the last look at the flag lies before it: from here on success needs
      at least one more look. */
  predicate StillPolls(pc: Pc) {
    pc.Requesting? || pc.Trying? || pc.Opening? || pc.Polling? || pc.Failing? ||
    ((pc.Ended? || pc.Returned?) && pc.result != Ok)
  }

  lemma CanceledTaskFails(world: World, job: Job, pc: Pc, file: Option<Bytes>, step: Step)
    requires StillPolls(pc)
    ensures
      var r := TaskStep(world, job, pc, file, true, step);
      r.Some? ==> StillPolls(r.value.0)
  {
  }

  // ------------------------------------------------------------------
  // All tasks and commands together
  // ------------------------------------------------------------------

  /** The flag a command finds or creates under a job's name. */
  function FlagOf(s: State, job: Job): nat {
    if job in s.registry then s.registry[job] else |s.flags|
  }

  function Entered(s: State, job: Job, initial: bool): State {
    if job in s.registry then s
    else s.(registry := s.registry[job := |s.flags|], flags := s.flags + [initial])
  }

  function WithFile(files: map<Job, Bytes>, job: Job, file: Option<Bytes>): map<Job, Bytes> {
    match file case None => files - {job} case Some(content) => files[job := content]
  }

  predicate Canceled(s: State, job: Job)
    requires job in s.tasks
  {
    s.tasks[job].flag < |s.flags| && s.flags[s.tasks[job].flag]
  }

  /** One step; None when the step cannot be taken. A job id is used once. */
  function Apply(world: World, s: State, step: Step): Option<State>
    requires WellFormed(s)
  {
    var job := step.job;
    if step.Cancel? then
      var e := Entered(s, job, true);
      Some(e.(flags := e.flags[FlagOf(s, job) := true]))
    else if step.Register? then
      if job in s.tasks then None
      else
        var e := Entered(s, job, false);
        Some(e.(tasks := e.tasks[job := Task(FlagOf(s, job), Requesting)]))
    else if job !in s.tasks then None
    else
      match TaskStep(world, job, s.tasks[job].pc, Lookup(s.files, job), Canceled(s, job), step)
      case None => None
      case Some((pc, file)) =>
        Some(State(if step.Finish? then s.registry - {job} else s.registry, s.flags,
                   s.tasks[job := s.tasks[job].(pc := pc)], WithFile(s.files, job, file)))
  }

  /** A task's flag is the one registered under its job's name until the task returns. */
  predicate WellFormed(s: State) {
    && (forall j :: j in s.registry ==> s.registry[j] < |s.flags|)
    && (forall j :: j in s.tasks ==> s.tasks[j].flag < |s.flags|)
    && (forall j :: j in s.tasks && !s.tasks[j].pc.Returned? ==> Lookup(s.registry, j) == Some(s.tasks[j].flag))
  }

  predicate TasksInv(world: World, s: State) {
    forall j :: j in s.tasks ==> TaskInv(world, j, s.tasks[j].pc, Lookup(s.files, j))
  }

  lemma ApplyWellFormed(world: World, s: State, step: Step)
    requires WellFormed(s) && Apply(world, s, step).Some?
    ensures WellFormed(Apply(world, s, step).value)
  {
    if step.job in s.tasks && !step.Cancel? && !step.Register? {
      ReturnsOnlyByFinish(world, step.job, s.tasks[step.job].pc, Lookup(s.files, step.job),
                          Canceled(s, step.job), step);
    }
  }

  lemma ApplyTasksInv(world: World, s: State, step: Step)
    requires WellFormed(s) && TasksInv(world, s) && Apply(world, s, step).Some?
    ensures TasksInv(world, Apply(world, s, step).value)
  {
    var t := Apply(world, s, step).value;
    forall j | j in t.tasks ensures TaskInv(world, j, t.tasks[j].pc, Lookup(t.files, j)) {
      if j in s.tasks && j == step.job && !step.Cancel? && !step.Register? {
        TaskInvPreserved(world, j, s.tasks[j].pc, Lookup(s.files, j), Canceled(s, j), step);
      }
    }
  }

  /** The state after a run; steps that cannot be taken are skipped. */
  function Run(world: World, s: State, steps: seq<Step>): (t: State)
    requires WellFormed(s)
    ensures WellFormed(t)
    decreases |steps|
  {
    if steps == [] then s else Run(world, After(world, s, steps[0]), steps[1..])
  }

  function After(world: World, s: State, step: Step): (t: State)
    requires WellFormed(s)
    ensures WellFormed(t)
  {
    match Apply(world, s, step)
    case Some(t) => ApplyWellFormed(world, s, step); t
    case None => s
  }

  // ------------------------------------------------------------------
  // Over every run
  // ------------------------------------------------------------------

  /** A download that returned Ok left the whole body of one mirror; one that failed
      after it began downloading left no file. */
  lemma {:induction false} FilesAreWhole(world: World, s: State, steps: seq<Step>)
    requires WellFormed(s) && TasksInv(world, s)
    ensures TasksInv(world, Run(world, s, steps))
    decreases |steps|
  {
    if steps != [] {
      if Apply(world, s, steps[0]).Some? { ApplyTasksInv(world, s, steps[0]); }
      FilesAreWhole(world, After(world, s, steps[0]), steps[1..]);
    }
  }

  /** A cancel has reached the job before its last look at the flag. */
  predicate Doomed(s: State, job: Job) {
    if job in s.tasks then Canceled(s, job) && StillPolls(s.tasks[job].pc)
    else job in s.registry && s.registry[job] < |s.flags| && s.flags[s.registry[job]]
  }

  lemma DoomedStays(world: World, s: State, step: Step, job: Job)
    requires WellFormed(s) && Doomed(s, job) && Apply(world, s, step).Some?
    ensures Doomed(Apply(world, s, step).value, job)
  {
    if job in s.tasks && step.job == job && !step.Cancel? && !step.Register? {
      CanceledTaskFails(world, job, s.tasks[job].pc, Lookup(s.files, job), step);
    }
  }

  lemma {:induction false} DoomedForever(world: World, s: State, steps: seq<Step>, job: Job)
    requires WellFormed(s) && Doomed(s, job)
    ensures Doomed(Run(world, s, steps), job)
    decreases |steps|
  {
    if steps != [] {
      if Apply(world, s, steps[0]).Some? { DoomedStays(world, s, steps[0], job); }
      DoomedForever(world, After(world, s, steps[0]), steps[1..], job);
    }
  }

  predicate Succeeded(s: State, job: Job) {
    job in s.tasks && (s.tasks[job].pc.Ended? || s.tasks[job].pc.Returned?) && s.tasks[job].pc.result == Ok
  }

  /** From a start without tasks, whatever happens, a download that succeeds has left
      exactly what one mirror sent, never a mix of two. */
  lemma SuccessIsOneMirror(world: World, s: State, steps: seq<Step>, job: Job)
    requires WellFormed(s) && s.tasks == map[]
    ensures
      var t := Run(world, s, steps);
      Succeeded(t, job) ==> WholeBody(world, job, Lookup(t.files, job))
  {
    FilesAreWhole(world, s, steps);
    var t := Run(world, s, steps);
    if job in t.tasks { assert TaskInv(world, job, t.tasks[job].pc, Lookup(t.files, job)); }
  }

  /** A cancel has been stored where the job's task looks, or will look. */
  predicate Told(s: State, job: Job) {
    if job in s.tasks then Canceled(s, job)
    else job in s.registry && s.registry[job] < |s.flags| && s.flags[s.registry[job]]
  }

  lemma CancelTells(world: World, s: State, job: Job)
    requires WellFormed(s) && (job in s.tasks ==> !s.tasks[job].pc.Returned?)
    ensures Told(After(world, s, Cancel(job)), job)
  {
    if job in s.tasks {
      assert Lookup(s.registry, job) == Some(s.tasks[job].flag);
    }
  }

  /** A flag once set stays set. */
  lemma {:induction false} ToldForever(world: World, s: State, steps: seq<Step>, job: Job)
    requires WellFormed(s) && Told(s, job)
    ensures Told(Run(world, s, steps), job)
    decreases |steps|
  {
    if steps != [] {
      assert Told(After(world, s, steps[0]), job);
      ToldForever(world, After(world, s, steps[0]), steps[1..], job);
    }
  }

  /** No cancel is lost: it may arrive at any moment, before the download starts or in the
      middle of a read. If the task still has a look at its flag ahead at some moment after
      the cancel, no continuation from there ends in success, and no file stays behind
      unless the request was refused before it downloaded anything. */
  lemma CancelNotLost(world: World, s: State, job: Job, between: seq<Step>, later: seq<Step>)
    requires WellFormed(s) && TasksInv(world, s)
    requires
      var m := Run(world, After(world, s, Cancel(job)), between);
      job in m.tasks ==> StillPolls(m.tasks[job].pc)
    ensures
      var t := Run(world, Run(world, After(world, s, Cancel(job)), between), later);
      && !Succeeded(t, job)
      && (job in t.tasks && (t.tasks[job].pc.Ended? || t.tasks[job].pc.Returned?) ==>
            t.tasks[job].pc.result == EarlyError || job !in t.files)
  {
    var c := After(world, s, Cancel(job));
    var m := Run(world, c, between);
    var t := Run(world, m, later);
    ApplyTasksInv(world, s, Cancel(job));
    FilesAreWhole(world, c, between);
    FilesAreWhole(world, m, later);
    if job in m.tasks && m.tasks[job].pc.Returned? {
      ReturnedStays(world, m, later, job);
    } else {
      if job in s.tasks && s.tasks[job].pc.Returned? { ReturnedStays(world, c, between, job); }
      CancelTells(world, s, job);
      ToldForever(world, c, between, job);
      DoomedForever(world, m, later, job);
    }
    if job in t.tasks { assert TaskInv(world, job, t.tasks[job].pc, Lookup(t.files, job)); }
  }

  /** In particular a cancel that arrives while a task waits for its next bytes stops it
      as soon as they have come. */
  lemma CancelWhileReading(world: World, s: State, job: Job, chunk: Bytes, later: seq<Step>)
    requires WellFormed(s) && TasksInv(world, s) && job in s.tasks && s.tasks[job].pc.Reading?
    requires Apply(world, s, Read(job, chunk)).Some?
    ensures !Succeeded(Run(world, After(world, After(world, s, Cancel(job)), Read(job, chunk)), later), job)
  {
    var c := After(world, s, Cancel(job));
    assert Run(world, c, [Read(job, chunk)]) == After(world, c, Read(job, chunk));
    CancelNotLost(world, s, job, [Read(job, chunk)], later);
  }

  lemma {:induction false} ReturnedStays(world: World, s: State, steps: seq<Step>, job: Job)
    requires WellFormed(s) && job in s.tasks && s.tasks[job].pc.Returned?
    ensures
      var t := Run(world, s, steps);
      job in t.tasks && t.tasks[job] == s.tasks[job]
    decreases |steps|
  {
    if steps != [] {
      if steps[0].job == job {
        ReturnsOnlyByFinish(world, job, s.tasks[job].pc, Lookup(s.files, job), Canceled(s, job), steps[0]);
      }
      assert job in After(world, s, steps[0]).tasks && After(world, s, steps[0]).tasks[job] == s.tasks[job];
      ReturnedStays(world, After(world, s, steps[0]), steps[1..], job);
    }
  }

  predicate Holds(s: State, job: Job, flag: nat) {
    Lookup(s.registry, job) == Some(flag) || (job in s.tasks && s.tasks[job].flag == flag)
  }

  /** No two jobs ever hold the same flag. */
  ghost predicate Private(s: State) {
    forall j, k, f :: Holds(s, j, f) && Holds(s, k, f) ==> j == k
  }

  lemma PrivateStays(world: World, s: State, step: Step)
    requires WellFormed(s) && Private(s)
    ensures Private(After(world, s, step))
  {
    var t := After(world, s, step);
    forall j, f: nat | Holds(t, j, f)
      ensures Holds(s, j, f) || (j == step.job && f == |s.flags|)
      ensures Holds(s, j, f) ==> f < |s.flags|
    {
    }
  }

  lemma {:induction false} PrivateForever(world: World, s: State, steps: seq<Step>)
    requires WellFormed(s) && Private(s)
    ensures Private(Run(world, s, steps))
    decreases |steps|
  {
    if steps != [] {
      PrivateStays(world, s, steps[0]);
      PrivateForever(world, After(world, s, steps[0]), steps[1..]);
    }
  }

  /** From a start at which nothing is registered, no two jobs ever hold the same flag, so
      a cancel never reaches another job. */
  lemma PrivateFromStart(world: World, s: State, steps: seq<Step>, job: Job, other: Job)
    requires s.registry == map[] && s.tasks == map[] && job != other
    ensures
      var t := Run(world, s, steps);
      Private(t) && (other in t.tasks ==> Canceled(After(world, t, Cancel(job)), other) == Canceled(t, other))
  {
    PrivateForever(world, s, steps);
    var t := Run(world, s, steps);
    if other in t.tasks { CancelIsPrivate(world, t, job, other); }
  }

  /** A cancel reaches the job it names and no other. */
  lemma CancelIsPrivate(world: World, s: State, job: Job, other: Job)
    requires WellFormed(s) && Private(s) && job != other && other in s.tasks
    ensures Canceled(After(world, s, Cancel(job)), other) == Canceled(s, other)
  {
    assert Holds(s, other, s.tasks[other].flag);
    if job in s.registry { assert Holds(s, job, s.registry[job]); }
  }

  function TaskRun(world: World, job: Job, pc: Pc, file: Option<Bytes>, steps: seq<Step>): Option<(Pc, Option<Bytes>)>
    decreases |steps|
  {
    if steps == [] then Some((pc, file))
    else
      match TaskStep(world, job, pc, file, false, steps[0])
      case None => None
      case Some((pc', file')) => TaskRun(world, job, pc', file', steps[1..])
  }

  /** What a task goes through when nothing fails and nobody cancels. */
  function Connect(job: Job): seq<Step> { [Begin(job), Poll(job), Open(job)] }
  function Receive(job: Job, chunks: seq<Bytes>): seq<Step> {
    [Poll(job)] + if chunks == [] then [] else [Read(job, chunks[0])] + Receive(job, chunks[1..])
  }
  function Conclude(job: Job): seq<Step> { [EndOfFile(job), Verify(job), Finish(job)] }

  function Joined(chunks: seq<Bytes>): Bytes {
    if chunks == [] then [] else chunks[0] + Joined(chunks[1..])
  }

  /** However the network cuts the body up. */
  predicate Arrives(chunks: seq<Bytes>) {
    forall i :: 0 <= i < |chunks| ==> 0 < |chunks[i]| <= BUFFER
  }

  /** Left alone, a download of a sound first mirror returns Ok with that mirror's body,
      however many reads it takes. */
  lemma CleanDownloadSucceeds(world: World, job: Job, file: Option<Bytes>, chunks: seq<Bytes>)
    requires world.mirrors(job) > 0 && world.matches(job, world.body(job, 0))
    requires Arrives(chunks) && Joined(chunks) == world.body(job, 0)
    ensures TaskRun(world, job, Requesting, file, Connect(job) + (Receive(job, chunks) + Conclude(job))) ==
            Some((Returned(Ok), Some(world.body(job, 0))))
  {
    var body := world.body(job, 0);
    RunThree(world, job, Requesting, file, Connect(job), Receive(job, chunks) + Conclude(job),
             Trying(0), file, Opening(0), file);
    assert [] + Joined(chunks) == body;
    ReceiveAll(world, job, [], chunks, Conclude(job));
    ConcludeSucceeds(world, job, body);
  }

  lemma {:induction false} ReceiveAll(world: World, job: Job, got: Bytes, chunks: seq<Bytes>, rest: seq<Step>)
    requires Arrives(chunks) && got + Joined(chunks) == world.body(job, 0)
    ensures TaskRun(world, job, Polling(0, got), Some(got), Receive(job, chunks) + rest) ==
            TaskRun(world, job, Reading(0, world.body(job, 0)), Some(world.body(job, 0)), rest)
    decreases |chunks|
  {
    var steps := Receive(job, chunks) + rest;
    if chunks == [] {
      assert got == world.body(job, 0);
      assert steps[1..] == rest;
    } else {
      var more := got + chunks[0];
      assert more + Joined(chunks[1..]) == got + Joined(chunks);
      assert steps[1..][0] == Read(job, chunks[0]);
      assert steps[1..][1..] == Receive(job, chunks[1..]) + rest;
      assert TaskRun(world, job, Polling(0, got), Some(got), steps) ==
             TaskRun(world, job, Reading(0, got), Some(got), steps[1..]);
      ReceiveAll(world, job, more, chunks[1..], rest);
    }
  }

  lemma ConcludeSucceeds(world: World, job: Job, body: Bytes)
    requires body == world.body(job, 0) && world.matches(job, body)
    ensures TaskRun(world, job, Reading(0, body), Some(body), Conclude(job)) == Some((Returned(Ok), Some(body)))
  {
    assert Conclude(job) + [] == Conclude(job);
    RunThree(world, job, Reading(0, body), Some(body), Conclude(job), [], Verifying(0), Some(body), Ended(Ok), Some(body));
  }

  lemma RunThree(world: World, job: Job, pc: Pc, file: Option<Bytes>, steps: seq<Step>, rest: seq<Step>,
                 pc1: Pc, file1: Option<Bytes>, pc2: Pc, file2: Option<Bytes>)
    requires |steps| == 3
    requires TaskStep(world, job, pc, file, false, steps[0]) == Some((pc1, file1))
    requires TaskStep(world, job, pc1, file1, false, steps[1]) == Some((pc2, file2))
    requires TaskStep(world, job, pc2, file2, false, steps[2]).Some?
    ensures
      var (pc3, file3) := TaskStep(world, job, pc2, file2, false, steps[2]).value;
      TaskRun(world, job, pc, file, steps + rest) == TaskRun(world, job, pc3, file3, rest)
  {
    var all := steps + rest;
    assert TaskRun(world, job, pc, file, all) == TaskRun(world, job, pc1, file1, all[1..]);
    assert TaskRun(world, job, pc1, file1, all[1..]) == TaskRun(world, job, pc2, file2, all[1..][1..]);
    assert all[1..][1..][1..] == rest;
  }
}
