/** The disk uploader as a state machine: every request a job run makes is one step, and the steps
    of any number of runs, of any number of jobs, interleave with crashes and the passage of time. */
module UploadProtocol {
  import opened StringOrder
  import opened UploadGeneration

  // The AWS uploader evicts a stale lock before competing again; the Yandex uploader overwrites it
  // conditionally on its ETag.
  datatype Variant = Aws | Yandex

  datatype File = File(dest: string, generation: string, staged: string, overwrite: bool, mirrored: bool)

  datatype Job = Job(files: seq<File>, callback: bool)

  datatype Config = Config(variant: Variant, jobs: map<string, Job>)

  // One version of a stored object. Version ids are never reused.
  datatype Version = Version(body: string, id: nat)

  // How uploading one file ended: with the marker at or past its generation, with its staged object
  // missing, or with an error.
  datatype Exit = Current | Absent | Failed

  // Where a run stands. Each constructor names the request the run makes next.
  datatype Phase =
    | Booting
    | Ready(i: nat)
    | Contending(i: nat)
    | Inspecting(i: nat)
    | Evicting(i: nat, seen: Version)
    | Replaced(i: nat, lock: Version, stale: Version)
    | Locked(i: nat, lock: Version)
    | Superseded(i: nat, lock: Version)
    | Fetching(i: nat, lock: Version, previous: seq<Version>)
    | Linking(i: nat, lock: Version, previous: seq<Version>)
    | Existing(i: nat, lock: Version, previous: seq<Version>)
    | Uploading(i: nat, lock: Version, previous: seq<Version>)
    | Uploaded(i: nat, lock: Version, previous: seq<Version>)
    | Marked(i: nat, lock: Version, previous: seq<Version>)
    | Tidying(i: nat, lock: Version)
    | Leaving(i: nat, lock: Version, exit: Exit)
    | Broken(i: nat, busy: bool)
    | Reporting(success: bool)
    | Sweeping(k: nat)
    | Stopped(success: bool)
  {
    predicate Holding()
    {
      Replaced? || Locked? || Superseded? || Fetching? || Linking? || Existing? || Uploading? || Uploaded? ||
      Marked? || Tidying? || Leaving?
    }

    // Between reading the generation marker and being done with it.
    predicate Critical() { Holding() && !Replaced? && !Leaving? }

    // Not holding the destination's lock for certain yet.
    predicate Competing() { Contending? || Inspecting? || Evicting? || Replaced? }

    // About to change what its destination or the destination's marker holds.
    predicate Writing() { Uploading? || Uploaded? || Existing? }

    // Acting on the marker it has read.
    predicate Choosing() { Fetching? || Linking? || Writing() }

    predicate Moving() { Booting? || Ready? || Leaving? || Broken? }

    predicate Concluding() { Reporting? || Sweeping? || Stopped? }

    predicate OnFile() { Contending? || Inspecting? || Evicting? || Broken? || Holding() }
  }

  datatype Run = Run(job: string, phase: Phase)

  datatype State = State(
    now: int,
    issued: seq<string>,  // the body of every version ever created, by version id
    locks: map<string, seq<Version>>,
    marks: map<string, seq<Version>>,
    disk: map<string, string>,
    staged: set<string>,
    completions: set<(string, bool)>,
    runs: map<nat, Run>,
    judged: set<Version>)  // every lock version some run has found stale

  // What a request did: succeeded, took effect though its answer was lost, or did nothing. A run
  // that waits for a lock may also use up its attempts.
  datatype Outcome = Done | Lost | Error | Exhausted

  datatype Action =
    | Tick(span: nat)
    | Start(run: nat, job: string)
    | Crash(run: nat)
    | Request(run: nat, outcome: Outcome)

  function At(objects: map<string, seq<Version>>, key: string): seq<Version>
  {
    if key in objects then objects[key] else []
  }

  function Last(versions: seq<Version>): Version
    requires versions != []
  {
    versions[|versions| - 1]
  }

  // Deleting one exact version; deleting a version that is gone changes nothing.
  function Drop(versions: seq<Version>, id: nat): (left: seq<Version>)
    ensures |left| <= |versions|
    ensures forall v :: v in left <==> v in versions && v.id != id
    ensures versions != [] && Last(versions).id != id ==> left != [] && Last(left) == Last(versions)
  {
    if versions == [] then []
    else
      var rest := Drop(versions[..|versions|-1], id);
      if Last(versions).id == id then rest else rest + [Last(versions)]
  }

  // The generation a destination's marker shows; the empty string when there is no marker.
  function Recorded(s: State, dest: string): string
  {
    var marks := At(s.marks, dest);
    if marks == [] then "" else Last(marks).body
  }

  predicate AllMirrored(job: Job)
  {
    job.files != [] && forall i :: 0 <= i < |job.files| ==> job.files[i].mirrored
  }

  // What a run does about an error it will not retry.
  function GiveUp(job: Job, unreportable: bool): (p: Phase)
    ensures p.Concluding() && InRange(job, p)
  {
    if AllMirrored(job) then (if job.callback then Reporting(false) else Sweeping(0))
    else if unreportable || !job.callback then Stopped(false)
    else Reporting(false)
  }

  predicate InRange(job: Job, p: Phase)
  {
    (p.OnFile() ==> p.i < |job.files|) && (p.Ready? ==> p.i <= |job.files|) && (p.Sweeping? ==> p.k <= |job.files|)
  }

  predicate Fits(c: Config, run: Run)
  {
    run.job in c.jobs && InRange(c.jobs[run.job], run.phase)
  }

  predicate WellFormed(c: Config, s: State)
  {
    forall r :: r in s.runs ==> Fits(c, s.runs[r])
  }

  function FileOf(c: Config, run: Run): File
    requires Fits(c, run) && run.phase.OnFile()
  {
    c.jobs[run.job].files[run.phase.i]
  }

  // What one request does to the versions of an object.
  datatype Change = Keep | Push(body: string) | Remove(id: nat)

  function Alter(versions: seq<Version>, change: Change, id: nat): seq<Version>
  {
    match change
    case Keep => versions
    case Push(body) => versions + [Version(body, id)]
    case Remove(gone) => Drop(versions, gone)
  }

  // Everything one request does: where its run goes next and what changes at its file's destination.
  datatype Effect = Effect(
    next: Phase,
    lock: Change := Keep,
    mark: Change := Keep,
    upload: bool := false,
    unstage: set<string> := {},
    judge: set<Version> := {},
    complete: set<(string, bool)> := {})

  // Competing for the lock of a destination.
  function Acquire(c: Config, s: State, run: Run, o: Outcome): Effect
    requires Fits(c, run) && run.phase.Competing()
  {
    var p := run.phase;
    var file := FileOf(c, run);
    var held := At(s.locks, file.dest);
    var mine := Version(file.generation, |s.issued|);
    var broken := Broken(p.i, false);
    if o.Error? then Effect(broken)
    else if p.Contending? then
      if o.Exhausted? then Effect(Broken(p.i, true))
      else if held != [] then Effect(Inspecting(p.i))
      else Effect(if o.Lost? then broken else Locked(p.i, mine), lock := Push(file.generation))
    else if p.Inspecting? then
      if held == [] || !Stale(Last(held).body, s.now) then Effect(Contending(p.i))
      else Effect(Evicting(p.i, Last(held)), judge := {Last(held)})
    else if p.Replaced? then
      Effect(if o.Lost? then broken else Locked(p.i, p.lock), lock := Remove(p.stale.id))
    else if c.variant.Aws? then
      Effect(if o.Lost? then broken else Contending(p.i), lock := Remove(p.seen.id))
    else if held == [] || Last(held).body != p.seen.body then Effect(Contending(p.i))
    else
      Effect(if o.Lost? then broken else Replaced(p.i, mine, p.seen), lock := Push(file.generation))
  }

  // Uploading one file while holding its destination's lock.
  function Upload(c: Config, s: State, run: Run, o: Outcome): Effect
    requires Fits(c, run) && run.phase.Critical()
  {
    var p := run.phase;
    var file := FileOf(c, run);
    var marks := At(s.marks, file.dest);
    var leave := Leaving(p.i, p.lock, Failed);
    if p.Marked? then
      Effect(Tidying(p.i, p.lock), mark := if o.Error? || p.previous == [] then Keep else Remove(p.previous[0].id))
    else if o.Error? then Effect(leave)
    else if p.Locked? then
      if Le(file.generation, Recorded(s, file.dest)) then Effect(Superseded(p.i, p.lock))
      else Effect(Fetching(p.i, p.lock, if marks == [] then [] else [Last(marks)]))
    else if p.Superseded? || p.Tidying? then
      Effect(if o.Done? then Leaving(p.i, p.lock, Current) else leave, unstage := {file.staged})
    else if p.Fetching? then
      Effect(if file.staged in s.staged then Linking(p.i, p.lock, p.previous) else Leaving(p.i, p.lock, Absent))
    else if p.Linking? then
      Effect(if !file.overwrite && file.dest in s.disk then Existing(p.i, p.lock, p.previous)
             else Uploading(p.i, p.lock, p.previous))
    else if p.Uploading? then
      Effect(if o.Done? then Uploaded(p.i, p.lock, p.previous) else leave, upload := true)
    else
      Effect(if o.Done? then Marked(p.i, p.lock, p.previous) else leave, mark := Push(file.generation))
  }

  // Moving from one file to the next.
  function Conduct(c: Config, run: Run, o: Outcome): Effect
    requires Fits(c, run) && run.phase.Moving()
  {
    var p := run.phase;
    var job := c.jobs[run.job];
    if p.Booting? then Effect(if o.Done? then Ready(0) else GiveUp(job, true))
    else if p.Ready? then
      Effect(if p.i < |job.files| then Contending(p.i) else if job.callback then Reporting(true) else Stopped(true))
    else if p.Leaving? then
      Effect(if p.exit.Failed? then Broken(p.i, false) else Ready(p.i + 1),
             lock := if o.Error? then Keep else Remove(p.lock.id))
    else Effect(if o.Done? then Contending(p.i) else GiveUp(job, p.busy))
  }

  // Recording the job's completion, and deleting what it staged after a failure was recorded.
  function Conclude(c: Config, s: State, run: Run, o: Outcome): Effect
    requires Fits(c, run) && run.phase.Concluding()
  {
    var p := run.phase;
    var job := c.jobs[run.job];
    if p.Stopped? then Effect(p)
    else if p.Sweeping? then
      if p.k == |job.files| then Effect(Stopped(true))
      else Effect(Sweeping(p.k + 1), unstage := if o.Error? then {} else {job.files[p.k].staged})
    else
      var next := if p.success then Stopped(true) else Sweeping(0);
      if o.Error? then Effect(Stopped(false))
      else if c.variant.Aws? && ((run.job, true) in s.completions || (run.job, false) in s.completions) then
        Effect(next)
      else Effect(if o.Lost? then Stopped(false) else next, complete := {(run.job, p.success)})
  }

  function Respond(c: Config, s: State, run: Run, o: Outcome): (e: Effect)
    requires Fits(c, run)
    ensures Fits(c, run.(phase := e.next))
  {
    if run.phase.Critical() then Upload(c, s, run, o)
    else if run.phase.Competing() then Acquire(c, s, run, o)
    else if run.phase.Moving() then Conduct(c, run, o)
    else Conclude(c, s, run, o)
  }

  function Commit(s: State, r: nat, file: File, e: Effect): State
    requires r in s.runs
  {
    State(
      s.now,
      s.issued + (if e.lock.Push? then [e.lock.body] else if e.mark.Push? then [e.mark.body] else []),
      s.locks[file.dest := Alter(At(s.locks, file.dest), e.lock, |s.issued|)],
      s.marks[file.dest := Alter(At(s.marks, file.dest), e.mark, |s.issued|)],
      if e.upload then s.disk[file.dest := file.generation] else s.disk,
      s.staged - e.unstage,
      s.completions + e.complete,
      s.runs[r := s.runs[r].(phase := e.next)],
      s.judged + e.judge)
  }

  // The file a run works on; outside a file nothing at any destination changes.
  function Subject(c: Config, run: Run): File
    requires Fits(c, run)
  {
    if run.phase.OnFile() then FileOf(c, run) else File("", "", "", false, false)
  }

  function Perform(c: Config, s: State, r: nat, o: Outcome): (t: State)
    requires WellFormed(c, s) && r in s.runs
    ensures WellFormed(c, t)
  {
    Commit(s, r, Subject(c, s.runs[r]), Respond(c, s, s.runs[r], o))
  }

  // An action that is not possible in a state changes nothing, so every sequence of actions is a
  // history of the system.
  function Apply(c: Config, s: State, a: Action): (t: State)
    requires WellFormed(c, s)
    ensures WellFormed(c, t)
  {
    match a
    case Tick(span) => s.(now := s.now + span)
    case Start(r, job) => if r in s.runs || job !in c.jobs then s else s.(runs := s.runs[r := Run(job, Booting)])
    case Crash(r) => s.(runs := s.runs - {r})
    case Request(r, o) => if r in s.runs then Perform(c, s, r, o) else s
  }

  function Exec(c: Config, s: State, acts: seq<Action>): (t: State)
    requires WellFormed(c, s)
    ensures WellFormed(c, t)
    decreases |acts|
  {
    if acts == [] then s else Exec(c, Apply(c, s, acts[0]), acts[1..])
  }

  // Before any run: every job is accepted, with all its files staged. The disk may hold anything.
  function Initial(c: Config, now: int, disk: map<string, string>): State
  {
    State(now, [], map[], map[], disk,
          set j, i | j in c.jobs && 0 <= i < |c.jobs[j].files| :: c.jobs[j].files[i].staged,
          {}, map[], {})
  }

  lemma {:induction false} ExecSplits(c: Config, s: State, first: seq<Action>, second: seq<Action>)
    requires WellFormed(c, s)
    ensures Exec(c, s, first + second) == Exec(c, Exec(c, s, first), second)
    decreases |first|
  {
    if first == [] {
      assert first + second == second;
    } else {
      assert (first + second)[1..] == first[1..] + second;
      ExecSplits(c, Apply(c, s, first[0]), first[1..], second);
    }
  }
}
