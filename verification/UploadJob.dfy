/** One invocation of the disk uploader: checking the job it was sent, and turning the outcomes of its
    files into the completion it reports. */
module UploadJob {
  import opened Options
  import opened StringOrder
  import opened UploadGeneration
  import opened UploadProtocol

  const XLSX := "application/vnd.openxmlformats-officedocument.spreadsheetml.sheet"
  const PPTX := "application/vnd.openxmlformats-officedocument.presentationml.presentation"

  datatype UploadFile = UploadFile(
    role: string,
    objectKey: string,
    objectVersion: string,
    diskPath: string,
    contentType: string,
    sha256: string,
    generation: string,
    overwrite: bool,
    publish: bool,
    googleMirrored: bool,
    googleURL: string)

  datatype UploadJob = UploadJob(
    schemaVersion: int,
    jobID: string,
    bucket: string,
    files: seq<UploadFile>,
    hasCallback: bool)

  // What the upload protocol sees of a job.
  function Seen(job: UploadJob): Job
  {
    Job(seq(|job.files|, i requires 0 <= i < |job.files| => SeenFile(job.files[i])), job.hasCallback)
  }

  function SeenFile(f: UploadFile): File
  {
    File(f.diskPath, f.generation, f.objectKey, f.overwrite, f.googleMirrored)
  }

  predicate IsHex(c: char) { IsDigit(c) || 'a' <= c <= 'f' }

  predicate ValidJobID(s: string) { |s| == 36 && forall i :: 0 <= i < |s| ==> IsIdChar(s[i]) }

  predicate ValidRole(s: string)
  {
    1 <= |s| <= 32 && 'a' <= s[0] <= 'z' &&
    forall i :: 1 <= i < |s| ==> 'a' <= s[i] <= 'z' || IsDigit(s[i]) || s[i] == '_' || s[i] == '-'
  }

  predicate ValidDigest(s: string) { |s| == 64 && forall i :: 0 <= i < |s| ==> IsHex(s[i]) }

  predicate Contains(s: string, part: string)
  {
    part <= s || (s != "" && Contains(s[1..], part))
  }

  predicate OneLine(s: string) { '\r' !in s && '\n' !in s }

  predicate Https(s: string) { "https://" <= s }

  // Everything required of one file apart from its role being new.
  predicate ValidFile(jobID: string, f: UploadFile)
  {
    && ("larp-bot/uploads/" + jobID + "/" <= f.objectKey || "uploads/" + jobID + "/" <= f.objectKey)
    && !Contains(f.objectKey, "..")
    && |f.objectVersion| <= 1024 && OneLine(f.objectVersion)
    && "disk:/larp-bot/" <= f.diskPath && !Contains(f.diskPath, "..") && OneLine(f.diskPath)
    && ValidDigest(f.sha256) && ValidGeneration(f.generation)
    && (f.googleMirrored ==> f.contentType == XLSX)
    && (f.googleURL != "" ==> Https(f.googleURL))
    && (f.googleMirrored && f.publish ==> f.googleURL != "")
    && (f.contentType == XLSX || f.contentType == PPTX)
  }

  predicate UniqueRoles(files: seq<UploadFile>)
  {
    forall i, j :: 0 <= i < j < |files| ==> files[i].role != files[j].role
  }

  predicate ValidJob(job: UploadJob)
  {
    && job.schemaVersion == 1 && ValidJobID(job.jobID) && job.bucket != "" && 1 <= |job.files| <= 8
    && UniqueRoles(job.files)
    && forall i :: 0 <= i < |job.files| ==> ValidRole(job.files[i].role) && ValidFile(job.jobID, job.files[i])
  }

  method ValidateFile(jobID: string, file: UploadFile) returns (ok: bool)
    ensures ok <==> ValidFile(jobID, file)
  {
    if !("larp-bot/uploads/" + jobID + "/" <= file.objectKey) && !("uploads/" + jobID + "/" <= file.objectKey) {
      return false;
    }
    if Contains(file.objectKey, "..") || |file.objectVersion| > 1024 || !OneLine(file.objectVersion) {
      return false;
    }
    if !("disk:/larp-bot/" <= file.diskPath) || Contains(file.diskPath, "..") || !OneLine(file.diskPath) {
      return false;
    }
    if !ValidDigest(file.sha256) || !ValidGeneration(file.generation) {
      return false;
    }
    if file.googleMirrored && file.contentType != XLSX {
      return false;
    }
    if file.googleURL != "" && !Https(file.googleURL) {
      return false;
    }
    if file.googleMirrored && file.publish && file.googleURL == "" {
      return false;
    }
    return file.contentType == XLSX || file.contentType == PPTX;
  }

  // The first files are acceptable and their roles differ.
  ghost predicate ValidSoFar(job: UploadJob, n: nat)
    requires n <= |job.files|
  {
    && (forall i, j :: 0 <= i < j < n ==> job.files[i].role != job.files[j].role)
    && (forall i :: 0 <= i < n ==> ValidRole(job.files[i].role) && ValidFile(job.jobID, job.files[i]))
  }

  method ValidateFiles(job: UploadJob) returns (ok: bool)
    ensures ok <==> ValidSoFar(job, |job.files|)
  {
    var seen: set<string> := {};
    for n := 0 to |job.files|
      invariant seen == set i | 0 <= i < n :: job.files[i].role
      invariant ValidSoFar(job, n)
    {
      var file := job.files[n];
      if !ValidRole(file.role) || file.role in seen {
        return false;
      }
      seen := seen + {file.role};
      var valid := ValidateFile(job.jobID, file);
      if !valid {
        return false;
      }
    }
    return true;
  }

  /** Accepts exactly the well-formed jobs. */
  method ValidateJob(job: UploadJob) returns (ok: bool)
    ensures ok <==> ValidJob(job)
  {
    if job.schemaVersion != 1 || !ValidJobID(job.jobID) {
      return false;
    }
    if job.bucket == "" || |job.files| == 0 || |job.files| > 8 {
      return false;
    }
    ok := ValidateFiles(job);
  }

  // ----- One attempt at one file -----

  datatype UploadError = Busy | Other

  // Whether the object store has a staged object.
  datatype Staged = Found | Gone | Unreadable

  // What the Disk API says to a request for an upload link.
  datatype Link = Conflict | NoAnswer | Href(url: string)

  // The answers one attempt may get. `lock` is the error that kept it from the lock, `marker` the
  // generation recorded; `resource` is what the Disk API says about the destination and `published`
  // what it says after a publish request. None is an error, and so is false.
  datatype Answers = Answers(
    lock: Option<UploadError>,
    marker: Option<string>,
    staged: Staged,
    directories: bool,
    link: Link,
    put: bool,
    resource: Option<string>,
    published: Option<string>,
    recorded: bool,
    deleted: bool)

  // The public URL of the resource already at the destination: its own, or else that of publishing it.
  function ExistingResult(publish: bool, resource: Option<string>, published: Option<string>)
    : (r: Result<string, UploadError>)
    ensures r.Ok? && publish ==> Https(r.value)
    ensures r.Ok? && !publish ==> r.value == ""
    ensures resource.None? ==> r == Err(Other)
  {
    if resource.None? then Err(Other)
    else if !publish then Ok("")
    else if Https(resource.value) then Ok(resource.value)
    else Published(published)
  }

  function Published(published: Option<string>): (r: Result<string, UploadError>)
    ensures r.Ok? ==> Https(r.value)
  {
    if published.Some? && Https(published.value) then Ok(published.value) else Err(Other)
  }

  // Recording the generation and deleting the staged object once a URL is known.
  function Finished(url: Result<string, UploadError>, a: Answers): Result<string, UploadError>
  {
    if url.Ok? && !(a.recorded && a.deleted) then Err(Other) else url
  }

  // Putting the content at the link, and publishing it if that is wanted.
  function PutResult(file: UploadFile, url: string, a: Answers): Result<string, UploadError>
  {
    if !Https(url) || !a.put then Err(Other)
    else if file.publish then Published(a.published)
    else Ok("")
  }

  /** What one attempt at a file returns: an https URL where the file is to be published and none
      otherwise, and only when the marker has been seen or put at the file's generation or past it, or
      the staged object is gone; that the lock is busy exactly when the lock was. */
  function UploadOne(file: UploadFile, a: Answers): (r: Result<string, UploadError>)
    ensures r.Ok? && file.publish ==> Https(r.value)
    ensures r.Ok? && !file.publish ==> r.value == ""
    ensures r == Err(Busy) <==> a.lock == Some(Busy)
    ensures r.Ok? ==> a.lock.None? && a.marker.Some?
    ensures r.Ok? && !Le(file.generation, a.marker.value) && !a.staged.Gone? ==> a.recorded
    ensures r.Ok? && !a.staged.Gone? ==> a.deleted
  {
    var existing := ExistingResult(file.publish, a.resource, a.published);
    if a.lock.Some? then Err(a.lock.value)
    else if a.marker.None? then Err(Other)
    else if Le(file.generation, a.marker.value) then if a.deleted then existing else Err(Other)
    else if a.staged.Gone? then existing
    else if a.staged.Unreadable? || !a.directories || a.link.NoAnswer? then Err(Other)
    else if a.link.Conflict? then Finished(existing, a)
    else Finished(PutResult(file, a.link.url, a), a)
  }

  // ----- Retrying a file -----

  // The answers of every attempt at every file.
  type Replies = (nat, nat) -> Answers

  function Attempt(job: UploadJob, replies: Replies, i: nat, k: nat): Result<string, UploadError>
    requires i < |job.files|
  {
    UploadOne(job.files[i], replies(i, k))
  }

  function Attempts(file: UploadFile): nat { if file.googleMirrored then 1 else 3 }

  // The last answer of retrying a file until an attempt succeeds or none is left.
  function Retried(job: UploadJob, replies: Replies, i: nat, from: nat, limit: nat): Result<string, UploadError>
    requires i < |job.files| && from < limit
    decreases limit - from
  {
    var r := Attempt(job, replies, i, from);
    if r.Ok? || from + 1 == limit then r else Retried(job, replies, i, from + 1, limit)
  }

  function FileResult(job: UploadJob, replies: Replies, i: nat): Result<string, UploadError>
    requires i < |job.files|
  {
    Retried(job, replies, i, 0, Attempts(job.files[i]))
  }

  // The attempt whose result counts: the first that succeeds, or the last one allowed.
  ghost predicate Decides(job: UploadJob, replies: Replies, i: nat, k: nat)
    requires i < |job.files|
  {
    && k < Attempts(job.files[i])
    && (forall e: nat :: e < k ==> Attempt(job, replies, i, e).Err?)
    && (Attempt(job, replies, i, k).Ok? || k + 1 == Attempts(job.files[i]))
  }

  /** Tries a file until an attempt succeeds or none is left. It succeeds exactly when one of the
      allowed attempts does, and the result is that of the first such attempt, or else of the last. */
  method TryFile(job: UploadJob, replies: Replies, i: nat) returns (result: Result<string, UploadError>, ghost k: nat)
    requires i < |job.files|
    ensures result == FileResult(job, replies, i)
    ensures result.Ok? <==> exists e: nat :: e < Attempts(job.files[i]) && Attempt(job, replies, i, e).Ok?
    ensures Decides(job, replies, i, k) && result == Attempt(job, replies, i, k)
  {
    var attempts := Attempts(job.files[i]);
    result := UploadOne(job.files[i], replies(i, 0));
    var attempt := 0;
    while result.Err? && attempt + 1 < attempts
      invariant attempt < attempts && result == Attempt(job, replies, i, attempt)
      invariant forall e: nat :: e < attempt ==> Attempt(job, replies, i, e).Err?
      invariant FileResult(job, replies, i) == Retried(job, replies, i, attempt, attempts)
      decreases attempts - attempt
    {
      attempt := attempt + 1;
      result := UploadOne(job.files[i], replies(i, attempt));
    }
    k := attempt;
  }

  lemma {:induction false} RetriedIsHttps(job: UploadJob, replies: Replies, i: nat, from: nat, limit: nat)
    requires i < |job.files| && job.files[i].publish && from < limit
    ensures var r := Retried(job, replies, i, from, limit); r.Ok? ==> Https(r.value)
    decreases limit - from
  {
    if Attempt(job, replies, i, from).Err? && from + 1 < limit {
      RetriedIsHttps(job, replies, i, from + 1, limit);
    }
  }

  // ----- All files, and the report -----

  datatype Completion = Completion(success: bool, publicURLs: map<string, string>)

  // How an invocation ended: whether it returned an error, which completion it asked to record, and
  // whether it deleted what the job had staged.
  datatype Ending = Ending(error: bool, completion: Option<Completion>, swept: bool)

  // Reporting a failure and, once it is accepted, deleting what the job staged.
  function Fail(job: UploadJob, urls: map<string, string>, accepted: bool): Ending
  {
    if !job.hasCallback then Ending(false, None, true)
    else Ending(!accepted, Some(Completion(false, urls)), accepted)
  }

  // The URLs collected while the first files went well: those of the published ones, by role.
  ghost predicate Collected(job: UploadJob, replies: Replies, urls: map<string, string>, n: nat)
    requires n <= |job.files|
  {
    && (forall i :: 0 <= i < n ==> FileResult(job, replies, i).Ok?)
    && (forall i :: 0 <= i < n && job.files[i].publish ==> CollectedAt(job, replies, urls, i))
    && (forall role :: role in urls ==> exists i :: 0 <= i < n && job.files[i].publish && job.files[i].role == role)
  }

  ghost predicate CollectedAt(job: UploadJob, replies: Replies, urls: map<string, string>, i: nat)
    requires i < |job.files|
  {
    var role := job.files[i].role;
    role in urls && Https(urls[role]) && FileResult(job, replies, i) == Ok(urls[role])
  }

  lemma CollectedOne(job: UploadJob, replies: Replies, urls: map<string, string>, n: nat)
    requires UniqueRoles(job.files) && n < |job.files| && Collected(job, replies, urls, n)
    requires FileResult(job, replies, n).Ok?
    ensures var file := job.files[n];
            var more := if file.publish then urls[file.role := FileResult(job, replies, n).value] else urls;
            Collected(job, replies, more, n + 1)
  {
    if job.files[n].publish {
      RetriedIsHttps(job, replies, n, 0, Attempts(job.files[n]));
      var more := urls[job.files[n].role := FileResult(job, replies, n).value];
      forall i | 0 <= i < n && job.files[i].publish ensures CollectedAt(job, replies, more, i) {
        assert CollectedAt(job, replies, urls, i);
      }
      forall role | role in more
        ensures exists i :: 0 <= i < n + 1 && job.files[i].publish && job.files[i].role == role
      {
        if role == job.files[n].role {
          assert job.files[n].publish;
        } else {
          var i :| 0 <= i < n && job.files[i].publish && job.files[i].role == role;
        }
      }
    }
  }

  // Uploads the files in order until one fails for good.
  method UploadFiles(job: UploadJob, replies: Replies)
    returns (urls: map<string, string>, done: nat, cause: Option<UploadError>)
    requires UniqueRoles(job.files)
    ensures done <= |job.files| && Collected(job, replies, urls, done)
    ensures cause.None? ==> done == |job.files|
    ensures cause.Some? ==> done < |job.files| && FileResult(job, replies, done) == Err(cause.value)
  {
    urls, done := map[], 0;
    while done < |job.files|
      invariant done <= |job.files| && Collected(job, replies, urls, done)
    {
      var result, _ := TryFile(job, replies, done);
      if result.Err? {
        return urls, done, Some(result.error);
      }
      CollectedOne(job, replies, urls, done);
      if job.files[done].publish {
        urls := urls[job.files[done].role := result.value];
      }
      done := done + 1;
    }
    cause := None;
  }

  // How an invocation ends that goes on in the protocol from this phase.
  function EndingFrom(p: Phase, urls: map<string, string>, accepted: bool): Ending
    requires p.Concluding()
  {
    match p
    case Reporting(success) => Ending(!accepted, Some(Completion(success, urls)), accepted && !success)
    case Sweeping(_) => Ending(false, None, true)
    case Stopped(success) => Ending(!success, None, false)
  }

  /** The protocol's concluding steps end as an invocation does: its report is the completion the run
      asks for, the run sweeps exactly when the invocation does, and it stops with an error exactly when
      the invocation returns one. */
  lemma EndsAsInvoked(c: Config, s: State, run: Run, urls: map<string, string>, accepted: bool)
    requires Fits(c, run) && run.phase.Concluding()
    ensures var e, end := Conclude(c, s, run, if accepted then Done else Error), EndingFrom(run.phase, urls, accepted);
            && (end.error <==> e.next == Stopped(false))
            && (run.phase.Reporting? ==> (end.swept <==> e.next.Sweeping?))
            && (run.phase.Sweeping? ==> end.swept && e.unstage <= set f | f in c.jobs[run.job].files :: f.staged)
            && (forall x :: x in e.complete ==> end.completion.Some? && x == (run.job, end.completion.value.success))
  {
  }

  /** Uploads the files and reports. `replies(i, k)` are the answers the k-th attempt at file i gets, and
      `accepted` is whether the completion store took the report. A success is reported exactly when
      there is a callback and every file succeeded, and names exactly the published roles, each with
      the https URL of its file; a failure names those published before it. Any failure ends as the
      protocol gives up. Staged objects are deleted only after an accepted failure report, or where
      nobody waits for one and all files are mirrored. */
  method Process(job: UploadJob, token: bool, replies: Replies, accepted: bool)
    returns (r: Ending, ghost done: nat)
    requires ValidJob(job)
    ensures done <= |job.files| && (done < |job.files| && token ==> FileResult(job, replies, done).Err?)
    ensures var ok := token && done == |job.files|;
            && (r.completion.Some? && r.completion.value.success <==> job.hasCallback && ok)
            && (ok ==> r.error == (job.hasCallback && !accepted) && !r.swept)
            && (!ok && r.swept ==> AllMirrored(Seen(job)) || (job.hasCallback && r.completion.Some?))
            && (r.swept ==> !r.error && (job.hasCallback ==> accepted))
    ensures !(token && done == |job.files|) ==>
              var unreportable := !token || FileResult(job, replies, done) == Err(Busy);
              exists urls :: r == EndingFrom(GiveUp(Seen(job), unreportable), urls, accepted)
    ensures r.completion.Some? ==>
              job.hasCallback && Collected(job, replies, r.completion.value.publicURLs, if token then done else 0)
    ensures !r.error && job.hasCallback ==> r.completion.Some?
  {
    var mirrored := AllMirrored(Seen(job));
    if !token {
      r, done := if mirrored then Fail(job, map[], accepted) else Ending(true, None, false), 0;
      assert r == EndingFrom(GiveUp(Seen(job), true), map[], accepted);
      return;
    }
    var urls, reached, cause := UploadFiles(job, replies);
    done := reached;
    if cause.Some? {
      if mirrored {
        r := Fail(job, urls, accepted);
      } else if cause.value.Busy? || !job.hasCallback {
        r := Ending(true, None, false);
      } else {
        r := Fail(job, urls, accepted);
      }
      assert r == EndingFrom(GiveUp(Seen(job), cause.value.Busy?), urls, accepted);
      return;
    }
    if !job.hasCallback {
      return Ending(false, None, false), done;
    }
    return Ending(!accepted, Some(Completion(true, urls)), false), done;
  }
}
