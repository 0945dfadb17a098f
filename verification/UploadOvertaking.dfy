/** Exactly when the uploader can lose a file, or leave old content over new: when a destination has
    rivals. A run of the older job is overtaken between its link request and its upload. */
module UploadOvertaking {
  import opened Options
  import opened StringOrder
  import opened UploadGeneration
  import opened UploadProtocol
  import opened UploadLock
  import opened UploadFreshness
  import opened UploadHistory
  import opened UploadSmooth
  import opened UploadRivals

  // The first file of a job at a destination.
  lemma FirstAt(c: Config, d: string, j: string, i: nat) returns (first: nat)
    requires Accepted(c) && IsFileAt(c, d, j, i)
    ensures first <= i && IsFileAt(c, d, j, first) && c.jobs[j].files[first].generation == c.jobs[j].files[i].generation
    ensures forall k :: 0 <= k < first ==> c.jobs[j].files[k].dest != d
  {
    first := 0;
    while c.jobs[j].files[first].dest != d
      invariant first <= i && forall k :: 0 <= k < first ==> c.jobs[j].files[k].dest != d
      decreases i - first
    {
      first := first + 1;
    }
  }

  // Nothing has run yet.
  ghost predicate Untouched(c: Config, s: State)
  {
    && Sound(c, s) && s.runs == map[] && s.completions == {}
    && (forall d :: At(s.locks, d) == [] && At(s.marks, d) == [])
    && (forall j, i :: IsFile(c, j, i) ==> c.jobs[j].files[i].staged in s.staged)
  }

  // One run of a job holds the only lock there is, at an unmarked destination, and no other job has
  // been touched.
  ghost predicate Alone(c: Config, s: State, k: string, m: nat, lock: Version, p: Phase)
    requires IsFile(c, k, m)
  {
    var f := c.jobs[k].files[m];
    && Sound(c, s) && s.completions == {} && s.runs == map[0 := Run(k, p)]
    && lock.body == f.generation && (forall d :: At(s.locks, d) == if d == f.dest then [lock] else [])
    && At(s.marks, f.dest) == [] && f.staged in s.staged
    && (forall j, i :: IsFile(c, j, i) && j != k ==> c.jobs[j].files[i].staged in s.staged)
  }

  // A run of a job comes to one of its files.
  ghost predicate Arrived(c: Config, s: State, k: string, m: nat)
    requires IsFile(c, k, m)
  {
    var f := c.jobs[k].files[m];
    && Sound(c, s) && s.completions == {} && s.runs == map[0 := Run(k, Ready(m))]
    && (forall d :: At(s.locks, d) == []) && At(s.marks, f.dest) == [] && f.staged in s.staged
    && (forall j, i :: IsFile(c, j, i) && j != k ==> c.jobs[j].files[i].staged in s.staged)
  }

  lemma Arrives(c: Config, start: State, k: string, m: nat) returns (s: State)
    requires Accepted(c) && Untouched(c, start) && IsFile(c, k, m)
    requires forall i :: 0 <= i < m ==> c.jobs[k].files[i].dest != c.jobs[k].files[m].dest
    ensures Reaches(c, start, s) && s.now == start.now && Arrived(c, s, k, m)
  {
    var a := Boots(c, start, 0, k);
    s := PassesFiles(c, a, 0, k, 0, m);
    ReachesThen(c, start, a, s);
    StagedRemains(c, start, a, s, k, m);
    assert forall i :: 0 <= i < |c.jobs[k].files[0..m]| ==> c.jobs[k].files[0..m][i].dest != c.jobs[k].files[m].dest;
  }

  lemma ReachesLock(c: Config, start: State, s: State, k: string, m: nat) returns (t: State, lock: Version)
    requires WellFormed(c, start) && Reaches(c, start, s) && s.now == start.now && IsFile(c, k, m)
    requires Arrived(c, s, k, m)
    ensures Reaches(c, start, t) && t.now == start.now && Alone(c, t, k, m, lock, Locked(m, lock))
  {
    t, lock := Acquires(c, s, 0, k, m);
    ReachesThen(c, start, s, t);
    AloneLocked(c, s, t, k, m, lock);
  }

  lemma AloneLocked(c: Config, s: State, t: State, k: string, m: nat, lock: Version)
    requires IsFile(c, k, m) && Arrived(c, s, k, m) && HasLock(c, s, t, 0, k, m, lock)
    ensures Alone(c, t, k, m, lock, Locked(m, lock))
  {
  }

  // The run goes on to the brink of its upload.
  lemma ReachesBrink(c: Config, start: State, s: State, k: string, m: nat, lock: Version) returns (t: State)
    requires Accepted(c) && WellFormed(c, start) && IsFile(c, k, m)
    requires Reaches(c, start, s) && s.now == start.now && Alone(c, s, k, m, lock, Locked(m, lock))
    ensures Reaches(c, start, t) && t.now == start.now && Alone(c, t, k, m, lock, Linking(m, lock, []))
  {
    var d := c.jobs[k].files[m].dest;
    var a := Next(c, s, 0);
    Reads(c, s, 0, k, m, lock);
    NotBelowNothing(c.jobs[k].files[m].generation);
    NextIsLocal(c, s, 0, k, Locked(m, lock));
    t := Next(c, a, 0);
    Fetches(c, a, 0, k, m, lock, []);
    NextIsLocal(c, a, 0, k, Fetching(m, lock, []));
    Onward(c, s, a, 0, d);
    ReachesThen(c, start, s, t);
    ReachesKeepsLockInv(c, s, t);
    AloneStill(c, s, t, k, m, lock, Locked(m, lock), Linking(m, lock, []));
  }

  lemma AloneStill(c: Config, s: State, t: State, k: string, m: nat, lock: Version, p: Phase, q: Phase)
    requires IsFile(c, k, m) && Alone(c, s, k, m, lock, p) && Sound(c, t) && Local(s, t, 0, c.jobs[k].files[m].dest)
    requires t.runs[0] == Run(k, q) && SameLocks(s, t, c.jobs[k].files[m].dest)
    requires SameData(s, t, c.jobs[k].files[m].dest)
    ensures Alone(c, t, k, m, lock, q)
  {
  }

  lemma NotBelowNothing(generation: string)
    requires ValidGeneration(generation)
    ensures !Le(generation, "")
  {
  }

  // Passing the earlier files of a job leaves every other staged object.
  lemma StagedRemains(c: Config, start: State, a: State, b: State, k: string, m: nat)
    requires Accepted(c) && Untouched(c, start) && IsFile(c, k, m) && WellFormed(c, a)
    requires a.staged == start.staged && Passed(c, a, b, 0, k, 0, m)
    ensures forall j, i :: IsFile(c, j, i) && (j != k || i == m) ==> c.jobs[j].files[i].staged in b.staged
  {
    forall j, i | IsFile(c, j, i) && (j != k || i == m) ensures c.jobs[j].files[i].staged in b.staged {
      assert forall n :: 0 <= n < m ==> c.jobs[k].files[0..m][n] == c.jobs[k].files[n];
      assert forall n :: 0 <= n < m ==> c.jobs[k].files[n].staged != c.jobs[j].files[i].staged;
    }
  }

  lemma StartsUntouched(c: Config, now: int, disk: map<string, string>)
    ensures Untouched(c, Initial(c, now, disk))
  {
  }

  // ----- The older job's run waits while its lock becomes stale -----

  // A run of the older job about to ask for its upload link, under a lock that is stale.
  ghost predicate Waiting(c: Config, s: State, k: string, m: nat, lock: Version)
    requires IsFile(c, k, m)
  {
    Alone(c, s, k, m, lock, Linking(m, lock, [])) && Stale(lock.body, s.now)
  }

  lemma Waits(c: Config, start: State, s: State, k: string, m: nat, lock: Version) returns (t: State)
    requires WellFormed(c, start) && Reaches(c, start, s) && IsFile(c, k, m)
    requires Alone(c, s, k, m, lock, Linking(m, lock, [])) && Overtakable(lock.body)
    ensures Reaches(c, start, t) && Waiting(c, t, k, m, lock)
  {
    var past := Stamp(lock.body) + LOCK_STALE_AFTER + 1;
    var span := if past <= s.now then 0 else past - s.now;
    t := Apply(c, s, Tick(span));
    ReachesNext(c, s, Tick(span));
    ReachesKeepsLockInv(c, s, t);
    ReachesThen(c, start, s, t);
    StaleExactly(lock.body, t.now);
  }

  lemma ReachesWaiting(c: Config, start: State, k: string, m: nat) returns (t: State, lock: Version)
    requires Accepted(c) && Untouched(c, start) && IsFile(c, k, m) && Overtakable(c.jobs[k].files[m].generation)
    requires forall i :: 0 <= i < m ==> c.jobs[k].files[i].dest != c.jobs[k].files[m].dest
    ensures Reaches(c, start, t) && Waiting(c, t, k, m, lock)
  {
    var a := Arrives(c, start, k, m);
    var b;
    b, lock := ReachesLock(c, start, a, k, m);
    var d := ReachesBrink(c, start, b, k, m, lock);
    t := Waits(c, start, d, k, m, lock);
  }

  // ----- The newer job's run overtakes it -----

  lemma Overtakes(c: Config, start: State, s: State, k: string, m: nat, lock: Version, j: string, n: nat)
    returns (a: State, t: State)
    requires WellFormed(c, start) && Reaches(c, start, s) && IsFile(c, k, m) && Waiting(c, s, k, m, lock)
    requires j in c.jobs && n <= |c.jobs[j].files|
    ensures Sound(c, a) && SameStore(s, a) && a.runs == s.runs[1 := Run(j, Ready(0))]
    ensures Passed(c, a, t, 1, j, 0, n) && Reaches(c, start, t)
    ensures t.completions == {} && 0 in t.runs && t.runs[0] == s.runs[0]
  {
    a := Boots(c, s, 1, j);
    assert forall d :: Free(a, d);
    t := PassesFiles(c, a, 1, j, 0, n);
    ReachesThen(c, start, s, a);
    ReachesThen(c, start, a, t);
  }

  lemma StillStands(c: Config, s: State, r: nat, job: string, p: Phase)
    requires WellFormed(c, s) && Stands(c, s, r, job, p)
    ensures Way(c, s, s, r, c.jobs[job].files[p.i].dest)
  {
    ReachesNow(c, s);
  }

  lemma PassedIsGone(c: Config, a: State, t: State, j: string, i: nat)
    requires IsFile(c, j, i) && WellFormed(c, a) && Passed(c, a, t, 1, j, 0, i + 1)
    ensures c.jobs[j].files[i].staged !in t.staged
  {
    assert c.jobs[j].files[0..i+1][i] == c.jobs[j].files[i];
  }

  // The newer job's run passes a file while the older job's run waits.
  lemma Overtaken(c: Config, start: State, s: State, k: string, m: nat, lock: Version, j: string, i: nat)
    returns (t: State)
    requires WellFormed(c, start) && Reaches(c, start, s) && IsFile(c, k, m) && Waiting(c, s, k, m, lock)
    requires IsFile(c, j, i)
    ensures WellFormed(c, t) && Reaches(c, start, t) && c.jobs[j].files[i].staged !in t.staged && t.completions == {}
    ensures Stands(c, t, 0, k, Linking(m, lock, [])) && Way(c, t, t, 0, c.jobs[k].files[m].dest)
  {
    var a;
    a, t := Overtakes(c, start, s, k, m, lock, j, i + 1);
    PassedIsGone(c, a, t, j, i);
    StillStands(c, t, 0, k, Linking(m, lock, []));
  }

  lemma Loses(c: Config, start: State, s: State, k: string, m: nat, lock: Version, j: string, i: nat) returns (t: State)
    requires Accepted(c) && WellFormed(c, start) && Reaches(c, start, s) && IsFile(c, k, m) && Waiting(c, s, k, m, lock)
    requires IsFile(c, j, i) && Older(c, c.jobs[j].files[i].dest, k, m, c.jobs[j].files[i].generation)
    requires !AllMirrored(c.jobs[j])
    ensures Reaches(c, start, t) && Missing(c, t, j, i)
  {
    var b := Overtaken(c, start, s, k, m, lock, j, i);
    t := Finishes(c, b, b, 0, k, m, lock, []);
    ReachesThen(c, start, b, t);
  }

  // When the newer job's run comes to a file, the file is still staged and its lock free to take.
  lemma StillStaged(c: Config, s: State, a: State, b: State, k: string, m: nat, lock: Version, j: string, i: nat)
    requires Accepted(c) && IsFile(c, k, m) && Waiting(c, s, k, m, lock) && SameStore(s, a) && WellFormed(c, a)
    requires IsFile(c, j, i) && j != k && Passed(c, a, b, 1, j, 0, i)
    ensures var f := c.jobs[j].files[i]; Free(b, f.dest) && f.staged in b.staged
  {
    var f, before := c.jobs[j].files[i], c.jobs[j].files[0..i];
    assert forall n :: 0 <= n < i ==> before[n] == c.jobs[j].files[n] && before[n].staged != f.staged;
    assert Free(a, f.dest) && f.staged in a.staged;
  }

  // At its first file there, nothing has been recorded yet.
  lemma Untaken(c: Config, s: State, a: State, b: State, k: string, m: nat, lock: Version, j: string, i: nat)
    requires IsFile(c, k, m) && Waiting(c, s, k, m, lock) && SameStore(s, a) && WellFormed(c, a)
    requires IsFile(c, j, i) && c.jobs[j].files[i].dest == c.jobs[k].files[m].dest
    requires forall n :: 0 <= n < i ==> c.jobs[j].files[n].dest != c.jobs[j].files[i].dest
    requires Passed(c, a, b, 1, j, 0, i)
    ensures At(b.marks, c.jobs[j].files[i].dest) == []
  {
    assert forall n :: 0 <= n < i ==> c.jobs[j].files[0..i][n] == c.jobs[j].files[n];
  }

  // The waiting run gets its link and uploads over whatever is there.
  lemma PutsLate(c: Config, start: State, s: State, k: string, m: nat, lock: Version) returns (t: State)
    requires WellFormed(c, start) && WellFormed(c, s) && Reaches(c, start, s) && IsFile(c, k, m)
    requires Stands(c, s, 0, k, Linking(m, lock, [])) && c.jobs[k].files[m].overwrite
    ensures var f := c.jobs[k].files[m];
            && Reaches(c, start, t) && At(t.marks, f.dest) == At(s.marks, f.dest)
            && Content(t, f.dest) == Some(f.generation)
  {
    var a := Next(c, s, 0);
    AsksForLink(c, s, 0, k, m, lock, []);
    NextIsLocal(c, s, 0, k, Linking(m, lock, []));
    ReachesThen(c, start, s, a);
    t := Next(c, a, 0);
    Puts(c, a, 0, k, m, lock, []);
    NextIsLocal(c, a, 0, k, Uploading(m, lock, []));
    ReachesThen(c, start, a, t);
  }

  lemma PassesNewer(c: Config, start: State, s: State, k: string, m: nat, lock: Version, j: string, i: nat)
    returns (t: State)
    requires WellFormed(c, start) && Reaches(c, start, s) && Sound(c, s) && IsFile(c, k, m) && IsFile(c, j, i)
    requires 0 in s.runs && s.runs[0] == Run(k, Linking(m, lock, [])) && 1 in s.runs && s.runs[1] == Run(j, Ready(i))
    requires var f := c.jobs[j].files[i];
             && Free(s, f.dest) && f.staged in s.staged && At(s.marks, f.dest) == []
             && f.overwrite && f.generation != ""
    ensures WellFormed(c, t) && Reaches(c, start, t) && Stands(c, t, 0, k, Linking(m, lock, []))
    ensures var f := c.jobs[j].files[i]; Recorded(t, f.dest) == f.generation
  {
    t := Passes(c, s, 1, j, i);
    ReachesThen(c, start, s, t);
    assert t.runs[0] == s.runs[0];
  }

  // The newer job's run uploads and records its first file there while the older job's run waits.
  lemma UploadsNewer(c: Config, start: State, s: State, k: string, m: nat, lock: Version, j: string, i: nat)
    returns (t: State)
    requires Accepted(c) && WellFormed(c, start) && Reaches(c, start, s) && IsFile(c, k, m) && Waiting(c, s, k, m, lock)
    requires IsFile(c, j, i) && Older(c, c.jobs[j].files[i].dest, k, m, c.jobs[j].files[i].generation)
    requires c.jobs[j].files[i].overwrite
    requires forall n :: 0 <= n < i ==> c.jobs[j].files[n].dest != c.jobs[j].files[i].dest
    ensures WellFormed(c, t) && Reaches(c, start, t) && Stands(c, t, 0, k, Linking(m, lock, []))
    ensures var f := c.jobs[j].files[i]; Recorded(t, f.dest) == f.generation
  {
    var a, b := Overtakes(c, start, s, k, m, lock, j, i);
    assert j != k by {
      Reflexive(c.jobs[j].files[i].generation);
    }
    StillStaged(c, s, a, b, k, m, lock, j, i);
    Untaken(c, s, a, b, k, m, lock, j, i);
    t := PassesNewer(c, start, b, k, m, lock, j, i);
  }

  lemma GoesBack(c: Config, start: State, s: State, k: string, m: nat, lock: Version, j: string, i: nat)
    returns (t: State)
    requires Accepted(c) && WellFormed(c, start) && Reaches(c, start, s) && IsFile(c, k, m) && Waiting(c, s, k, m, lock)
    requires IsFile(c, j, i) && Older(c, c.jobs[j].files[i].dest, k, m, c.jobs[j].files[i].generation)
    requires AllOverwrite(c, c.jobs[j].files[i].dest)
    requires forall n :: 0 <= n < i ==> c.jobs[j].files[n].dest != c.jobs[j].files[i].dest
    ensures Reaches(c, start, t) && !DiskOk(t, c.jobs[j].files[i].dest)
  {
    var e := UploadsNewer(c, start, s, k, m, lock, j, i);
    t := PutsLate(c, start, e, k, m, lock);
    assert Recorded(t, c.jobs[j].files[i].dest) == c.jobs[j].files[i].generation;
  }

  lemma CanLose(c: Config, start: State, j: string, i: nat) returns (t: State)
    requires Accepted(c) && Untouched(c, start) && IsFile(c, j, i) && !AllMirrored(c.jobs[j]) && HasRival(c, j, i)
    ensures Reaches(c, start, t) && Missing(c, t, j, i)
  {
    var d, g := c.jobs[j].files[i].dest, c.jobs[j].files[i].generation;
    var k, m :| Older(c, d, k, m, g);
    var n := FirstAt(c, d, k, m);
    var s, lock := ReachesWaiting(c, start, k, n);
    t := Loses(c, start, s, k, n, lock, j, i);
  }

  lemma CanGoBack(c: Config, start: State, d: string) returns (t: State)
    requires Accepted(c) && Untouched(c, start) && AllOverwrite(c, d) && HasRivals(c, d)
    ensures Reaches(c, start, t) && !DiskOk(t, d)
  {
    var j, i :| IsFileAt(c, d, j, i) && HasRival(c, j, i);
    var k, m :| Older(c, d, k, m, c.jobs[j].files[i].generation);
    var x := FirstAt(c, d, j, i);
    var n := FirstAt(c, d, k, m);
    var s, lock := ReachesWaiting(c, start, k, n);
    t := GoesBack(c, start, s, k, n, lock, j, x);
  }

  // ----- Content a finished file does not keep -----

  // The newer job's run finishes a file while the older job's run waits.
  lemma FinishesNewer(c: Config, start: State, s: State, k: string, m: nat, lock: Version, j: string, i: nat)
    returns (t: State)
    requires WellFormed(c, start) && Reaches(c, start, s) && Sound(c, s) && IsFile(c, k, m) && IsFile(c, j, i)
    requires 0 in s.runs && s.runs[0] == Run(k, Linking(m, lock, [])) && 1 in s.runs && s.runs[1] == Run(j, Ready(i))
    requires var f := c.jobs[j].files[i]; Free(s, f.dest) && f.staged in s.staged
    ensures WellFormed(c, t) && Reaches(c, start, t)
    ensures Stands(c, t, 0, k, Linking(m, lock, [])) && Finished(c, t, 1, j, i)
  {
    var a, held := Acquires(c, s, 1, j, i);
    t := LeavesLocked(c, s, a, 1, j, i, held);
    ReachesThen(c, start, s, t);
  }

  lemma FinishedGoesBack(c: Config, start: State, s: State, k: string, m: nat, lock: Version, j: string, i: nat)
    returns (middle: State, t: State)
    requires Accepted(c) && WellFormed(c, start) && Reaches(c, start, s) && IsFile(c, k, m) && Waiting(c, s, k, m, lock)
    requires IsFile(c, j, i) && Older(c, c.jobs[j].files[i].dest, k, m, c.jobs[j].files[i].generation)
    requires AllOverwrite(c, c.jobs[j].files[i].dest)
    ensures WellFormed(c, middle) && Reaches(c, start, middle) && Reaches(c, middle, t) && Finished(c, middle, 1, j, i)
    ensures var f := c.jobs[j].files[i]; !Fresh(t, f.dest, f.generation)
  {
    var a, b := Overtakes(c, start, s, k, m, lock, j, i);
    assert j != k by {
      Reflexive(c.jobs[j].files[i].generation);
    }
    StillStaged(c, s, a, b, k, m, lock, j, i);
    middle := FinishesNewer(c, start, b, k, m, lock, j, i);
    ReachesNow(c, middle);
    t := PutsLate(c, middle, middle, k, m, lock);
  }

  lemma FinishedCanGoBack(c: Config, start: State, j: string, i: nat) returns (middle: State, t: State)
    requires Accepted(c) && Untouched(c, start) && IsFile(c, j, i) && HasRival(c, j, i)
    requires AllOverwrite(c, c.jobs[j].files[i].dest)
    ensures WellFormed(c, middle) && Reaches(c, start, middle) && Reaches(c, middle, t) && Finished(c, middle, 1, j, i)
    ensures var f := c.jobs[j].files[i]; !Fresh(t, f.dest, f.generation)
  {
    var d, g := c.jobs[j].files[i].dest, c.jobs[j].files[i].generation;
    var k, m :| Older(c, d, k, m, g);
    var n := FirstAt(c, d, k, m);
    var s, lock := ReachesWaiting(c, start, k, n);
    middle, t := FinishedGoesBack(c, start, s, k, n, lock, j, i);
  }

  // ----- The exact conditions -----

  /** Some history, without any error, loses a file exactly when its job is not all on Google Drive and
      another job has an older generation for the same destination whose lock can become stale. */
  lemma LostExactly(c: Config, now: int, disk: map<string, string>, j: string, i: nat)
    requires Accepted(c) && IsFile(c, j, i)
    ensures (exists acts :: Missing(c, Exec(c, Initial(c, now, disk), acts), j, i)) <==>
              !AllMirrored(c.jobs[j]) && HasRival(c, j, i)
    ensures !AllMirrored(c.jobs[j]) && HasRival(c, j, i) ==>
              exists acts :: Smooth(acts) && Missing(c, Exec(c, Initial(c, now, disk), acts), j, i)
  {
    var start := Initial(c, now, disk);
    StartsUntouched(c, now, disk);
    if AllMirrored(c.jobs[j]) {
      assert forall acts :: Settled(c, Exec(c, start, acts), j, i);
    } else if !HasRival(c, j, i) {
      forall acts ensures !Missing(c, Exec(c, start, acts), j, i) {
        UnrivalledIsNotLost(c, now, disk, acts, j, i);
      }
    } else {
      var t := CanLose(c, start, j, i);
      var acts :| Smooth(acts) && t == Exec(c, start, acts);
      assert Missing(c, Exec(c, Initial(c, now, disk), acts), j, i);
      assert exists more :: Missing(c, Exec(c, Initial(c, now, disk), more), j, i);
    }
  }

  /** Some history, without any error, leaves a destination with content older than its marker exactly
      when the destination has rivals. */
  lemma GoesBackExactly(c: Config, now: int, disk: map<string, string>, d: string)
    requires Accepted(c) && AllOverwrite(c, d)
    ensures (exists acts :: !DiskOk(Exec(c, Initial(c, now, disk), acts), d)) <==> HasRivals(c, d)
    ensures HasRivals(c, d) ==> exists acts :: Smooth(acts) && !DiskOk(Exec(c, Initial(c, now, disk), acts), d)
  {
    var start := Initial(c, now, disk);
    StartsUntouched(c, now, disk);
    if !HasRivals(c, d) {
      forall acts ensures DiskOk(Exec(c, start, acts), d) {
        UnrivalledNeverGoesBack(c, now, disk, acts, d);
      }
    } else {
      var t := CanGoBack(c, start, d);
      var acts :| Smooth(acts) && t == Exec(c, start, acts);
      assert !DiskOk(Exec(c, Initial(c, now, disk), acts), d);
      assert exists more :: !DiskOk(Exec(c, Initial(c, now, disk), more), d);
    }
  }

  // A history in which a run finishes a file and the destination later holds nothing at or past it.
  ghost predicate Undone(c: Config, start: State, acts: seq<Action>, more: seq<Action>, r: nat, j: string, i: nat)
    requires WellFormed(c, start) && IsFile(c, j, i)
  {
    var s, f := Exec(c, start, acts), c.jobs[j].files[i];
    Finished(c, s, r, j, i) && !Fresh(Exec(c, s, more), f.dest, f.generation)
  }

  /** After a run of an overwriting job has finished a file, some later history leaves the destination
      with older content exactly when another job has an older generation there whose lock can become
      stale. */
  lemma FinishedGoesBackExactly(c: Config, now: int, disk: map<string, string>, j: string, i: nat)
    requires Accepted(c) && IsFile(c, j, i) && AllOverwrite(c, c.jobs[j].files[i].dest)
    ensures (exists acts, more, r :: Undone(c, Initial(c, now, disk), acts, more, r, j, i)) <==> HasRival(c, j, i)
  {
    var start := Initial(c, now, disk);
    if !HasRival(c, j, i) {
      forall acts, more, r | Undone(c, start, acts, more, r, j, i) ensures false {
        UnrivalledStaysFinished(c, now, disk, acts, more, r, j, i);
      }
    } else {
      StartsUntouched(c, now, disk);
      var s, t := FinishedCanGoBack(c, start, j, i);
      var acts :| Smooth(acts) && s == Exec(c, start, acts);
      var more :| Smooth(more) && t == Exec(c, s, more);
      assert Undone(c, Initial(c, now, disk), acts, more, 1, j, i);
    }
  }
}
