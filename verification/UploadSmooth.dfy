/** Runs nobody disturbs: what a run does when all its requests are answered. */
module UploadSmooth {
  import opened Options
  import opened StringOrder
  import opened UploadGeneration
  import opened UploadProtocol
  import opened UploadLock
  import opened UploadFreshness

  // The locks are in order.
  ghost predicate Sound(c: Config, s: State)
  {
    LockInv(c, s)
  }

  // No error, no lost answer and no crash.
  ghost predicate Smooth(acts: seq<Action>)
  {
    forall i :: 0 <= i < |acts| ==> acts[i].Tick? || acts[i].Start? || (acts[i].Request? && acts[i].outcome.Done?)
  }

  ghost predicate Reaches(c: Config, s: State, t: State)
    requires WellFormed(c, s)
  {
    exists acts :: Smooth(acts) && t == Exec(c, s, acts)
  }

  lemma ReachesNow(c: Config, s: State)
    requires WellFormed(c, s)
    ensures Reaches(c, s, s)
  {
    assert Smooth([]) && s == Exec(c, s, []);
  }

  lemma ReachesNext(c: Config, s: State, a: Action)
    requires WellFormed(c, s) && Smooth([a])
    ensures Reaches(c, s, Apply(c, s, a))
  {
    var t := Apply(c, s, a);
    assert [a][1..] == [] && Exec(c, t, []) == t;
    assert t == Exec(c, s, [a]);
  }

  lemma ReachesThen(c: Config, s: State, t: State, u: State)
    requires WellFormed(c, s) && WellFormed(c, t) && Reaches(c, s, t) && Reaches(c, t, u)
    ensures Reaches(c, s, u) && WellFormed(c, u)
  {
    var first :| Smooth(first) && t == Exec(c, s, first);
    var second :| Smooth(second) && u == Exec(c, t, second);
    ExecSplits(c, s, first, second);
    assert Smooth(first + second) && u == Exec(c, s, first + second);
  }

  lemma ReachesKeepsLockInv(c: Config, s: State, t: State)
    requires Sound(c, s) && Reaches(c, s, t)
    ensures Sound(c, t)
  {
    var acts :| Smooth(acts) && t == Exec(c, s, acts);
    ExecKeepsLockInv(c, s, acts);
  }

  // Nothing but one run and one destination has changed.
  ghost predicate Local(s: State, t: State, r: nat, d: string)
  {
    && t.now == s.now && t.completions == s.completions && r in t.runs && t.runs == s.runs[r := t.runs[r]]
    && forall e | e != d ::
         At(t.locks, e) == At(s.locks, e) && At(t.marks, e) == At(s.marks, e) && Content(t, e) == Content(s, e)
  }

  // A run about to take up, or at work on, one of its files.
  predicate Stands(c: Config, s: State, r: nat, job: string, p: Phase)
  {
    r in s.runs && s.runs[r] == Run(job, p) && job in c.jobs && (p.OnFile() || p.Ready?) && p.i < |c.jobs[job].files|
  }

  function Next(c: Config, s: State, r: nat): (t: State)
    requires WellFormed(c, s) && r in s.runs
    ensures WellFormed(c, t)
  {
    Perform(c, s, r, Done)
  }

  lemma CommitIsLocal(s: State, r: nat, file: File, e: Effect)
    requires r in s.runs && e.complete == {}
    ensures Local(s, Commit(s, r, file, e), r, file.dest)
    ensures e.lock.Keep? && e.mark.Keep? && !e.upload ==> forall d :: Local(s, Commit(s, r, file, e), r, d)
  {
  }

  lemma OnFileReportsNothing(c: Config, s: State, r: nat, job: string, p: Phase)
    requires WellFormed(c, s) && Stands(c, s, r, job, p) && !p.Broken?
    ensures var e := Respond(c, s, s.runs[r], Done);
            e.complete == {} && (p.Ready? ==> e.lock.Keep? && e.mark.Keep? && !e.upload)
  {
  }

  lemma NextChangesOnePlace(c: Config, s: State, r: nat, job: string, p: Phase)
    requires WellFormed(c, s) && Stands(c, s, r, job, p) && !p.Broken?
    ensures Local(s, Next(c, s, r), r, c.jobs[job].files[p.i].dest)
  {
    OnFileReportsNothing(c, s, r, job, p);
    CommitIsLocal(s, r, Subject(c, s.runs[r]), Respond(c, s, s.runs[r], Done));
  }

  lemma NextIsLocal(c: Config, s: State, r: nat, job: string, p: Phase)
    requires WellFormed(c, s) && Stands(c, s, r, job, p) && !p.Broken?
    ensures Reaches(c, s, Next(c, s, r)) && Local(s, Next(c, s, r), r, c.jobs[job].files[p.i].dest)
  {
    ReachesNext(c, s, Request(r, Done));
    NextChangesOnePlace(c, s, r, job, p);
  }

  // ----- Taking the lock -----

  // What a step leaves alone at a destination besides its locks.
  ghost predicate SameData(s: State, t: State, d: string)
  {
    t.staged == s.staged && At(t.marks, d) == At(s.marks, d) && Content(t, d) == Content(s, d)
  }

  lemma Contends(c: Config, s: State, r: nat, job: string, i: nat)
    requires WellFormed(c, s) && Stands(c, s, r, job, Ready(i))
    ensures var t, d := Next(c, s, r), c.jobs[job].files[i].dest;
            t.runs[r] == Run(job, Contending(i)) && At(t.locks, d) == At(s.locks, d) && SameData(s, t, d)
  {
  }

  lemma Locks(c: Config, s: State, r: nat, job: string, i: nat)
    requires WellFormed(c, s) && Stands(c, s, r, job, Contending(i)) && At(s.locks, c.jobs[job].files[i].dest) == []
    ensures var t, f := Next(c, s, r), c.jobs[job].files[i];
            var lock := Version(f.generation, |s.issued|);
            t.runs[r] == Run(job, Locked(i, lock)) && At(t.locks, f.dest) == [lock] && SameData(s, t, f.dest)
  {
  }

  lemma Inspects(c: Config, s: State, r: nat, job: string, i: nat)
    requires WellFormed(c, s) && Stands(c, s, r, job, Contending(i)) && At(s.locks, c.jobs[job].files[i].dest) != []
    ensures var t, d := Next(c, s, r), c.jobs[job].files[i].dest;
            t.runs[r] == Run(job, Inspecting(i)) && At(t.locks, d) == At(s.locks, d) && SameData(s, t, d)
  {
  }

  lemma Judges(c: Config, s: State, r: nat, job: string, i: nat)
    requires WellFormed(c, s) && Stands(c, s, r, job, Inspecting(i))
    requires var held := At(s.locks, c.jobs[job].files[i].dest); held != [] && Stale(Last(held).body, s.now)
    ensures var t, d := Next(c, s, r), c.jobs[job].files[i].dest;
            && t.runs[r] == Run(job, Evicting(i, Last(At(s.locks, d))))
            && At(t.locks, d) == At(s.locks, d) && SameData(s, t, d)
  {
  }

  lemma Evicts(c: Config, s: State, r: nat, job: string, i: nat, stale: Version)
    requires c.variant.Aws? && WellFormed(c, s) && Stands(c, s, r, job, Evicting(i, stale))
    requires At(s.locks, c.jobs[job].files[i].dest) == [stale]
    ensures var t, d := Next(c, s, r), c.jobs[job].files[i].dest;
            t.runs[r] == Run(job, Contending(i)) && At(t.locks, d) == [] && SameData(s, t, d)
  {
    assert Drop([stale], stale.id) == [];
  }

  lemma Overwrites(c: Config, s: State, r: nat, job: string, i: nat, stale: Version)
    requires c.variant.Yandex? && WellFormed(c, s) && Stands(c, s, r, job, Evicting(i, stale))
    requires At(s.locks, c.jobs[job].files[i].dest) == [stale]
    ensures var t, f := Next(c, s, r), c.jobs[job].files[i];
            var lock := Version(f.generation, |s.issued|);
            t.runs[r] == Run(job, Replaced(i, lock, stale))
            && At(t.locks, f.dest) == [stale, lock] && SameData(s, t, f.dest)
  {
  }

  lemma Replaces(c: Config, s: State, r: nat, job: string, i: nat, lock: Version, stale: Version)
    requires WellFormed(c, s) && Stands(c, s, r, job, Replaced(i, lock, stale))
    requires At(s.locks, c.jobs[job].files[i].dest) == [stale, lock] && lock.id != stale.id
    ensures var t, d := Next(c, s, r), c.jobs[job].files[i].dest;
            t.runs[r] == Run(job, Locked(i, lock)) && At(t.locks, d) == [lock] && SameData(s, t, d)
  {
    assert [stale, lock][..1] == [stale] && Drop([stale], stale.id) == [] && Drop([stale, lock], stale.id) == [lock];
  }

  // A destination whose lock is free or can be taken over.
  ghost predicate Free(s: State, d: string)
  {
    At(s.locks, d) == [] || (|At(s.locks, d)| == 1 && Stale(At(s.locks, d)[0].body, s.now))
  }

  ghost predicate HasLock(c: Config, s: State, t: State, r: nat, job: string, i: nat, lock: Version)
    requires WellFormed(c, s) && job in c.jobs && i < |c.jobs[job].files|
  {
    var f := c.jobs[job].files[i];
    && Sound(c, t) && Reaches(c, s, t) && Local(s, t, r, f.dest) && t.runs[r] == Run(job, Locked(i, lock))
    && At(t.locks, f.dest) == [lock] && lock.body == f.generation && SameData(s, t, f.dest)
  }

  // Two stretches of one run's way at one file.
  lemma Onward(c: Config, s: State, t: State, r: nat, d: string)
    requires WellFormed(c, s) && WellFormed(c, t) && r in t.runs && Reaches(c, s, t) && Local(s, t, r, d)
    requires Reaches(c, t, Next(c, t, r)) && Local(t, Next(c, t, r), r, d)
    ensures Reaches(c, s, Next(c, t, r)) && Local(s, Next(c, t, r), r, d)
  {
    ReachesThen(c, s, t, Next(c, t, r));
  }

  lemma LocksFree(c: Config, s: State, u: State, r: nat, job: string, i: nat) returns (t: State, lock: Version)
    requires WellFormed(c, u) && Sound(c, s) && Stands(c, s, r, job, Contending(i))
    requires At(s.locks, c.jobs[job].files[i].dest) == []
    requires var d := c.jobs[job].files[i].dest; Reaches(c, u, s) && Local(u, s, r, d) && SameData(u, s, d)
    ensures HasLock(c, u, t, r, job, i, lock)
  {
    t := Next(c, s, r);
    lock := Version(c.jobs[job].files[i].generation, |s.issued|);
    Locks(c, s, r, job, i);
    NextIsLocal(c, s, r, job, Contending(i));
    Onward(c, u, s, r, c.jobs[job].files[i].dest);
    ReachesKeepsLockInv(c, s, t);
  }

  lemma TakesOver(c: Config, s: State, u: State, r: nat, job: string, i: nat, stale: Version)
    returns (t: State, lock: Version)
    requires WellFormed(c, u) && Sound(c, s) && Stands(c, s, r, job, Evicting(i, stale))
    requires At(s.locks, c.jobs[job].files[i].dest) == [stale]
    requires var d := c.jobs[job].files[i].dest; Reaches(c, u, s) && Local(u, s, r, d) && SameData(u, s, d)
    ensures HasLock(c, u, t, r, job, i, lock)
  {
    var d := c.jobs[job].files[i].dest;
    var v := Next(c, s, r);
    NextIsLocal(c, s, r, job, Evicting(i, stale));
    Onward(c, u, s, r, d);
    ReachesKeepsLockInv(c, s, v);
    if c.variant.Aws? {
      Evicts(c, s, r, job, i, stale);
      t, lock := LocksFree(c, v, u, r, job, i);
    } else {
      Overwrites(c, s, r, job, i, stale);
      lock := Version(c.jobs[job].files[i].generation, |s.issued|);
      assert stale in At(s.locks, d) && Known(s, stale);
      t := Next(c, v, r);
      Replaces(c, v, r, job, i, lock, stale);
      NextIsLocal(c, v, r, job, Replaced(i, lock, stale));
      Onward(c, u, v, r, d);
      ReachesKeepsLockInv(c, v, t);
    }
  }

  // A run finds the lock held and stale.
  lemma FindsStale(c: Config, s: State, u: State, r: nat, job: string, i: nat) returns (t: State)
    requires WellFormed(c, u) && Sound(c, s) && Stands(c, s, r, job, Contending(i))
    requires var d := c.jobs[job].files[i].dest; At(s.locks, d) != [] && Stale(Last(At(s.locks, d)).body, s.now)
    requires var d := c.jobs[job].files[i].dest; Reaches(c, u, s) && Local(u, s, r, d) && SameData(u, s, d)
    ensures Sound(c, t) && r in t.runs
    ensures var d := c.jobs[job].files[i].dest;
            && Reaches(c, u, t) && Local(u, t, r, d) && SameData(u, t, d)
            && t.runs[r] == Run(job, Evicting(i, Last(At(s.locks, d)))) && At(t.locks, d) == At(s.locks, d)
  {
    var d := c.jobs[job].files[i].dest;
    var a := Next(c, s, r);
    Inspects(c, s, r, job, i);
    NextIsLocal(c, s, r, job, Contending(i));
    Onward(c, u, s, r, d);
    t := Next(c, a, r);
    Judges(c, a, r, job, i);
    NextIsLocal(c, a, r, job, Inspecting(i));
    Onward(c, u, a, r, d);
    ReachesKeepsLockInv(c, s, a);
    ReachesKeepsLockInv(c, a, t);
  }

  lemma Acquires(c: Config, s: State, r: nat, job: string, i: nat) returns (t: State, lock: Version)
    requires Sound(c, s) && Stands(c, s, r, job, Ready(i)) && Free(s, c.jobs[job].files[i].dest)
    ensures HasLock(c, s, t, r, job, i, lock)
  {
    var d := c.jobs[job].files[i].dest;
    var a := Next(c, s, r);
    Contends(c, s, r, job, i);
    NextIsLocal(c, s, r, job, Ready(i));
    ReachesKeepsLockInv(c, s, a);
    if At(s.locks, d) == [] {
      t, lock := LocksFree(c, a, s, r, job, i);
    } else {
      var b := FindsStale(c, a, s, r, job, i);
      t, lock := TakesOver(c, b, s, r, job, i, Last(At(s.locks, d)));
    }
  }

  // ----- From the lock to the next file -----

  // What a step leaves alone at a destination besides its marker and content.
  ghost predicate SameLocks(s: State, t: State, d: string)
  {
    At(t.locks, d) == At(s.locks, d)
  }

  lemma Reads(c: Config, s: State, r: nat, job: string, i: nat, lock: Version)
    requires WellFormed(c, s) && Stands(c, s, r, job, Locked(i, lock))
    ensures var t, f := Next(c, s, r), c.jobs[job].files[i];
            var marks := At(s.marks, f.dest);
            && SameLocks(s, t, f.dest) && SameData(s, t, f.dest)
            && t.runs[r] == Run(job, if Le(f.generation, Recorded(s, f.dest)) then Superseded(i, lock)
                                     else Fetching(i, lock, if marks == [] then [] else [Last(marks)]))
  {
  }

  lemma Fetches(c: Config, s: State, r: nat, job: string, i: nat, lock: Version, previous: seq<Version>)
    requires WellFormed(c, s) && Stands(c, s, r, job, Fetching(i, lock, previous))
    ensures var t, f := Next(c, s, r), c.jobs[job].files[i];
            && SameLocks(s, t, f.dest) && SameData(s, t, f.dest)
            && t.runs[r] == Run(job, if f.staged in s.staged then Linking(i, lock, previous)
                                    else Leaving(i, lock, Absent))
  {
  }

  lemma AsksForLink(c: Config, s: State, r: nat, job: string, i: nat, lock: Version, previous: seq<Version>)
    requires WellFormed(c, s) && Stands(c, s, r, job, Linking(i, lock, previous))
    ensures var t, f := Next(c, s, r), c.jobs[job].files[i];
            && SameLocks(s, t, f.dest) && SameData(s, t, f.dest)
            && t.runs[r] == Run(job, if !f.overwrite && f.dest in s.disk then Existing(i, lock, previous)
                                     else Uploading(i, lock, previous))
  {
  }

  lemma Puts(c: Config, s: State, r: nat, job: string, i: nat, lock: Version, previous: seq<Version>)
    requires WellFormed(c, s) && Stands(c, s, r, job, Uploading(i, lock, previous))
    ensures var t, f := Next(c, s, r), c.jobs[job].files[i];
            && SameLocks(s, t, f.dest) && t.staged == s.staged && At(t.marks, f.dest) == At(s.marks, f.dest)
            && Content(t, f.dest) == Some(f.generation) && t.runs[r] == Run(job, Uploaded(i, lock, previous))
  {
  }

  lemma Marks(c: Config, s: State, r: nat, job: string, i: nat, lock: Version, previous: seq<Version>)
    requires WellFormed(c, s)
    requires Stands(c, s, r, job, Uploaded(i, lock, previous)) || Stands(c, s, r, job, Existing(i, lock, previous))
    ensures var t, f := Next(c, s, r), c.jobs[job].files[i];
            && SameLocks(s, t, f.dest) && t.staged == s.staged && Content(t, f.dest) == Content(s, f.dest)
            && At(t.marks, f.dest) == At(s.marks, f.dest) + [Version(f.generation, |s.issued|)]
            && t.runs[r] == Run(job, Marked(i, lock, previous))
  {
  }

  lemma Trims(c: Config, s: State, r: nat, job: string, i: nat, lock: Version, previous: seq<Version>)
    requires WellFormed(c, s) && Stands(c, s, r, job, Marked(i, lock, previous))
    ensures var t, f := Next(c, s, r), c.jobs[job].files[i];
            && SameLocks(s, t, f.dest) && t.staged == s.staged && Content(t, f.dest) == Content(s, f.dest)
            && (previous == [] ==> At(t.marks, f.dest) == At(s.marks, f.dest))
            && t.runs[r] == Run(job, Tidying(i, lock))
  {
  }

  lemma Tidies(c: Config, s: State, r: nat, job: string, i: nat, lock: Version)
    requires WellFormed(c, s)
    requires Stands(c, s, r, job, Tidying(i, lock)) || Stands(c, s, r, job, Superseded(i, lock))
    ensures var t, f := Next(c, s, r), c.jobs[job].files[i];
            && SameLocks(s, t, f.dest) && t.staged == s.staged - {f.staged}
            && At(t.marks, f.dest) == At(s.marks, f.dest) && Content(t, f.dest) == Content(s, f.dest)
            && t.runs[r] == Run(job, Leaving(i, lock, Exit.Current))
  {
  }

  lemma Releases(c: Config, s: State, r: nat, job: string, i: nat, lock: Version, exit: Exit)
    requires WellFormed(c, s) && Stands(c, s, r, job, Leaving(i, lock, exit)) && !exit.Failed?
    requires At(s.locks, c.jobs[job].files[i].dest) == [lock]
    ensures var t, d := Next(c, s, r), c.jobs[job].files[i].dest;
            At(t.locks, d) == [] && SameData(s, t, d) && t.runs[r] == Run(job, Ready(i + 1))
  {
    assert Drop([lock], lock.id) == [];
  }

  // On the way of one run at one destination.
  ghost predicate Way(c: Config, u: State, s: State, r: nat, d: string)
    requires WellFormed(c, u)
  {
    WellFormed(c, s) && Reaches(c, u, s) && Local(u, s, r, d)
  }

  lemma WayOn(c: Config, u: State, s: State, r: nat, job: string, p: Phase)
    requires WellFormed(c, u) && WellFormed(c, s) && Stands(c, s, r, job, p) && !p.Broken?
    requires Way(c, u, s, r, c.jobs[job].files[p.i].dest)
    ensures Way(c, u, Next(c, s, r), r, c.jobs[job].files[p.i].dest)
  {
    NextIsLocal(c, s, r, job, p);
    Onward(c, u, s, r, c.jobs[job].files[p.i].dest);
  }

  lemma PutsAndMarks(c: Config, u: State, s: State, r: nat, job: string, i: nat, lock: Version, previous: seq<Version>)
    returns (t: State)
    requires WellFormed(c, u) && WellFormed(c, s) && Stands(c, s, r, job, Uploading(i, lock, previous))
    requires Way(c, u, s, r, c.jobs[job].files[i].dest)
    ensures var f := c.jobs[job].files[i];
            && Way(c, u, t, r, f.dest) && SameLocks(s, t, f.dest) && t.staged == s.staged
            && t.runs[r] == Run(job, Marked(i, lock, previous)) && Recorded(t, f.dest) == f.generation
            && Content(t, f.dest) == Some(f.generation)
  {
    var a := Next(c, s, r);
    Puts(c, s, r, job, i, lock, previous);
    WayOn(c, u, s, r, job, Uploading(i, lock, previous));
    t := Next(c, a, r);
    Marks(c, a, r, job, i, lock, previous);
    WayOn(c, u, a, r, job, Uploaded(i, lock, previous));
  }

  // An upload, or the discovery of existing content, and its record.
  lemma Finishes(c: Config, u: State, s: State, r: nat, job: string, i: nat, lock: Version, previous: seq<Version>)
    returns (t: State)
    requires WellFormed(c, u) && WellFormed(c, s) && Stands(c, s, r, job, Linking(i, lock, previous))
    requires Way(c, u, s, r, c.jobs[job].files[i].dest)
    ensures var f := c.jobs[job].files[i];
            && Way(c, u, t, r, f.dest) && SameLocks(s, t, f.dest) && t.staged == s.staged
            && t.runs[r] == Run(job, Marked(i, lock, previous)) && Recorded(t, f.dest) == f.generation
            && (f.overwrite ==> Content(t, f.dest) == Some(f.generation))
  {
    var a := Next(c, s, r);
    AsksForLink(c, s, r, job, i, lock, previous);
    WayOn(c, u, s, r, job, Linking(i, lock, previous));
    if a.runs[r].phase.Existing? {
      t := Next(c, a, r);
      Marks(c, a, r, job, i, lock, previous);
      WayOn(c, u, a, r, job, Existing(i, lock, previous));
    } else {
      t := PutsAndMarks(c, u, a, r, job, i, lock, previous);
    }
  }

  // A file that is done with: its staged object is deleted.
  ghost predicate Leaves(c: Config, u: State, s: State, t: State, r: nat, job: string, i: nat, lock: Version)
    requires WellFormed(c, u) && job in c.jobs && i < |c.jobs[job].files|
  {
    var f := c.jobs[job].files[i];
    && Way(c, u, t, r, f.dest) && SameLocks(s, t, f.dest) && t.staged == s.staged - {f.staged}
    && (t.runs[r] == Run(job, Leaving(i, lock, Exit.Current)) || t.runs[r] == Run(job, Leaving(i, lock, Absent)))
  }

  lemma LeavesFresh(c: Config, u: State, s: State, r: nat, job: string, i: nat, lock: Version, previous: seq<Version>)
    returns (t: State)
    requires WellFormed(c, u) && WellFormed(c, s) && Stands(c, s, r, job, Linking(i, lock, previous))
    requires Way(c, u, s, r, c.jobs[job].files[i].dest)
    ensures Leaves(c, u, s, t, r, job, i, lock)
    ensures var f := c.jobs[job].files[i];
            previous == [] && f.overwrite ==>
              Recorded(t, f.dest) == f.generation && Content(t, f.dest) == Some(f.generation)
    ensures t.runs[r].phase.exit.Current?
  {
    var a := Finishes(c, u, s, r, job, i, lock, previous);
    var b := Next(c, a, r);
    Trims(c, a, r, job, i, lock, previous);
    WayOn(c, u, a, r, job, Marked(i, lock, previous));
    t := Next(c, b, r);
    Tidies(c, b, r, job, i, lock);
    WayOn(c, u, b, r, job, Tidying(i, lock));
  }

  lemma LeavesLocked(c: Config, u: State, s: State, r: nat, job: string, i: nat, lock: Version) returns (t: State)
    requires WellFormed(c, u) && WellFormed(c, s) && Stands(c, s, r, job, Locked(i, lock))
    requires Way(c, u, s, r, c.jobs[job].files[i].dest)
    ensures Leaves(c, u, s, t, r, job, i, lock)
    ensures c.jobs[job].files[i].staged in s.staged ==> t.runs[r].phase.exit.Current?
    ensures var f := c.jobs[job].files[i];
            At(s.marks, f.dest) == [] && f.overwrite && f.generation != "" && f.staged in s.staged ==>
              Recorded(t, f.dest) == f.generation && Content(t, f.dest) == Some(f.generation)
  {
    var f := c.jobs[job].files[i];
    var a := Next(c, s, r);
    Reads(c, s, r, job, i, lock);
    WayOn(c, u, s, r, job, Locked(i, lock));
    if a.runs[r].phase.Superseded? {
      t := Next(c, a, r);
      Tidies(c, a, r, job, i, lock);
      WayOn(c, u, a, r, job, Superseded(i, lock));
    } else {
      var previous := a.runs[r].phase.previous;
      var b := Next(c, a, r);
      Fetches(c, a, r, job, i, lock, previous);
      WayOn(c, u, a, r, job, Fetching(i, lock, previous));
      if f.staged in s.staged {
        t := LeavesFresh(c, u, b, r, job, i, lock, previous);
      } else {
        t := b;
      }
    }
  }

  // A run passes one file.
  lemma Passes(c: Config, s: State, r: nat, job: string, i: nat) returns (t: State)
    requires Sound(c, s) && Stands(c, s, r, job, Ready(i)) && Free(s, c.jobs[job].files[i].dest)
    ensures Sound(c, t) && Way(c, s, t, r, c.jobs[job].files[i].dest) && t.runs[r] == Run(job, Ready(i + 1))
    ensures var f := c.jobs[job].files[i];
            && At(t.locks, f.dest) == [] && t.staged == s.staged - {f.staged}
            && (At(s.marks, f.dest) == [] && f.overwrite && f.generation != "" && f.staged in s.staged ==>
                  Recorded(t, f.dest) == f.generation && Content(t, f.dest) == Some(f.generation))
  {
    var a, lock := Acquires(c, s, r, job, i);
    var b := LeavesLocked(c, s, a, r, job, i, lock);
    var exit := b.runs[r].phase.exit;
    t := Next(c, b, r);
    Releases(c, b, r, job, i, lock, exit);
    WayOn(c, s, b, r, job, Leaving(i, lock, exit));
    ReachesKeepsLockInv(c, s, t);
  }

  // What passing some of its files changes.
  ghost predicate Passed(c: Config, s: State, t: State, r: nat, job: string, from: nat, end: nat)
    requires WellFormed(c, s) && job in c.jobs && from <= end <= |c.jobs[job].files|
  {
    && Sound(c, t) && Reaches(c, s, t) && t.now == s.now && t.completions == s.completions
    && r in s.runs && t.runs == s.runs[r := Run(job, Ready(end))]
    && OnlyUnstaged(s, t, c.jobs[job].files[from..end]) && OnlyAt(s, t, c.jobs[job].files[from..end])
  }

  // The staged objects of some files, and nothing else, are gone.
  ghost predicate OnlyUnstaged(s: State, t: State, files: seq<File>)
  {
    && (forall x :: x in s.staged ==> x in t.staged || exists i :: 0 <= i < |files| && files[i].staged == x)
    && (forall i :: 0 <= i < |files| ==> files[i].staged !in t.staged)
  }

  // Only the destinations of some files have changed, and no lock has been left behind.
  ghost predicate OnlyAt(s: State, t: State, files: seq<File>)
  {
    && (forall d :: (At(s.locks, d) == [] ==> At(t.locks, d) == []) && (Free(s, d) ==> Free(t, d)))
    && (forall d :: (forall i :: 0 <= i < |files| ==> files[i].dest != d) ==>
          At(t.locks, d) == At(s.locks, d) && At(t.marks, d) == At(s.marks, d) && Content(t, d) == Content(s, d))
  }

  lemma OneMoreUnstaged(s: State, t: State, u: State, files: seq<File>, f: File)
    requires OnlyUnstaged(s, t, files) && u.staged == t.staged - {f.staged}
    ensures OnlyUnstaged(s, u, files + [f])
  {
    var more := files + [f];
    forall x | x in s.staged && x !in u.staged ensures exists i :: 0 <= i < |more| && more[i].staged == x {
      if x in t.staged {
        assert more[|files|].staged == x;
      } else {
        var i :| 0 <= i < |files| && files[i].staged == x;
        assert more[i].staged == x;
      }
    }
  }

  lemma OneMoreAt(s: State, t: State, u: State, files: seq<File>, f: File, r: nat)
    requires OnlyAt(s, t, files) && Local(t, u, r, f.dest) && At(u.locks, f.dest) == []
    ensures OnlyAt(s, u, files + [f])
  {
    forall d | forall i :: 0 <= i < |files + [f]| ==> (files + [f])[i].dest != d
      ensures At(u.locks, d) == At(s.locks, d) && At(u.marks, d) == At(s.marks, d) && Content(u, d) == Content(s, d)
    {
      assert (files + [f])[|files|] == f;
      assert forall i :: 0 <= i < |files| ==> (files + [f])[i] == files[i];
    }
  }

  lemma OneRun(s: State, t: State, u: State, r: nat, run: Run)
    requires r in s.runs && r in u.runs && t.runs == s.runs[r := run] && u.runs == t.runs[r := u.runs[r]]
    ensures u.runs == s.runs[r := u.runs[r]]
  {
  }

  lemma OneMoreFile(files: seq<File>, from: nat, end: nat)
    requires from <= end < |files|
    ensures files[from..end+1] == files[from..end] + [files[end]]
  {
  }

  lemma PassedOneMore(c: Config, s: State, t: State, u: State, r: nat, job: string, from: nat, end: nat)
    requires Sound(c, s) && job in c.jobs && from <= end < |c.jobs[job].files| && Passed(c, s, t, r, job, from, end)
    requires Sound(c, u) && Way(c, t, u, r, c.jobs[job].files[end].dest) && u.runs[r] == Run(job, Ready(end + 1))
    requires At(u.locks, c.jobs[job].files[end].dest) == [] && u.staged == t.staged - {c.jobs[job].files[end].staged}
    ensures Passed(c, s, u, r, job, from, end + 1)
  {
    var files := c.jobs[job].files;
    ReachesThen(c, s, t, u);
    OneMoreUnstaged(s, t, u, files[from..end], files[end]);
    OneMoreAt(s, t, u, files[from..end], files[end], r);
    OneMoreFile(files, from, end);
    OneRun(s, t, u, r, Run(job, Ready(end)));
  }

  lemma {:induction false} PassesFiles(c: Config, s: State, r: nat, job: string, from: nat, end: nat) returns (t: State)
    requires Sound(c, s) && r in s.runs && s.runs[r] == Run(job, Ready(from)) && job in c.jobs
    requires from <= end <= |c.jobs[job].files| && forall d :: Free(s, d)
    ensures Passed(c, s, t, r, job, from, end)
    decreases end
  {
    if from == end {
      t := s;
      ReachesNow(c, s);
    } else {
      var a := PassesFiles(c, s, r, job, from, end - 1);
      t := Passes(c, a, r, job, end - 1);
      PassedOneMore(c, s, a, t, r, job, from, end - 1);
    }
  }

  // Runs apart, nothing has changed.
  ghost predicate SameStore(s: State, t: State)
  {
    && t.now == s.now && t.completions == s.completions && t.staged == s.staged
    && forall d ::
         At(t.locks, d) == At(s.locks, d) && At(t.marks, d) == At(s.marks, d) && Content(t, d) == Content(s, d)
  }

  lemma Starts(c: Config, s: State, r: nat, job: string) returns (t: State)
    requires WellFormed(c, s) && r !in s.runs && job in c.jobs
    ensures WellFormed(c, t) && Reaches(c, s, t) && SameStore(s, t) && t.runs == s.runs[r := Run(job, Booting)]
  {
    t := Apply(c, s, Start(r, job));
    ReachesNext(c, s, Start(r, job));
  }

  lemma BootsOnce(c: Config, s: State, r: nat, job: string) returns (t: State)
    requires WellFormed(c, s) && r in s.runs && s.runs[r] == Run(job, Booting) && job in c.jobs
    ensures WellFormed(c, t) && Reaches(c, s, t) && SameStore(s, t) && t.runs == s.runs[r := Run(job, Ready(0))]
  {
    t := Apply(c, s, Request(r, Done));
    ReachesNext(c, s, Request(r, Done));
  }

  // A new run of a job, ready for its first file.
  lemma Boots(c: Config, s: State, r: nat, job: string) returns (t: State)
    requires Sound(c, s) && r !in s.runs && job in c.jobs
    ensures Sound(c, t) && Reaches(c, s, t) && SameStore(s, t) && t.runs == s.runs[r := Run(job, Ready(0))]
  {
    var a := Starts(c, s, r, job);
    t := BootsOnce(c, a, r, job);
    ReachesThen(c, s, a, t);
    ReachesKeepsLockInv(c, s, t);
  }
}
