/** What the uploader guarantees at a destination while no run uploads or records there under a lock
    that has already become stale: newer content is never replaced by older content. */
module UploadFreshness {
  import opened Options
  import opened StringOrder
  import opened UploadGeneration
  import opened UploadProtocol
  import opened UploadLock

  // ----- The top of the marker, whatever the timing -----

  ghost predicate MarksOk(s: State)
  {
    forall d, v :: v in At(s.marks, d) ==> v.id < |s.issued| && v.id <= Last(At(s.marks, d)).id
  }

  // The marker version a run has read is older than the one it writes.
  ghost predicate PreviousOk(c: Config, s: State, run: Run)
    requires Fits(c, run)
  {
    var p := run.phase;
    && (p.Choosing() || p.Marked? ==> p.previous == [] || p.previous[0].id < |s.issued|)
    && (p.Marked? ==>
          var marks := At(s.marks, FileOf(c, run).dest);
          marks != [] && (p.previous == [] || p.previous[0].id < Last(marks).id))
  }

  ghost predicate TopInv(c: Config, s: State)
  {
    LockInv(c, s) && MarksOk(s) && forall r :: r in s.runs ==> PreviousOk(c, s, s.runs[r])
  }

  // The marker changes only by a new version on top, or by removing the version a run had read.
  ghost predicate MarkSafe(c: Config, s: State, run: Run, e: Effect)
    requires Fits(c, run)
  {
    var p := run.phase;
    && (e.mark.Push? ==> (p.Uploaded? || p.Existing?) && e.mark.body == Subject(c, run).generation && !e.lock.Push?)
    && (e.mark.Remove? ==> p.Marked? && p.previous != [] && e.mark.id == p.previous[0].id)
    && (e.upload ==> p.Uploading?)
    && (e.next.Marked? ==>
          (p.Uploaded? || p.Existing?) && e.mark.Push? && e.next.i == p.i && e.next.previous == p.previous)
    && (e.next.Choosing() ==>
          p.Critical() && e.next.i == p.i && if p.Choosing() then e.next.previous == p.previous else p.Locked?)
  }

  lemma ResponseIsMarkSafe(c: Config, s: State, run: Run, o: Outcome)
    requires Fits(c, run)
    ensures MarkSafe(c, s, run, Respond(c, s, run, o))
  {
    if run.phase.Critical() {
      UploadIsMarkSafe(c, s, run, o);
    } else if run.phase.Competing() {
    }
  }

  lemma UploadIsMarkSafe(c: Config, s: State, run: Run, o: Outcome)
    requires Fits(c, run) && run.phase.Critical()
    ensures MarkSafe(c, s, run, Upload(c, s, run, o))
  {
  }

  lemma MarkerStays(c: Config, s: State, r: nat, e: Effect, d: string)
    requires TopInv(c, s) && r in s.runs && MarkSafe(c, s, s.runs[r], e)
    ensures var t := Commit(s, r, Subject(c, s.runs[r]), e);
            && (At(s.marks, d) != [] ==> At(t.marks, d) != [] && Last(At(s.marks, d)).id <= Last(At(t.marks, d)).id)
            && if e.mark.Push? && d == Subject(c, s.runs[r]).dest
               then At(t.marks, d) != [] && Last(At(t.marks, d))
                    == Version(Subject(c, s.runs[r]).generation, |s.issued|)
               else Recorded(t, d) == Recorded(s, d)
  {
    assert PreviousOk(c, s, s.runs[r]);
    var marks := At(s.marks, d);
    assert marks != [] ==> Last(marks) in marks;
  }

  lemma MarkedPreviousOk(c: Config, s: State, r: nat, o: Outcome)
    requires TopInv(c, s) && r in s.runs && Respond(c, s, s.runs[r], o).next.Marked?
    ensures PreviousOk(c, Perform(c, s, r, o), Perform(c, s, r, o).runs[r])
  {
    var run := s.runs[r];
    assert PreviousOk(c, s, run);
    ResponseIsMarkSafe(c, s, run, o);
    MarkerStays(c, s, r, Respond(c, s, run, o), FileOf(c, run).dest);
  }

  lemma OwnPreviousOk(c: Config, s: State, r: nat, o: Outcome)
    requires TopInv(c, s) && r in s.runs
    ensures PreviousOk(c, Perform(c, s, r, o), Perform(c, s, r, o).runs[r])
  {
    var run := s.runs[r];
    var e := Respond(c, s, run, o);
    assert PreviousOk(c, s, run);
    ResponseIsMarkSafe(c, s, run, o);
    if e.next.Marked? {
      MarkedPreviousOk(c, s, r, o);
    } else if run.phase.Locked? {
      var marks := At(s.marks, FileOf(c, run).dest);
      assert marks != [] ==> Last(marks) in marks;
    }
  }

  lemma OtherPreviousOk(c: Config, s: State, r: nat, o: Outcome, q: nat)
    requires TopInv(c, s) && r in s.runs && q in s.runs && q != r
    ensures PreviousOk(c, Perform(c, s, r, o), s.runs[q])
  {
    ResponseIsMarkSafe(c, s, s.runs[r], o);
    assert PreviousOk(c, s, s.runs[q]);
    if s.runs[q].phase.Marked? {
      MarkerStays(c, s, r, Respond(c, s, s.runs[r], o), FileOf(c, s.runs[q]).dest);
    }
  }

  lemma MarksOkStays(c: Config, s: State, r: nat, o: Outcome)
    requires TopInv(c, s) && r in s.runs
    ensures MarksOk(Perform(c, s, r, o))
  {
    var t := Perform(c, s, r, o);
    ResponseIsMarkSafe(c, s, s.runs[r], o);
    forall d, v | v in At(t.marks, d) ensures v.id < |t.issued| && v.id <= Last(At(t.marks, d)).id {
      MarkerStays(c, s, r, Respond(c, s, s.runs[r], o), d);
      assert v in At(s.marks, d) ==> v.id < |s.issued|;
    }
  }

  lemma ApplyKeepsTop(c: Config, s: State, a: Action)
    requires TopInv(c, s)
    ensures TopInv(c, Apply(c, s, a))
  {
    var t := Apply(c, s, a);
    ApplyKeepsLockInv(c, s, a);
    if a.Request? && a.run in s.runs {
      MarksOkStays(c, s, a.run, a.outcome);
      OwnPreviousOk(c, s, a.run, a.outcome);
      forall q | q in t.runs ensures PreviousOk(c, t, t.runs[q]) {
        if q != a.run {
          OtherPreviousOk(c, s, a.run, a.outcome, q);
        }
      }
    } else {
      UntouchedTop(c, s, t);
    }
  }

  lemma UntouchedTop(c: Config, s: State, t: State)
    requires TopInv(c, s) && LockInv(c, t) && t.marks == s.marks && t.issued == s.issued
    requires forall r :: r in t.runs ==> (r in s.runs && t.runs[r] == s.runs[r]) || t.runs[r].phase.Booting?
    ensures TopInv(c, t)
  {
    forall r | r in t.runs ensures PreviousOk(c, t, t.runs[r]) {
      assert r in s.runs ==> PreviousOk(c, s, s.runs[r]);
    }
    assert forall d, v :: v in At(t.marks, d) ==> v in At(s.marks, d);
  }

  lemma {:induction false} ExecKeepsTop(c: Config, s: State, acts: seq<Action>)
    requires TopInv(c, s)
    ensures TopInv(c, Exec(c, s, acts))
    decreases |acts|
  {
    if acts != [] {
      ApplyKeepsTop(c, s, acts[0]);
      ExecKeepsTop(c, Apply(c, s, acts[0]), acts[1..]);
    }
  }

  // A run about to record its generation at a destination.
  ghost predicate Records(c: Config, s: State, a: Action, d: string)
    requires WellFormed(c, s)
  {
    && a.Request? && a.run in s.runs && (s.runs[a.run].phase.Uploaded? || s.runs[a.run].phase.Existing?)
    && FileOf(c, s.runs[a.run]).dest == d
  }

  /** What a marker shows changes only when a run records its own generation there. */
  lemma MarkerMoves(c: Config, s: State, a: Action, d: string)
    requires TopInv(c, s)
    ensures var t := Apply(c, s, a);
            || Recorded(t, d) == Recorded(s, d)
            || (Records(c, s, a, d) && Recorded(t, d) == FileOf(c, s.runs[a.run]).generation)
  {
    if a.Request? && a.run in s.runs {
      ResponseIsMarkSafe(c, s, s.runs[a.run], a.outcome);
      MarkerStays(c, s, a.run, Respond(c, s, s.runs[a.run], a.outcome), d);
    }
  }

  // A run about to put its content at a destination.
  ghost predicate Uploads(c: Config, s: State, a: Action, d: string)
    requires WellFormed(c, s)
  {
    a.Request? && a.run in s.runs && s.runs[a.run].phase.Uploading? && FileOf(c, s.runs[a.run]).dest == d
  }

  function Content(s: State, d: string): Option<string>
  {
    if d in s.disk then Some(s.disk[d]) else None
  }

  /** The content of a destination changes only when a run uploads its own there. */
  lemma DiskMoves(c: Config, s: State, a: Action, d: string)
    requires WellFormed(c, s)
    ensures var t := Apply(c, s, a);
            || Content(t, d) == Content(s, d)
            || (Uploads(c, s, a, d) && Content(t, d) == Some(FileOf(c, s.runs[a.run]).generation))
  {
    if a.Request? && a.run in s.runs {
      ResponseIsMarkSafe(c, s, s.runs[a.run], a.outcome);
    }
  }

  // ----- The timing assumption -----

  // For one action: a run about to change a destination's content or marker is still within six
  // minutes of its generation's timestamp.
  ghost predicate Timely(c: Config, s: State, a: Action, d: string)
    requires WellFormed(c, s)
  {
    a.Request? && a.run in s.runs && s.runs[a.run].phase.Writing() && FileOf(c, s.runs[a.run]).dest == d ==>
      !Stale(FileOf(c, s.runs[a.run]).generation, s.now)
  }

  ghost predicate AllTimely(c: Config, s: State, acts: seq<Action>, d: string)
    requires WellFormed(c, s)
    decreases |acts|
  {
    acts == [] || (Timely(c, s, acts[0], d) && AllTimely(c, Apply(c, s, acts[0]), acts[1..], d))
  }

  ghost predicate AllOverwrite(c: Config, d: string)
  {
    forall j :: j in c.jobs ==>
      forall i :: 0 <= i < |c.jobs[j].files| && c.jobs[j].files[i].dest == d ==> c.jobs[j].files[i].overwrite
  }

  ghost predicate InTime(c: Config, s: State, run: Run)
    requires Fits(c, run) && run.phase.OnFile()
  {
    !Stale(FileOf(c, run).generation, s.now)
  }

  // What a run at a destination may rely on.
  ghost predicate RunOk(c: Config, s: State, run: Run)
    requires Fits(c, run)
  {
    var p := run.phase;
    p.Critical() || p.Leaving? ==>
      var file := FileOf(c, run);
      && (p.Superseded? || p.Marked? || p.Tidying? || (p.Leaving? && p.exit.Current?) ==>
            Le(file.generation, Recorded(s, file.dest)))
      && (p.Choosing() && InTime(c, s, run) ==> !Le(file.generation, Recorded(s, file.dest)))
      && (p.Uploaded? && InTime(c, s, run) ==> Content(s, file.dest) == Some(file.generation))
  }

  ghost predicate Works(c: Config, run: Run, d: string)
    requires Fits(c, run)
  {
    run.phase.OnFile() && FileOf(c, run).dest == d
  }

  ghost predicate MarkInv(c: Config, s: State, d: string)
  {
    TopInv(c, s) && forall r :: r in s.runs && Works(c, s.runs[r], d) ==> RunOk(c, s, s.runs[r])
  }

  // The content of a destination is at least as new as its marker says.
  ghost predicate DiskOk(s: State, d: string)
  {
    Recorded(s, d) != "" ==> d in s.disk && Le(Recorded(s, d), s.disk[d])
  }

  // Two runs that may still act hold one destination only if they are the same run.
  lemma OnlyOneCurrent(c: Config, s: State, q: nat, r: nat)
    requires LockInv(c, s) && q in s.runs && r in s.runs
    requires s.runs[q].phase.Holding() && s.runs[r].phase.Holding()
    requires FileOf(c, s.runs[q]).dest == FileOf(c, s.runs[r]).dest
    requires InTime(c, s, s.runs[q]) && InTime(c, s, s.runs[r])
    ensures q == r
  {
    assert HolderOk(c, s, s.runs[q]) && HolderOk(c, s, s.runs[r]);
  }

  lemma MarkerGrows(c: Config, s: State, a: Action, d: string)
    requires MarkInv(c, s, d) && Timely(c, s, a, d)
    ensures Le(Recorded(s, d), Recorded(Apply(c, s, a), d))
  {
    Reflexive(Recorded(s, d));
    MarkerMoves(c, s, a, d);
    if Records(c, s, a, d) {
      var run := s.runs[a.run];
      assert Works(c, run, d) && RunOk(c, s, run);
      Total(FileOf(c, run).generation, Recorded(s, d));
    }
  }

  // Another run still in time keeps what it read and wrote: the run that just acted on the same
  // destination would have to be that run itself.
  lemma NobodyElseWrites(c: Config, s: State, r: nat, o: Outcome, q: nat, d: string)
    requires MarkInv(c, s, d) && r in s.runs && q in s.runs && q != r && Timely(c, s, Request(r, o), d)
    requires Works(c, s.runs[q], d) && s.runs[q].phase.Choosing() && InTime(c, s, s.runs[q])
    ensures var t := Apply(c, s, Request(r, o)); Recorded(t, d) == Recorded(s, d) && Content(t, d) == Content(s, d)
  {
    if s.runs[r].phase.Writing() && FileOf(c, s.runs[r]).dest == d {
      OnlyOneCurrent(c, s, q, r);
    }
    MarkerMoves(c, s, Request(r, o), d);
    DiskMoves(c, s, Request(r, o), d);
  }

  // A run may still rely on what it relied on when the marker has grown and, while it chooses in time,
  // nothing has changed.
  lemma RunOkCarries(c: Config, s: State, t: State, run: Run, d: string)
    requires Fits(c, run) && Works(c, run, d) && RunOk(c, s, run) && s.now <= t.now
    requires Le(Recorded(s, d), Recorded(t, d))
    requires run.phase.Choosing() && InTime(c, t, run) ==>
              Recorded(t, d) == Recorded(s, d) && Content(t, d) == Content(s, d)
    ensures RunOk(c, t, run)
  {
    if Le(FileOf(c, run).generation, Recorded(s, d)) {
      Transitive(FileOf(c, run).generation, Recorded(s, d), Recorded(t, d));
    }
  }

  lemma ClockStays(c: Config, s: State, r: nat, o: Outcome)
    requires WellFormed(c, s)
    ensures Apply(c, s, Request(r, o)).now == s.now
  {
  }

  lemma OtherRunStays(c: Config, s: State, r: nat, o: Outcome, q: nat, d: string)
    requires MarkInv(c, s, d) && r in s.runs && q in s.runs && q != r && Timely(c, s, Request(r, o), d)
    requires Works(c, s.runs[q], d)
    ensures RunOk(c, Apply(c, s, Request(r, o)), s.runs[q])
  {
    ClockStays(c, s, r, o);
    MarkerGrows(c, s, Request(r, o), d);
    if s.runs[q].phase.Choosing() && InTime(c, s, s.runs[q]) {
      NobodyElseWrites(c, s, r, o, q, d);
    }
    RunOkCarries(c, s, Apply(c, s, Request(r, o)), s.runs[q], d);
  }

  lemma LockedIsOk(c: Config, s: State, r: nat, o: Outcome)
    requires TopInv(c, s) && r in s.runs && s.runs[r].phase.Locked?
    ensures RunOk(c, Perform(c, s, r, o), Perform(c, s, r, o).runs[r])
  {
    ResponseIsMarkSafe(c, s, s.runs[r], o);
    MarkerStays(c, s, r, Respond(c, s, s.runs[r], o), FileOf(c, s.runs[r]).dest);
  }

  lemma ReadingIsOk(c: Config, s: State, r: nat, o: Outcome)
    requires TopInv(c, s) && r in s.runs && RunOk(c, s, s.runs[r])
    requires var p := s.runs[r].phase; p.Superseded? || p.Fetching? || p.Linking? || p.Marked? || p.Tidying?
    ensures RunOk(c, Perform(c, s, r, o), Perform(c, s, r, o).runs[r])
  {
    ResponseIsMarkSafe(c, s, s.runs[r], o);
    MarkerStays(c, s, r, Respond(c, s, s.runs[r], o), FileOf(c, s.runs[r]).dest);
  }

  lemma UploadingIsOk(c: Config, s: State, r: nat, o: Outcome)
    requires TopInv(c, s) && r in s.runs && RunOk(c, s, s.runs[r]) && s.runs[r].phase.Uploading?
    ensures RunOk(c, Perform(c, s, r, o), Perform(c, s, r, o).runs[r])
  {
    ResponseIsMarkSafe(c, s, s.runs[r], o);
    MarkerStays(c, s, r, Respond(c, s, s.runs[r], o), FileOf(c, s.runs[r]).dest);
  }

  lemma RecordingGoesOn(c: Config, s: State, r: nat, o: Outcome)
    requires TopInv(c, s) && r in s.runs && (s.runs[r].phase.Uploaded? || s.runs[r].phase.Existing?)
    ensures var run, t := s.runs[r], Perform(c, s, r, o);
            var p := t.runs[r].phase;
            && t.runs[r].job == run.job && t.now == s.now
            && (p.Marked? || (p.Leaving? && p.exit.Failed?)) && p.i == run.phase.i
            && (p.Marked? ==> Recorded(t, FileOf(c, run).dest) == FileOf(c, run).generation)
  {
    var e := Respond(c, s, s.runs[r], o);
    ResponseIsMarkSafe(c, s, s.runs[r], o);
    MarkerStays(c, s, r, e, FileOf(c, s.runs[r]).dest);
  }

  lemma RecordingIsOk(c: Config, s: State, r: nat, o: Outcome)
    requires TopInv(c, s) && r in s.runs && (s.runs[r].phase.Uploaded? || s.runs[r].phase.Existing?)
    ensures RunOk(c, Perform(c, s, r, o), Perform(c, s, r, o).runs[r])
  {
    Reflexive(FileOf(c, s.runs[r]).generation);
    RecordingGoesOn(c, s, r, o);
  }

  lemma OutsideIsOk(c: Config, s: State, run: Run, o: Outcome)
    requires Fits(c, run) && !run.phase.Critical()
    ensures var p := Respond(c, s, run, o).next; !p.Leaving? && (p.Critical() ==> p.Locked?)
  {
  }

  lemma OwnRunOk(c: Config, s: State, r: nat, o: Outcome)
    requires TopInv(c, s) && r in s.runs && RunOk(c, s, s.runs[r])
    ensures RunOk(c, Perform(c, s, r, o), Perform(c, s, r, o).runs[r])
  {
    var p := s.runs[r].phase;
    if p.Locked? {
      LockedIsOk(c, s, r, o);
    } else if p.Uploading? {
      UploadingIsOk(c, s, r, o);
    } else if p.Writing() {
      RecordingIsOk(c, s, r, o);
    } else if p.Critical() {
      ReadingIsOk(c, s, r, o);
    } else {
      OutsideRunOk(c, s, r, o);
    }
  }

  lemma OutsideRunOk(c: Config, s: State, r: nat, o: Outcome)
    requires WellFormed(c, s) && r in s.runs && !s.runs[r].phase.Critical()
    ensures RunOk(c, Perform(c, s, r, o), Perform(c, s, r, o).runs[r])
  {
    OutsideIsOk(c, s, s.runs[r], o);
  }

  // A run keeps its file until it has left it.
  lemma WorksOn(c: Config, s: State, run: Run, o: Outcome)
    requires Fits(c, run)
    ensures var p := Respond(c, s, run, o).next;
            p.Critical() || p.Leaving? ==> run.phase.OnFile() && p.i == run.phase.i
  {
    if run.phase.Critical() {
    } else {
      OutsideIsOk(c, s, run, o);
    }
  }

  lemma OwnRunStays(c: Config, s: State, r: nat, o: Outcome, d: string)
    requires MarkInv(c, s, d) && r in s.runs && Works(c, Perform(c, s, r, o).runs[r], d)
    ensures RunOk(c, Perform(c, s, r, o), Perform(c, s, r, o).runs[r])
  {
    var p := Perform(c, s, r, o).runs[r].phase;
    WorksOn(c, s, s.runs[r], o);
    if p.Critical() || p.Leaving? {
      assert Works(c, s.runs[r], d);
      OwnRunOk(c, s, r, o);
    }
  }

  lemma RequestKeepsMarkInv(c: Config, s: State, r: nat, o: Outcome, d: string)
    requires MarkInv(c, s, d) && r in s.runs && Timely(c, s, Request(r, o), d)
    ensures MarkInv(c, Perform(c, s, r, o), d)
  {
    var t := Perform(c, s, r, o);
    ApplyKeepsTop(c, s, Request(r, o));
    forall q | q in t.runs && Works(c, t.runs[q], d) ensures RunOk(c, t, t.runs[q]) {
      if q != r {
        OtherRunStays(c, s, r, o, q, d);
      } else {
        OwnRunStays(c, s, r, o, d);
      }
    }
  }

  lemma ApplyKeepsMarkInv(c: Config, s: State, a: Action, d: string)
    requires MarkInv(c, s, d) && Timely(c, s, a, d)
    ensures MarkInv(c, Apply(c, s, a), d)
  {
    if a.Request? && a.run in s.runs {
      RequestKeepsMarkInv(c, s, a.run, a.outcome, d);
    } else {
      ApplyKeepsTop(c, s, a);
      UntouchedMarks(c, s, Apply(c, s, a), d);
    }
  }

  lemma UntouchedMarks(c: Config, s: State, t: State, d: string)
    requires MarkInv(c, s, d) && TopInv(c, t) && t.marks == s.marks && t.disk == s.disk && s.now <= t.now
    requires forall r :: r in t.runs ==> (r in s.runs && t.runs[r] == s.runs[r]) || t.runs[r].phase.Booting?
    ensures MarkInv(c, t, d)
  {
    forall q | q in t.runs && Works(c, t.runs[q], d) ensures RunOk(c, t, t.runs[q]) {
      if q in s.runs && t.runs[q] == s.runs[q] {
        Reflexive(Recorded(s, d));
        RunOkCarries(c, s, t, s.runs[q], d);
      }
    }
  }

  lemma {:induction false} ExecKeepsMarkInv(c: Config, s: State, acts: seq<Action>, d: string)
    requires MarkInv(c, s, d) && AllTimely(c, s, acts, d)
    ensures MarkInv(c, Exec(c, s, acts), d)
    ensures Le(Recorded(s, d), Recorded(Exec(c, s, acts), d))
    decreases |acts|
  {
    if acts == [] {
      Reflexive(Recorded(s, d));
    } else {
      var t := Apply(c, s, acts[0]);
      ApplyKeepsMarkInv(c, s, acts[0], d);
      MarkerGrows(c, s, acts[0], d);
      ExecKeepsMarkInv(c, t, acts[1..], d);
      Transitive(Recorded(s, d), Recorded(t, d), Recorded(Exec(c, s, acts), d));
    }
  }

  // With overwriting jobs no run ever records content it did not upload.
  ghost predicate NoneExisting(c: Config, s: State, d: string)
    requires WellFormed(c, s)
  {
    forall r :: r in s.runs && Works(c, s.runs[r], d) ==> !s.runs[r].phase.Existing?
  }

  lemma NoneExistingStays(c: Config, s: State, a: Action, d: string)
    requires AllOverwrite(c, d) && WellFormed(c, s) && NoneExisting(c, s, d)
    ensures NoneExisting(c, Apply(c, s, a), d)
  {
    if a.Request? && a.run in s.runs {
      OverwriteNeverExisting(c, s, s.runs[a.run], a.outcome, d);
    }
  }

  lemma OverwriteNeverExisting(c: Config, s: State, run: Run, o: Outcome, d: string)
    requires AllOverwrite(c, d) && Fits(c, run) && (Works(c, run, d) ==> !run.phase.Existing?)
    ensures var next := run.(phase := Respond(c, s, run, o).next); Works(c, next, d) ==> !next.phase.Existing?
  {
    if run.phase.Linking? && Works(c, run, d) {
      assert FileOf(c, run).overwrite;
    }
  }

  lemma RequestKeepsDiskOk(c: Config, s: State, r: nat, o: Outcome, d: string)
    requires MarkInv(c, s, d) && DiskOk(s, d) && NoneExisting(c, s, d) && r in s.runs && Timely(c, s, Request(r, o), d)
    ensures DiskOk(Perform(c, s, r, o), d)
  {
    var run, e := s.runs[r], Respond(c, s, s.runs[r], o);
    ResponseIsMarkSafe(c, s, run, o);
    MarkerStays(c, s, r, e, d);
    if run.phase.Writing() && FileOf(c, run).dest == d {
      assert Works(c, run, d) && RunOk(c, s, run);
      Reflexive(FileOf(c, run).generation);
      Total(FileOf(c, run).generation, Recorded(s, d));
    }
  }

  lemma {:induction false} ExecKeepsDiskOk(c: Config, s: State, acts: seq<Action>, d: string)
    requires AllOverwrite(c, d) && MarkInv(c, s, d) && DiskOk(s, d) && NoneExisting(c, s, d)
    requires AllTimely(c, s, acts, d)
    ensures DiskOk(Exec(c, s, acts), d) && NoneExisting(c, Exec(c, s, acts), d)
    decreases |acts|
  {
    if acts != [] {
      if acts[0].Request? && acts[0].run in s.runs {
        RequestKeepsDiskOk(c, s, acts[0].run, acts[0].outcome, d);
      }
      NoneExistingStays(c, s, acts[0], d);
      ApplyKeepsMarkInv(c, s, acts[0], d);
      ExecKeepsDiskOk(c, Apply(c, s, acts[0]), acts[1..], d);
    }
  }

  /** A destination never holds content older than its marker records. */
  lemma DiskNeverBehindMarker(c: Config, now: int, disk: map<string, string>, acts: seq<Action>, d: string)
    requires AllOverwrite(c, d) && AllTimely(c, Initial(c, now, disk), acts, d)
    ensures DiskOk(Exec(c, Initial(c, now, disk), acts), d)
  {
    ExecKeepsDiskOk(c, Initial(c, now, disk), acts, d);
  }

  /** Once a run has finished a file by uploading it or by finding newer content recorded, no later
      history makes the destination hold anything older than that file. */
  lemma FinishedNeverGoesBack(c: Config, now: int, disk: map<string, string>, acts: seq<Action>, more: seq<Action>,
                              r: nat)
    requires var s := Exec(c, Initial(c, now, disk), acts);
             r in s.runs && s.runs[r].phase.Leaving? && s.runs[r].phase.exit == Exit.Current
    requires var s := Exec(c, Initial(c, now, disk), acts);
             var file := FileOf(c, s.runs[r]);
             && file.generation != "" && AllOverwrite(c, file.dest)
             && AllTimely(c, Initial(c, now, disk), acts, file.dest) && AllTimely(c, s, more, file.dest)
    ensures var s := Exec(c, Initial(c, now, disk), acts);
            var t := Exec(c, s, more);
            var file := FileOf(c, s.runs[r]);
            file.dest in t.disk && Le(file.generation, t.disk[file.dest])
  {
    var s := Exec(c, Initial(c, now, disk), acts);
    var file := FileOf(c, s.runs[r]);
    ExecKeepsMarkInv(c, Initial(c, now, disk), acts, file.dest);
    ExecKeepsDiskOk(c, Initial(c, now, disk), acts, file.dest);
    assert Works(c, s.runs[r], file.dest) && RunOk(c, s, s.runs[r]);
    ExecKeepsMarkInv(c, s, more, file.dest);
    ExecKeepsDiskOk(c, s, more, file.dest);
    var t := Exec(c, s, more);
    Transitive(file.generation, Recorded(s, file.dest), Recorded(t, file.dest));
    Transitive(file.generation, Recorded(t, file.dest), t.disk[file.dest]);
  }

  /** Recording content a create-only job found instead of uploading its own keeps the destination in
      step with its marker exactly when that content was at least as new as the job. */
  lemma CreateOnlyExactly(c: Config, s: State, r: nat, o: Outcome)
    requires WellFormed(c, s) && r in s.runs && s.runs[r].phase.Existing? && !o.Error?
    requires FileOf(c, s.runs[r]).generation != ""
    ensures var file := FileOf(c, s.runs[r]);
            DiskOk(Perform(c, s, r, o), file.dest) <==> file.dest in s.disk && Le(file.generation, s.disk[file.dest])
  {
    var file := FileOf(c, s.runs[r]);
    assert Recorded(Perform(c, s, r, o), file.dest) == file.generation;
  }
}
