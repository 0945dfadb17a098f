/** Destinations with rivals, an older and a newer generation of which the older one's lock can become
    stale; and why nothing is lost, and nothing goes back, at a destination without them. */
module UploadRivals {
  import opened Options
  import opened StringOrder
  import opened UploadGeneration
  import opened UploadProtocol
  import opened UploadLock
  import opened UploadFreshness
  import opened UploadHistory
  import opened UploadRetention

  // Jobs as their producer makes them and the uploader accepts them: valid generations, one for all the
  // files of a job, and staged objects named after job and role.
  ghost predicate Accepted(c: Config)
  {
    && DistinctStaged(c)
    && (forall j, i | IsFile(c, j, i) :: ValidGeneration(c.jobs[j].files[i].generation))
    && (forall j, i, k | IsFile(c, j, i) && IsFile(c, j, k) ::
          c.jobs[j].files[i].generation == c.jobs[j].files[k].generation)
  }

  predicate IsFile(c: Config, j: string, i: int)
  {
    j in c.jobs && 0 <= i < |c.jobs[j].files|
  }

  predicate IsFileAt(c: Config, d: string, j: string, i: int)
  {
    IsFile(c, j, i) && c.jobs[j].files[i].dest == d
  }

  // File m of job k is older than a generation, and its timestamp fits in 64 bits.
  predicate Older(c: Config, d: string, k: string, m: int, generation: string)
  {
    IsFileAt(c, d, k, m) && !Le(generation, c.jobs[k].files[m].generation) && Overtakable(c.jobs[k].files[m].generation)
  }

  // A lock that becomes stale some day.
  predicate Overtakable(generation: string)
  {
    ValidGeneration(generation) && Stamp(generation) <= MAX_INT64
  }

  ghost predicate HasRival(c: Config, j: string, i: nat)
    requires IsFile(c, j, i)
  {
    exists k, m :: Older(c, c.jobs[j].files[i].dest, k, m, c.jobs[j].files[i].generation)
  }

  ghost predicate HasRivals(c: Config, d: string)
  {
    exists j, i :: IsFileAt(c, d, j, i) && HasRival(c, j, i)
  }

  // ----- Without rivals -----

  ghost predicate NeverStale(c: Config, d: string)
  {
    forall j, i :: IsFileAt(c, d, j, i) ==>
      ValidGeneration(c.jobs[j].files[i].generation) && Stamp(c.jobs[j].files[i].generation) > MAX_INT64
  }

  ghost predicate NoneBelow(c: Config, d: string, generation: string)
  {
    forall j, i :: IsFileAt(c, d, j, i) ==> Le(generation, c.jobs[j].files[i].generation)
  }

  // One overtakable generation aside, either nothing is older or nothing ever goes stale.
  lemma UnrivalledFile(c: Config, j: string, i: nat)
    requires Accepted(c) && IsFile(c, j, i) && !HasRival(c, j, i)
    ensures var f := c.jobs[j].files[i]; NoneBelow(c, f.dest, f.generation) || NeverStale(c, f.dest)
  {
    var f := c.jobs[j].files[i];
    if k, m :| IsFileAt(c, f.dest, k, m) && !Le(f.generation, c.jobs[k].files[m].generation) {
      var h := c.jobs[k].files[m].generation;
      assert !Older(c, f.dest, k, m, f.generation);
      Total(f.generation, h);
      forall x, y | IsFileAt(c, f.dest, x, y) ensures Stamp(c.jobs[x].files[y].generation) > MAX_INT64 {
        var g := c.jobs[x].files[y].generation;
        if Le(f.generation, g) {
          Transitive(h, f.generation, g);
          GenerationOrderIsTimeOrder(h, g);
        } else {
          assert !Older(c, f.dest, x, y, f.generation);
        }
      }
    }
  }

  lemma {:induction false} NeverStaleIsTimely(c: Config, s: State, acts: seq<Action>, d: string)
    requires WellFormed(c, s) && NeverStale(c, d)
    ensures AllTimely(c, s, acts, d)
    decreases |acts|
  {
    if acts != [] {
      var a := acts[0];
      if a.Request? && a.run in s.runs && s.runs[a.run].phase.Writing() && FileOf(c, s.runs[a.run]).dest == d {
        var run := s.runs[a.run];
        assert IsFileAt(c, d, run.job, run.phase.i);
        StaleExactly(FileOf(c, run).generation, s.now);
      }
      NeverStaleIsTimely(c, Apply(c, s, a), acts[1..], d);
    }
  }

  // Where nothing is older than a generation, the marker stays at or past it.
  lemma {:induction false} MarkerStaysPast(c: Config, s: State, acts: seq<Action>, d: string, generation: string)
    requires TopInv(c, s) && NoneBelow(c, d, generation) && Le(generation, Recorded(s, d))
    ensures Le(generation, Recorded(Exec(c, s, acts), d))
    decreases |acts|
  {
    if acts != [] {
      var a := acts[0];
      MarkerMoves(c, s, a, d);
      if Records(c, s, a, d) {
        assert IsFileAt(c, d, s.runs[a.run].job, s.runs[a.run].phase.i);
      }
      ApplyKeepsTop(c, s, a);
      MarkerStaysPast(c, Apply(c, s, a), acts[1..], d, generation);
    }
  }

  // A file whose staged object is gone though nothing has settled it.
  ghost predicate Missing(c: Config, s: State, j: string, i: nat)
    requires IsFile(c, j, i)
  {
    c.jobs[j].files[i].staged !in s.staged && !Settled(c, s, j, i)
  }

  lemma UnrivalledIsNotLost(c: Config, now: int, disk: map<string, string>, acts: seq<Action>, j: string, i: nat)
    requires Accepted(c) && IsFile(c, j, i) && !HasRival(c, j, i)
    ensures !Missing(c, Exec(c, Initial(c, now, disk), acts), j, i)
  {
    var f, start := c.jobs[j].files[i], Initial(c, now, disk);
    UnrivalledFile(c, j, i);
    if NeverStale(c, f.dest) {
      NeverStaleIsTimely(c, start, acts, f.dest);
      NoAcceptedFileIsLost(c, now, disk, acts, j, i);
    } else if f.staged !in Exec(c, start, acts).staged {
      UnstagedOnlyAfterSettled(c, now, disk, acts, j, i);
      var n :| 0 <= n <= |acts| && Settled(c, Exec(c, start, acts[..n]), j, i);
      SettledStaysPast(c, now, disk, acts[..n], acts[n..], j, i);
      assert acts == acts[..n] + acts[n..];
    }
  }

  lemma SettledStaysPast(c: Config, now: int, disk: map<string, string>, first: seq<Action>, second: seq<Action>,
                         j: string, i: nat)
    requires IsFile(c, j, i) && Settled(c, Exec(c, Initial(c, now, disk), first), j, i)
    requires NoneBelow(c, c.jobs[j].files[i].dest, c.jobs[j].files[i].generation)
    ensures Settled(c, Exec(c, Initial(c, now, disk), first + second), j, i)
  {
    var f, start := c.jobs[j].files[i], Initial(c, now, disk);
    var s := Exec(c, start, first);
    ExecSplits(c, start, first, second);
    ExecKeepsTop(c, start, first);
    CompletionsStay(c, s, second);
    if Le(f.generation, Recorded(s, f.dest)) {
      MarkerStaysPast(c, s, second, f.dest, f.generation);
    }
  }

  // ----- One generation for a destination -----

  ghost predicate OneGeneration(c: Config, d: string, generation: string)
  {
    forall j, i :: IsFileAt(c, d, j, i) ==> c.jobs[j].files[i].generation == generation
  }

  lemma SameAsOvertakable(c: Config, d: string, j: string, i: nat, x: string, y: nat)
    requires Accepted(c) && IsFileAt(c, d, j, i) && IsFileAt(c, d, x, y) && !HasRival(c, j, i) && !HasRival(c, x, y)
    requires Overtakable(c.jobs[x].files[y].generation)
    ensures c.jobs[j].files[i].generation == c.jobs[x].files[y].generation
  {
    var g, h := c.jobs[j].files[i].generation, c.jobs[x].files[y].generation;
    assert IsFile(c, j, i) && ValidGeneration(g);
    assert !Older(c, d, x, y, g) && Le(g, h);
    GenerationOrderIsTimeOrder(g, h);
    assert !Older(c, d, j, i, h) && Le(h, g);
    Antisymmetric(g, h);
  }

  lemma UnrivalledDestination(c: Config, d: string) returns (generation: string)
    requires Accepted(c) && !HasRivals(c, d)
    ensures NeverStale(c, d) || OneGeneration(c, d, generation)
  {
    generation := "";
    if !NeverStale(c, d) {
      var x, y :| IsFileAt(c, d, x, y) && Overtakable(c.jobs[x].files[y].generation);
      generation := c.jobs[x].files[y].generation;
      forall j, i | IsFileAt(c, d, j, i) ensures c.jobs[j].files[i].generation == generation {
        SameAsOvertakable(c, d, j, i, x, y);
      }
    }
  }

  // ----- Content that stays at or past a generation -----

  ghost predicate Fresh(s: State, d: string, generation: string)
  {
    d in s.disk && Le(generation, s.disk[d])
  }

  // A run that has put its content, or found or put its generation recorded.
  predicate Knows(p: Phase)
  {
    p.Uploaded? || p.Superseded? || p.Marked? || p.Tidying? || (p.Leaving? && p.exit.Current?)
  }

  ghost predicate KnowsAt(c: Config, run: Run, d: string)
    requires Fits(c, run)
  {
    Works(c, run, d) && Knows(run.phase)
  }

  // With overwriting jobs and nothing older than a generation: what is recorded has been uploaded.
  ghost predicate FreshInv(c: Config, s: State, d: string, generation: string)
  {
    && TopInv(c, s) && NoneExisting(c, s, d)
    && (Recorded(s, d) != "" ==> Fresh(s, d, generation))
    && (forall r :: r in s.runs && KnowsAt(c, s.runs[r], d) ==> Fresh(s, d, generation))
  }

  lemma FreshStays(c: Config, s: State, a: Action, d: string, generation: string)
    requires WellFormed(c, s) && NoneBelow(c, d, generation) && Fresh(s, d, generation)
    ensures Fresh(Apply(c, s, a), d, generation)
  {
    DiskMoves(c, s, a, d);
    if Uploads(c, s, a, d) {
      assert IsFileAt(c, d, s.runs[a.run].job, s.runs[a.run].phase.i);
    }
  }

  lemma UploadComesToKnow(c: Config, s: State, run: Run, o: Outcome)
    requires Fits(c, run) && run.phase.Critical() && Knows(Upload(c, s, run, o).next)
    ensures Upload(c, s, run, o).next.i == run.phase.i
    ensures || Knows(run.phase) || run.phase.Existing?
            || (run.phase.Uploading? && Upload(c, s, run, o).upload)
            || (run.phase.Locked? && Le(FileOf(c, run).generation, Recorded(s, FileOf(c, run).dest)))
  {
  }

  // How a run comes to know.
  lemma ComesToKnow(c: Config, s: State, run: Run, o: Outcome)
    requires Fits(c, run) && Knows(Respond(c, s, run, o).next)
    ensures run.phase.Critical() && Respond(c, s, run, o).next.i == run.phase.i
    ensures || Knows(run.phase) || run.phase.Existing?
            || (run.phase.Uploading? && Respond(c, s, run, o).upload)
            || (run.phase.Locked? && Le(FileOf(c, run).generation, Recorded(s, FileOf(c, run).dest)))
  {
    if run.phase.Critical() {
      UploadComesToKnow(c, s, run, o);
    } else {
      OutsideIsOk(c, s, run, o);
    }
  }

  lemma NewlyKnownIsFresh(c: Config, s: State, r: nat, o: Outcome, d: string, generation: string)
    requires Accepted(c) && NoneBelow(c, d, generation) && FreshInv(c, s, d, generation) && r in s.runs
    requires KnowsAt(c, s.runs[r].(phase := Respond(c, s, s.runs[r], o).next), d)
    ensures Fresh(Perform(c, s, r, o), d, generation)
  {
    var run := s.runs[r];
    ComesToKnow(c, s, run, o);
    assert IsFileAt(c, d, run.job, run.phase.i) && Works(c, run, d);
    if Knows(run.phase) || run.phase.Locked? {
      assert Knows(run.phase) ==> KnowsAt(c, run, d);
      assert run.phase.Locked? ==> Recorded(s, d) != "";
      FreshStays(c, s, Request(r, o), d, generation);
    }
  }

  lemma KnownIsFresh(c: Config, s: State, r: nat, o: Outcome, d: string, generation: string)
    requires Accepted(c) && NoneBelow(c, d, generation) && FreshInv(c, s, d, generation) && r in s.runs
    ensures KnowsAt(c, Perform(c, s, r, o).runs[r], d) ==> Fresh(Perform(c, s, r, o), d, generation)
  {
    if KnowsAt(c, Perform(c, s, r, o).runs[r], d) {
      NewlyKnownIsFresh(c, s, r, o, d, generation);
    }
  }

  lemma RecordedIsFresh(c: Config, s: State, a: Action, d: string, generation: string)
    requires NoneBelow(c, d, generation) && FreshInv(c, s, d, generation)
    ensures Recorded(Apply(c, s, a), d) != "" ==> Fresh(Apply(c, s, a), d, generation)
  {
    MarkerMoves(c, s, a, d);
    if Records(c, s, a, d) {
      assert Works(c, s.runs[a.run], d) && KnowsAt(c, s.runs[a.run], d);
    }
    if Fresh(s, d, generation) {
      FreshStays(c, s, a, d, generation);
    }
  }

  lemma AnyKnownIsFresh(c: Config, s: State, a: Action, r: nat, d: string, generation: string)
    requires Accepted(c) && NoneBelow(c, d, generation) && FreshInv(c, s, d, generation)
    requires r in Apply(c, s, a).runs && KnowsAt(c, Apply(c, s, a).runs[r], d)
    ensures Fresh(Apply(c, s, a), d, generation)
  {
    if r in s.runs && Apply(c, s, a).runs[r] == s.runs[r] {
      FreshStays(c, s, a, d, generation);
    } else {
      KnownIsFresh(c, s, r, a.outcome, d, generation);
    }
  }

  lemma ApplyKeepsFresh(c: Config, s: State, a: Action, d: string, generation: string)
    requires Accepted(c) && AllOverwrite(c, d) && NoneBelow(c, d, generation) && FreshInv(c, s, d, generation)
    ensures FreshInv(c, Apply(c, s, a), d, generation)
  {
    var t := Apply(c, s, a);
    ApplyKeepsTop(c, s, a);
    NoneExistingStays(c, s, a, d);
    RecordedIsFresh(c, s, a, d, generation);
    forall r | r in t.runs && KnowsAt(c, t.runs[r], d) ensures Fresh(t, d, generation) {
      AnyKnownIsFresh(c, s, a, r, d, generation);
    }
  }

  lemma {:induction false} ExecKeepsFresh(c: Config, s: State, acts: seq<Action>, d: string, generation: string)
    requires Accepted(c) && AllOverwrite(c, d) && NoneBelow(c, d, generation) && FreshInv(c, s, d, generation)
    ensures FreshInv(c, Exec(c, s, acts), d, generation)
    decreases |acts|
  {
    if acts != [] {
      ApplyKeepsFresh(c, s, acts[0], d, generation);
      ExecKeepsFresh(c, Apply(c, s, acts[0]), acts[1..], d, generation);
    }
  }

  lemma {:induction false} StaysFresh(c: Config, s: State, acts: seq<Action>, d: string, generation: string)
    requires WellFormed(c, s) && NoneBelow(c, d, generation) && Fresh(s, d, generation)
    ensures Fresh(Exec(c, s, acts), d, generation)
    decreases |acts|
  {
    if acts != [] {
      FreshStays(c, s, acts[0], d, generation);
      StaysFresh(c, Apply(c, s, acts[0]), acts[1..], d, generation);
    }
  }

  lemma {:induction false} OnlyOneRecorded(c: Config, s: State, acts: seq<Action>, d: string, generation: string)
    requires OneGeneration(c, d, generation) && TopInv(c, s) && Recorded(s, d) in {"", generation}
    ensures Recorded(Exec(c, s, acts), d) in {"", generation}
    decreases |acts|
  {
    if acts != [] {
      var a := acts[0];
      MarkerMoves(c, s, a, d);
      if Records(c, s, a, d) {
        assert IsFileAt(c, d, s.runs[a.run].job, s.runs[a.run].phase.i);
      }
      ApplyKeepsTop(c, s, a);
      OnlyOneRecorded(c, Apply(c, s, a), acts[1..], d, generation);
    }
  }

  lemma UnrivalledNeverGoesBack(c: Config, now: int, disk: map<string, string>, acts: seq<Action>, d: string)
    requires Accepted(c) && AllOverwrite(c, d) && !HasRivals(c, d)
    ensures DiskOk(Exec(c, Initial(c, now, disk), acts), d)
  {
    var generation := UnrivalledDestination(c, d);
    if NeverStale(c, d) {
      NeverStaleIsTimely(c, Initial(c, now, disk), acts, d);
      DiskNeverBehindMarker(c, now, disk, acts, d);
    } else {
      Reflexive(generation);
      ExecKeepsFresh(c, Initial(c, now, disk), acts, d, generation);
      OnlyOneRecorded(c, Initial(c, now, disk), acts, d, generation);
    }
  }

  // A run of a job has finished a file by uploading it or by finding it, or something newer, recorded.
  ghost predicate Finished(c: Config, s: State, r: nat, j: string, i: nat)
  {
    && r in s.runs && s.runs[r].job == j && s.runs[r].phase.Leaving? && s.runs[r].phase.i == i
    && s.runs[r].phase.exit.Current?
  }

  lemma UnrivalledStaysFinished(c: Config, now: int, disk: map<string, string>, acts: seq<Action>, more: seq<Action>,
                                r: nat, j: string, i: nat)
    requires Accepted(c) && IsFile(c, j, i) && AllOverwrite(c, c.jobs[j].files[i].dest) && !HasRival(c, j, i)
    requires Finished(c, Exec(c, Initial(c, now, disk), acts), r, j, i)
    ensures var f := c.jobs[j].files[i];
            Fresh(Exec(c, Exec(c, Initial(c, now, disk), acts), more), f.dest, f.generation)
  {
    var f, start := c.jobs[j].files[i], Initial(c, now, disk);
    var s := Exec(c, start, acts);
    UnrivalledFile(c, j, i);
    if NeverStale(c, f.dest) {
      NeverStaleIsTimely(c, start, acts, f.dest);
      NeverStaleIsTimely(c, s, more, f.dest);
      FinishedNeverGoesBack(c, now, disk, acts, more, r);
    } else {
      ExecKeepsFresh(c, start, acts, f.dest, f.generation);
      assert KnowsAt(c, s.runs[r], f.dest);
      StaysFresh(c, s, more, f.dest, f.generation);
    }
  }
}
