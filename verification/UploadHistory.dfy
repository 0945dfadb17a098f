/** What survives without any assumption on timing: a staged object goes away only after its file has
    been settled at some moment. */
module UploadHistory {
  import opened StringOrder
  import opened UploadProtocol
  import opened UploadCompletions

  // The producer names a staged object after its job and its role, and roles are unique in a job.
  ghost predicate DistinctStaged(c: Config)
  {
    forall j, i, k, m | j in c.jobs && k in c.jobs && 0 <= i < |c.jobs[j].files| && 0 <= m < |c.jobs[k].files| ::
      c.jobs[j].files[i].staged == c.jobs[k].files[m].staged ==> j == k && i == m
  }

  // A file that no longer needs its staged object: its destination is at or past its generation, its
  // job was reported as failed, or all of its job is on Google Drive.
  ghost predicate Settled(c: Config, s: State, j: string, i: nat)
    requires j in c.jobs && i < |c.jobs[j].files|
  {
    var file := c.jobs[j].files[i];
    Le(file.generation, Recorded(s, file.dest)) || (j, false) in s.completions || AllMirrored(c.jobs[j])
  }

  type Settlements = set<(string, nat)>

  ghost function SettledNow(c: Config, s: State): (now: Settlements)
    ensures forall j, i: nat :: (j, i) in now <==> j in c.jobs && i < |c.jobs[j].files| && Settled(c, s, j, i)
  {
    set j, i | j in c.jobs && 0 <= i < |c.jobs[j].files| && Settled(c, s, j, i) :: (j, i)
  }

  ghost predicate UpTo(done: Settlements, j: string, n: nat)
  {
    forall i: nat :: i < n ==> (j, i) in done
  }

  // How far a run has come: every file behind it has been settled, and so has one it is leaving or
  // whose marker it has found or put past its generation.
  ghost predicate Advanced(c: Config, run: Run, done: Settlements)
    requires Fits(c, run)
  {
    var p := run.phase;
    && (p.OnFile() || p.Ready? ==> UpTo(done, run.job, p.i))
    && (p.Superseded? || p.Marked? || p.Tidying? || (p.Leaving? && !p.exit.Failed?) ==> (run.job, p.i) in done)
    && (p.Sweeping? || (p.Reporting? && p.success) ==> UpTo(done, run.job, |c.jobs[run.job].files|))
  }

  ghost predicate HistoryInv(c: Config, s: State, done: Settlements)
  {
    && WellFormed(c, s) && SettledNow(c, s) <= done
    && (forall j :: j in c.jobs ==> forall i: nat :: i < |c.jobs[j].files| ==>
          c.jobs[j].files[i].staged in s.staged || (j, i) in done)
    && (forall r :: r in s.runs ==> Advanced(c, s.runs[r], done))
    && (forall j :: j in c.jobs && (j, true) in s.completions ==> UpTo(done, j, |c.jobs[j].files|))
  }

  lemma CriticalAdvances(c: Config, s: State, r: nat, o: Outcome, done: Settlements)
    requires HistoryInv(c, s, done) && r in s.runs && s.runs[r].phase.Critical()
    ensures var t := Perform(c, s, r, o);
            Advanced(c, s.runs[r].(phase := Upload(c, s, s.runs[r], o).next), done + SettledNow(c, t))
  {
    var run := s.runs[r];
    var t := Perform(c, s, r, o);
    var i := run.phase.i;
    assert Advanced(c, run, done);
    if run.phase.Locked? && Upload(c, s, run, o).next.Superseded? {
      assert Settled(c, s, run.job, i);
      assert (run.job, i) in SettledNow(c, s);
    } else if Upload(c, s, run, o).next.Marked? {
      Reflexive(FileOf(c, run).generation);
      assert Recorded(t, FileOf(c, run).dest) == FileOf(c, run).generation;
      assert Settled(c, t, run.job, i);
      assert (run.job, i) in SettledNow(c, t);
    } else if run.phase.Fetching? {
      assert FileOf(c, run).staged in s.staged || (run.job, i) in done;
    }
  }

  lemma BetweenAdvances(c: Config, s: State, run: Run, o: Outcome, done: Settlements)
    requires Fits(c, run) && Advanced(c, run, done) && (run.phase.Competing() || run.phase.Moving())
    requires SettledNow(c, s) <= done
    ensures Advanced(c, run.(phase := Respond(c, s, run, o).next), done)
  {
    if run.phase.Competing() {
      CompetingAdvances(c, s, run, o, done);
    } else {
      MovingAdvances(c, s, run, o, done);
    }
  }

  lemma MovingAdvances(c: Config, s: State, run: Run, o: Outcome, done: Settlements)
    requires Fits(c, run) && Advanced(c, run, done) && run.phase.Moving() && SettledNow(c, s) <= done
    ensures Advanced(c, run.(phase := Conduct(c, run, o).next), done)
  {
    var p := Conduct(c, run, o).next;
    if p.Sweeping? {
      MirroredIsSettled(c, s, run.job);
    } else if p.Ready? && run.phase.Leaving? {
      assert UpTo(done, run.job, run.phase.i);
    }
  }

  lemma MirroredIsSettled(c: Config, s: State, j: string)
    requires j in c.jobs && (AllMirrored(c.jobs[j]) || (j, false) in s.completions)
    ensures UpTo(SettledNow(c, s), j, |c.jobs[j].files|)
  {
    forall i: nat | i < |c.jobs[j].files| ensures (j, i) in SettledNow(c, s) {
      assert Settled(c, s, j, i);
    }
  }

  lemma CompetingAdvances(c: Config, s: State, run: Run, o: Outcome, done: Settlements)
    requires Fits(c, run) && Advanced(c, run, done) && run.phase.Competing()
    ensures Advanced(c, run.(phase := Respond(c, s, run, o).next), done)
  {
  }

  lemma ConcludingAdvances(c: Config, s: State, run: Run, o: Outcome, done: Settlements, more: Settlements)
    requires Fits(c, run) && Advanced(c, run, done) && run.phase.Concluding() && done <= more
    requires (run.job, true) in s.completions ==> UpTo(done, run.job, |c.jobs[run.job].files|)
    requires (run.job, false) in s.completions + Conclude(c, s, run, o).complete ==>
              UpTo(more, run.job, |c.jobs[run.job].files|)
    ensures Advanced(c, run.(phase := Conclude(c, s, run, o).next), more)
  {
  }

  lemma EndAdvances(c: Config, s: State, r: nat, o: Outcome, done: Settlements)
    requires HistoryInv(c, s, done) && r in s.runs && s.runs[r].phase.Concluding()
    ensures var t := Perform(c, s, r, o);
            Advanced(c, s.runs[r].(phase := Conclude(c, s, s.runs[r], o).next), done + SettledNow(c, t))
  {
    var run := s.runs[r];
    var t := Perform(c, s, r, o);
    assert Advanced(c, run, done);
    if (run.job, false) in t.completions {
      MirroredIsSettled(c, t, run.job);
    }
    assert t.completions == s.completions + Conclude(c, s, run, o).complete;
    ConcludingAdvances(c, s, run, o, done, done + SettledNow(c, t));
  }

  // A request deletes a staged object only when its file has been settled.
  lemma OnlyDoneUnstaged(c: Config, s: State, run: Run, o: Outcome, done: Settlements) returns (i: nat)
    requires Fits(c, run) && Advanced(c, run, done) && Respond(c, s, run, o).unstage != {}
    ensures i < |c.jobs[run.job].files| && (run.job, i) in done
    ensures Respond(c, s, run, o).unstage == {c.jobs[run.job].files[i].staged}
  {
    i := if run.phase.Sweeping? then run.phase.k else run.phase.i;
  }

  lemma MoreDone(c: Config, run: Run, done: Settlements, more: Settlements)
    requires Fits(c, run) && Advanced(c, run, done) && done <= more
    ensures Advanced(c, run, more)
  {
  }

  lemma RequestKeepsHistory(c: Config, s: State, r: nat, o: Outcome, done: Settlements)
    requires DistinctStaged(c) && HistoryInv(c, s, done) && r in s.runs
    ensures HistoryInv(c, Perform(c, s, r, o), done + SettledNow(c, Perform(c, s, r, o)))
  {
    var run, t := s.runs[r], Perform(c, s, r, o);
    var more := done + SettledNow(c, t);
    assert Advanced(c, run, done);
    OwnAdvance(c, s, r, o, done);
    forall q | q in t.runs ensures Advanced(c, t.runs[q], more) {
      if q != r {
        MoreDone(c, s.runs[q], done, more);
      }
    }
    forall j, i: nat | j in c.jobs && i < |c.jobs[j].files|
      ensures c.jobs[j].files[i].staged in t.staged || (j, i) in more {
      if c.jobs[j].files[i].staged in Respond(c, s, run, o).unstage {
        var m := OnlyDoneUnstaged(c, s, run, o, done);
        assert c.jobs[run.job].files[m].staged == c.jobs[j].files[i].staged;
      }
    }
    ResponseAnswers(c, s, run, o);
  }

  lemma OwnAdvance(c: Config, s: State, r: nat, o: Outcome, done: Settlements)
    requires HistoryInv(c, s, done) && r in s.runs
    ensures var t := Perform(c, s, r, o);
            Advanced(c, s.runs[r].(phase := Respond(c, s, s.runs[r], o).next), done + SettledNow(c, t))
  {
    var run, t := s.runs[r], Perform(c, s, r, o);
    assert Advanced(c, run, done);
    if run.phase.Critical() {
      CriticalAdvances(c, s, r, o, done);
    } else if run.phase.Concluding() {
      EndAdvances(c, s, r, o, done);
    } else {
      BetweenAdvances(c, s, run, o, done);
      MoreDone(c, run.(phase := Respond(c, s, run, o).next), done, done + SettledNow(c, t));
    }
  }

  lemma ApplyKeepsHistory(c: Config, s: State, a: Action, done: Settlements)
    requires DistinctStaged(c) && HistoryInv(c, s, done)
    ensures HistoryInv(c, Apply(c, s, a), done + SettledNow(c, Apply(c, s, a)))
  {
    if a.Request? && a.run in s.runs {
      RequestKeepsHistory(c, s, a.run, a.outcome, done);
    } else {
      var t := Apply(c, s, a);
      assert t.staged == s.staged && t.completions == s.completions && t.marks == s.marks;
      forall q | q in t.runs ensures Advanced(c, t.runs[q], done + SettledNow(c, t)) {
        if q in s.runs && t.runs[q] == s.runs[q] {
          MoreDone(c, s.runs[q], done, done + SettledNow(c, t));
        }
      }
    }
  }

  // Everything settled at some moment of a history.
  ghost function EverSettled(c: Config, s: State, acts: seq<Action>): Settlements
    requires WellFormed(c, s)
    decreases |acts|
  {
    SettledNow(c, s) + if acts == [] then {} else EverSettled(c, Apply(c, s, acts[0]), acts[1..])
  }

  lemma {:induction false} EverSettledMeans(c: Config, s: State, acts: seq<Action>, j: string, i: nat)
    requires WellFormed(c, s) && (j, i) in EverSettled(c, s, acts)
    ensures j in c.jobs && i < |c.jobs[j].files| &&
              exists n :: 0 <= n <= |acts| && Settled(c, Exec(c, s, acts[..n]), j, i)
    decreases |acts|
  {
    if (j, i) in SettledNow(c, s) {
      assert acts[..0] == [];
      assert Settled(c, Exec(c, s, acts[..0]), j, i);
    } else {
      var t := Apply(c, s, acts[0]);
      EverSettledMeans(c, t, acts[1..], j, i);
      var n :| 0 <= n <= |acts[1..]| && Settled(c, Exec(c, t, acts[1..][..n]), j, i);
      assert acts[..n+1][1..] == acts[1..][..n];
      assert Settled(c, Exec(c, s, acts[..n+1]), j, i);
    }
  }

  lemma {:induction false} ExecKeepsHistory(c: Config, s: State, acts: seq<Action>, done: Settlements)
    requires DistinctStaged(c) && HistoryInv(c, s, done)
    ensures HistoryInv(c, Exec(c, s, acts), done + EverSettled(c, s, acts))
    decreases |acts|
  {
    if acts == [] {
      assert done + EverSettled(c, s, acts) == done;
    } else {
      var t := Apply(c, s, acts[0]);
      ApplyKeepsHistory(c, s, acts[0], done);
      ExecKeepsHistory(c, t, acts[1..], done + SettledNow(c, t));
      assert SettledNow(c, t) <= EverSettled(c, t, acts[1..]) && SettledNow(c, s) <= done;
      assert done + SettledNow(c, t) + EverSettled(c, t, acts[1..]) == done + EverSettled(c, s, acts);
    }
  }

  lemma StartsSettled(c: Config, now: int, disk: map<string, string>, acts: seq<Action>)
    requires DistinctStaged(c)
    ensures HistoryInv(c, Exec(c, Initial(c, now, disk), acts), EverSettled(c, Initial(c, now, disk), acts))
  {
    var s := Initial(c, now, disk);
    ExecKeepsHistory(c, s, acts, SettledNow(c, s));
    assert SettledNow(c, s) + EverSettled(c, s, acts) == EverSettled(c, s, acts);
  }

  // Settled after some prefix of a history.
  ghost predicate OnceSettled(c: Config, now: int, disk: map<string, string>, acts: seq<Action>, j: string, i: nat)
    requires j in c.jobs && i < |c.jobs[j].files|
  {
    exists n :: 0 <= n <= |acts| && Settled(c, Exec(c, Initial(c, now, disk), acts[..n]), j, i)
  }

  /** Whatever the timing, crashes included: an accepted file has its staged object, or at some moment
      its destination's marker was at or past it, its job had been reported as failed or the whole job
      was on Google Drive. */
  lemma UnstagedOnlyAfterSettled(c: Config, now: int, disk: map<string, string>, acts: seq<Action>, j: string, i: nat)
    requires DistinctStaged(c) && j in c.jobs && i < |c.jobs[j].files|
    requires c.jobs[j].files[i].staged !in Exec(c, Initial(c, now, disk), acts).staged
    ensures OnceSettled(c, now, disk, acts, j, i)
  {
    StartsSettled(c, now, disk, acts);
    EverSettledMeans(c, Initial(c, now, disk), acts, j, i);
  }

  /** A job is reported as successful only after every one of its files was settled at some moment. */
  lemma SuccessOnlyAfterSettled(c: Config, now: int, disk: map<string, string>, acts: seq<Action>, j: string, i: nat)
    requires DistinctStaged(c) && j in c.jobs && i < |c.jobs[j].files|
    requires (j, true) in Exec(c, Initial(c, now, disk), acts).completions
    ensures OnceSettled(c, now, disk, acts, j, i)
  {
    StartsSettled(c, now, disk, acts);
    EverSettledMeans(c, Initial(c, now, disk), acts, j, i);
  }
}
