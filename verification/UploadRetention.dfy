/** No accepted file is lost while its destination is written in time. */
module UploadRetention {
  import opened StringOrder
  import opened UploadProtocol
  import opened UploadCompletions
  import opened UploadFreshness
  import opened UploadHistory

  lemma {:induction false} TimelyParts(c: Config, s: State, first: seq<Action>, second: seq<Action>, d: string)
    requires WellFormed(c, s) && AllTimely(c, s, first + second, d)
    ensures AllTimely(c, s, first, d) && AllTimely(c, Exec(c, s, first), second, d)
    decreases |first|
  {
    if first == [] {
      assert first + second == second;
    } else {
      assert (first + second)[1..] == first[1..] + second;
      TimelyParts(c, Apply(c, s, first[0]), first[1..], second, d);
    }
  }

  lemma {:induction false} CompletionsStay(c: Config, s: State, acts: seq<Action>)
    requires WellFormed(c, s)
    ensures s.completions <= Exec(c, s, acts).completions
    decreases |acts|
  {
    if acts != [] {
      CompletionsStay(c, Apply(c, s, acts[0]), acts[1..]);
    }
  }

  // What was settled at one moment stays settled while its destination is written in time.
  lemma SettledStays(c: Config, now: int, disk: map<string, string>, first: seq<Action>, second: seq<Action>,
                     j: string, i: nat)
    requires j in c.jobs && i < |c.jobs[j].files|
    requires Settled(c, Exec(c, Initial(c, now, disk), first), j, i)
    requires AllTimely(c, Initial(c, now, disk), first + second, c.jobs[j].files[i].dest)
    ensures Settled(c, Exec(c, Initial(c, now, disk), first + second), j, i)
  {
    var start, file := Initial(c, now, disk), c.jobs[j].files[i];
    var s := Exec(c, start, first);
    TimelyParts(c, start, first, second, file.dest);
    ExecSplits(c, start, first, second);
    ExecKeepsMarkInv(c, start, first, file.dest);
    ExecKeepsMarkInv(c, s, second, file.dest);
    CompletionsStay(c, s, second);
    if Le(file.generation, Recorded(s, file.dest)) {
      Transitive(file.generation, Recorded(s, file.dest), Recorded(Exec(c, s, second), file.dest));
    }
  }

  lemma OnceSettledStays(c: Config, now: int, disk: map<string, string>, acts: seq<Action>, j: string, i: nat)
    requires j in c.jobs && i < |c.jobs[j].files| && OnceSettled(c, now, disk, acts, j, i)
    requires AllTimely(c, Initial(c, now, disk), acts, c.jobs[j].files[i].dest)
    ensures Settled(c, Exec(c, Initial(c, now, disk), acts), j, i)
  {
    var n :| 0 <= n <= |acts| && Settled(c, Exec(c, Initial(c, now, disk), acts[..n]), j, i);
    assert acts == acts[..n] + acts[n..];
    SettledStays(c, now, disk, acts[..n], acts[n..], j, i);
  }

  /** In every reachable state, crashes included, each accepted file still has its staged object, or
      its destination's marker is at or past it, or its job was reported as failed, or the whole job
      is already on Google Drive. */
  lemma NoAcceptedFileIsLost(c: Config, now: int, disk: map<string, string>, acts: seq<Action>, j: string, i: nat)
    requires DistinctStaged(c) && j in c.jobs && i < |c.jobs[j].files|
    requires AllTimely(c, Initial(c, now, disk), acts, c.jobs[j].files[i].dest)
    ensures var s := Exec(c, Initial(c, now, disk), acts);
            c.jobs[j].files[i].staged in s.staged || Settled(c, s, j, i)
  {
    if c.jobs[j].files[i].staged !in Exec(c, Initial(c, now, disk), acts).staged {
      UnstagedOnlyAfterSettled(c, now, disk, acts, j, i);
      OnceSettledStays(c, now, disk, acts, j, i);
    }
  }

  /** A job is reported as successful only when its files are settled. */
  lemma SuccessMeansSettled(c: Config, now: int, disk: map<string, string>, acts: seq<Action>, j: string, i: nat)
    requires DistinctStaged(c) && j in c.jobs && i < |c.jobs[j].files|
    requires AllTimely(c, Initial(c, now, disk), acts, c.jobs[j].files[i].dest)
    requires (j, true) in Exec(c, Initial(c, now, disk), acts).completions
    ensures Settled(c, Exec(c, Initial(c, now, disk), acts), j, i)
  {
    SuccessOnlyAfterSettled(c, now, disk, acts, j, i);
    OnceSettledStays(c, now, disk, acts, j, i);
  }
}
