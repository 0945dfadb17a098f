/** Every job is answered at most once, and a run that ends well has an answer, whatever the timing. */
module UploadCompletions {
  import opened UploadProtocol

  ghost predicate Answered(s: State, j: string)
  {
    (j, true) in s.completions || (j, false) in s.completions
  }

  ghost predicate AnswerInv(c: Config, s: State)
  {
    && WellFormed(c, s)
    && (c.variant.Aws? ==> forall j :: !((j, true) in s.completions && (j, false) in s.completions))
    && (forall r | r in s.runs && c.jobs[s.runs[r].job].callback ::
          s.runs[r].phase.Sweeping? || s.runs[r].phase == Stopped(true) ==> Answered(s, s.runs[r].job))
    && (forall r :: r in s.runs && !c.jobs[s.runs[r].job].callback ==> !s.runs[r].phase.Reporting?)
  }

  lemma ResponseAnswers(c: Config, s: State, run: Run, o: Outcome)
    requires Fits(c, run)
    ensures var e := Respond(c, s, run, o);
            && (e.complete != {} ==> run.phase.Reporting? && e.complete == {(run.job, run.phase.success)})
            && (e.complete != {} && c.variant.Aws? ==> !Answered(s, run.job))
            && (e.next.Reporting? ==> c.jobs[run.job].callback || run.phase.Reporting?)
            && (e.next.Sweeping? || e.next == Stopped(true) ==>
                  || run.phase.Sweeping? || run.phase == Stopped(true) || !c.jobs[run.job].callback
                  || Answered(s, run.job) || e.complete != {})
  {
    if run.phase.Critical() {
    } else if run.phase.Competing() {
    }
  }

  lemma ApplyKeepsAnswers(c: Config, s: State, a: Action)
    requires AnswerInv(c, s)
    ensures AnswerInv(c, Apply(c, s, a)) && s.completions <= Apply(c, s, a).completions
  {
    if a.Request? && a.run in s.runs {
      ResponseAnswers(c, s, s.runs[a.run], a.outcome);
    }
  }

  lemma {:induction false} ExecKeepsAnswers(c: Config, s: State, acts: seq<Action>)
    requires AnswerInv(c, s)
    ensures AnswerInv(c, Exec(c, s, acts)) && s.completions <= Exec(c, s, acts).completions
    decreases |acts|
  {
    if acts != [] {
      ApplyKeepsAnswers(c, s, acts[0]);
      ExecKeepsAnswers(c, Apply(c, s, acts[0]), acts[1..]);
    }
  }

  /** However often a job is retried, at most one completion is recorded for it and it never changes. */
  lemma OneCompletionForEver(c: Config, now: int, disk: map<string, string>, acts: seq<Action>, more: seq<Action>,
                             j: string, b: bool)
    requires c.variant.Aws? && (j, b) in Exec(c, Initial(c, now, disk), acts).completions
    ensures var t := Exec(c, Exec(c, Initial(c, now, disk), acts), more);
            (j, b) in t.completions && (j, !b) !in t.completions
  {
    ExecKeepsAnswers(c, Initial(c, now, disk), acts);
    ExecKeepsAnswers(c, Exec(c, Initial(c, now, disk), acts), more);
  }

  /** A run of a job with a callback ends without error only after a completion is recorded. */
  lemma EndedMeansAnswered(c: Config, now: int, disk: map<string, string>, acts: seq<Action>, r: nat)
    requires var s := Exec(c, Initial(c, now, disk), acts);
             r in s.runs && s.runs[r].phase == Stopped(true) && c.jobs[s.runs[r].job].callback
    ensures var s := Exec(c, Initial(c, now, disk), acts); Answered(s, s.runs[r].job)
  {
    ExecKeepsAnswers(c, Initial(c, now, disk), acts);
  }
}
