/** What a destination's lock guarantees over every history, whatever the timing. */
module UploadLock {
  import opened StringOrder
  import opened UploadGeneration
  import opened UploadProtocol

  ghost predicate Known(s: State, v: Version)
  {
    v.id < |s.issued| && s.issued[v.id] == v.body
  }

  ghost predicate OnTop(s: State, dest: string, v: Version)
  {
    At(s.locks, dest) != [] && Last(At(s.locks, dest)) == v
  }

  // Someone found this lock stale. The Yandex uploader recognises a lock by its body alone.
  ghost predicate Judged(c: Config, s: State, v: Version)
  {
    if c.variant.Aws? then v in s.judged else exists j :: j in s.judged && j.body == v.body
  }

  ghost predicate HolderOk(c: Config, s: State, run: Run)
    requires Fits(c, run)
  {
    run.phase.Holding() ==>
      && Known(s, run.phase.lock)
      && run.phase.lock.body == FileOf(c, run).generation
      && (Judged(c, s, run.phase.lock) || OnTop(s, FileOf(c, run).dest, run.phase.lock))
  }

  ghost predicate JudgeOk(s: State, run: Run)
  {
    (run.phase.Evicting? ==> run.phase.seen in s.judged) && (run.phase.Replaced? ==> run.phase.stale in s.judged)
  }

  ghost predicate StoreOk(c: Config, s: State)
  {
    && (forall j :: j in s.judged ==> Known(s, j) && Stale(j.body, s.now))
    && (forall d, v :: v in At(s.locks, d) ==> Known(s, v))
    && (c.variant.Aws? ==> forall d :: |At(s.locks, d)| <= 1)
    && (forall d, v :: v in At(s.locks, d) && !Judged(c, s, v) ==> v == Last(At(s.locks, d)))
  }

  // No two runs hold the same lock version.
  ghost predicate Distinct(s: State)
  {
    forall q, r :: q in s.runs && r in s.runs && q != r && s.runs[q].phase.Holding() && s.runs[r].phase.Holding() ==>
      s.runs[q].phase.lock.id != s.runs[r].phase.lock.id
  }

  ghost predicate LockInv(c: Config, s: State)
  {
    && WellFormed(c, s)
    && StoreOk(c, s)
    && Distinct(s)
    && forall r :: r in s.runs ==> HolderOk(c, s, s.runs[r]) && JudgeOk(s, s.runs[r])
  }

  // What makes a request safe for the locks: it creates a version only where there is none or the
  // newest was judged, it removes only its own version or a judged one, and it judges only what it
  // just found stale.
  ghost predicate LockSafe(c: Config, s: State, run: Run, e: Effect)
    requires Fits(c, run) && Fits(c, run.(phase := e.next))
  {
    var file := Subject(c, run);
    var held := At(s.locks, file.dest);
    && (e.lock.Push? ==>
          && e.lock.body == file.generation
          && (held == [] || (c.variant.Yandex? && Judged(c, s, Last(held)))))
    && (e.lock.Remove? ==>
          || (run.phase.Holding() && e.lock.id == run.phase.lock.id && !e.next.Holding())
          || (exists j :: j in s.judged && j.id == e.lock.id))
    && (forall j :: j in e.judge ==> held != [] && j == Last(held) && Stale(j.body, s.now))
    && (e.next.Holding() ==>
          && run.phase.OnFile() && e.next.i == run.phase.i
          && (|| (run.phase.Holding() && e.next.lock == run.phase.lock)
              || (e.lock.Push? && e.next.lock == Version(file.generation, |s.issued|))))
    && (e.next.Evicting? ==> e.next.seen in s.judged + e.judge)
    && (e.next.Replaced? ==> e.next.stale in s.judged)
    && !(e.lock.Push? && e.mark.Push?)
  }

  lemma AcquireIsLockSafe(c: Config, s: State, run: Run, o: Outcome)
    requires Fits(c, run) && JudgeOk(s, run) && run.phase.Competing()
    ensures LockSafe(c, s, run, Respond(c, s, run, o))
  {
    if run.phase.Evicting? && c.variant.Yandex? {
      var held := At(s.locks, FileOf(c, run).dest);
      if held != [] && Last(held).body == run.phase.seen.body {
        assert Judged(c, s, Last(held));
      }
    }
  }

  lemma UploadIsLockSafe(c: Config, s: State, run: Run, o: Outcome)
    requires Fits(c, run) && run.phase.Critical()
    ensures LockSafe(c, s, run, Respond(c, s, run, o))
  {
  }

  lemma ResponseIsLockSafe(c: Config, s: State, run: Run, o: Outcome)
    requires Fits(c, run) && JudgeOk(s, run)
    ensures LockSafe(c, s, run, Respond(c, s, run, o))
  {
    if run.phase.Critical() {
      UploadIsLockSafe(c, s, run, o);
    } else if run.phase.Competing() {
      AcquireIsLockSafe(c, s, run, o);
    }
  }

  lemma TopStays(c: Config, s: State, r: nat, e: Effect, q: nat)
    requires LockInv(c, s) && r in s.runs && q in s.runs && q != r
    requires Fits(c, s.runs[r].(phase := e.next)) && LockSafe(c, s, s.runs[r], e)
    requires s.runs[q].phase.Holding() && !Judged(c, s, s.runs[q].phase.lock)
    ensures OnTop(Commit(s, r, Subject(c, s.runs[r]), e), FileOf(c, s.runs[q]).dest, s.runs[q].phase.lock)
  {
    var lock := s.runs[q].phase.lock;
    assert HolderOk(c, s, s.runs[q]);
    if e.lock.Remove? {
      assert e.lock.id != lock.id by {
        if j :| j in s.judged && j.id == e.lock.id {
          assert Known(s, j);
        }
      }
    }
  }

  // A lock nobody judged survives whatever another run does.
  lemma HolderStays(c: Config, s: State, r: nat, e: Effect, q: nat)
    requires LockInv(c, s) && r in s.runs && q in s.runs && q != r
    requires Fits(c, s.runs[r].(phase := e.next)) && LockSafe(c, s, s.runs[r], e)
    ensures HolderOk(c, Commit(s, r, Subject(c, s.runs[r]), e), s.runs[q])
    ensures var run := s.runs[q];
            run.phase.Holding() && !Judged(c, s, run.phase.lock) ==>
              OnTop(Commit(s, r, Subject(c, s.runs[r]), e), FileOf(c, run).dest, run.phase.lock)
  {
    var run := s.runs[q];
    assert HolderOk(c, s, run);
    if run.phase.Holding() && !Judged(c, s, run.phase.lock) {
      TopStays(c, s, r, e, q);
    }
  }

  lemma OwnLockStays(c: Config, s: State, r: nat, e: Effect)
    requires LockInv(c, s) && r in s.runs
    requires Fits(c, s.runs[r].(phase := e.next)) && LockSafe(c, s, s.runs[r], e)
    ensures HolderOk(c, Commit(s, r, Subject(c, s.runs[r]), e), s.runs[r].(phase := e.next))
  {
  }

  lemma LiveLockStaysLast(c: Config, s: State, r: nat, e: Effect, d: string, v: Version)
    requires LockInv(c, s) && r in s.runs
    requires Fits(c, s.runs[r].(phase := e.next)) && LockSafe(c, s, s.runs[r], e)
    requires var t := Commit(s, r, Subject(c, s.runs[r]), e); v in At(t.locks, d) && !Judged(c, t, v)
    ensures v == Last(At(Commit(s, r, Subject(c, s.runs[r]), e).locks, d))
  {
    assert !Judged(c, s, v);
    assert v in At(s.locks, d) ==> v == Last(At(s.locks, d));
  }

  lemma StoreStays(c: Config, s: State, r: nat, e: Effect)
    requires LockInv(c, s) && r in s.runs
    requires Fits(c, s.runs[r].(phase := e.next)) && LockSafe(c, s, s.runs[r], e)
    ensures StoreOk(c, Commit(s, r, Subject(c, s.runs[r]), e))
  {
    var t := Commit(s, r, Subject(c, s.runs[r]), e);
    assert s.issued <= t.issued;
    forall j | j in t.judged ensures Known(t, j) && Stale(j.body, t.now) {
      if j !in s.judged {
        assert j in e.judge;
        assert j in At(s.locks, Subject(c, s.runs[r]).dest);
      }
      assert Known(s, j);
    }
    forall d, v | v in At(t.locks, d) ensures Known(t, v) {
      assert v in At(s.locks, d) ==> Known(s, v);
    }
    forall d | c.variant.Aws? ensures |At(t.locks, d)| <= 1 {
      assert |At(s.locks, d)| <= 1;
    }
    forall d, v | v in At(t.locks, d) && !Judged(c, t, v) ensures v == Last(At(t.locks, d)) {
      LiveLockStaysLast(c, s, r, e, d, v);
    }
  }

  lemma CommitKeepsLockInv(c: Config, s: State, r: nat, e: Effect)
    requires LockInv(c, s) && r in s.runs
    requires Fits(c, s.runs[r].(phase := e.next)) && LockSafe(c, s, s.runs[r], e)
    ensures LockInv(c, Commit(s, r, Subject(c, s.runs[r]), e))
  {
    var t := Commit(s, r, Subject(c, s.runs[r]), e);
    StoreStays(c, s, r, e);
    OwnLockStays(c, s, r, e);
    forall q | q in t.runs ensures Fits(c, t.runs[q]) && HolderOk(c, t, t.runs[q]) && JudgeOk(t, t.runs[q]) {
      if q != r {
        HolderStays(c, s, r, e, q);
      }
    }
  }

  // Time passing, a run starting and a run crashing leave the store alone.
  lemma EnvironmentKeepsLockInv(c: Config, s: State, t: State)
    requires LockInv(c, s) && WellFormed(c, t)
    requires t == s.(now := t.now, runs := t.runs) && s.now <= t.now
    requires forall r :: r in t.runs ==> (r in s.runs && t.runs[r] == s.runs[r]) || t.runs[r].phase.Booting?
    ensures LockInv(c, t)
  {
    assert t.locks == s.locks && t.judged == s.judged && t.issued == s.issued;
    forall j | j in t.judged ensures Known(t, j) && Stale(j.body, t.now) {
      assert Known(s, j);
    }
    forall d, v | v in At(t.locks, d) ensures Known(t, v) && (!Judged(c, t, v) ==> v == Last(At(t.locks, d))) {
      assert Known(s, v);
      assert v in At(s.locks, d) && Judged(c, t, v) == Judged(c, s, v);
    }
    forall r | r in t.runs ensures HolderOk(c, t, t.runs[r]) && JudgeOk(t, t.runs[r]) {
      if r in s.runs {
        assert HolderOk(c, s, s.runs[r]) && JudgeOk(s, s.runs[r]);
      }
    }
  }

  lemma ApplyKeepsLockInv(c: Config, s: State, a: Action)
    requires LockInv(c, s)
    ensures LockInv(c, Apply(c, s, a))
  {
    if a.Request? && a.run in s.runs {
      ResponseIsLockSafe(c, s, s.runs[a.run], a.outcome);
      CommitKeepsLockInv(c, s, a.run, Respond(c, s, s.runs[a.run], a.outcome));
    } else {
      EnvironmentKeepsLockInv(c, s, Apply(c, s, a));
    }
  }

  lemma {:induction false} ExecKeepsLockInv(c: Config, s: State, acts: seq<Action>)
    requires LockInv(c, s)
    ensures LockInv(c, Exec(c, s, acts))
    decreases |acts|
  {
    if acts != [] {
      ApplyKeepsLockInv(c, s, acts[0]);
      ExecKeepsLockInv(c, Apply(c, s, acts[0]), acts[1..]);
    }
  }

  /** Two runs are inside one destination's critical section only if the lock of one of them had
      been judged stale, and a lock that was judged has outlived its generation by six minutes. */
  lemma MutualExclusion(c: Config, now: int, disk: map<string, string>, acts: seq<Action>, q: nat, r: nat)
    requires var s := Exec(c, Initial(c, now, disk), acts);
             && q in s.runs && r in s.runs && q != r
             && s.runs[q].phase.Holding() && s.runs[r].phase.Holding()
             && FileOf(c, s.runs[q]).dest == FileOf(c, s.runs[r]).dest
    ensures var s := Exec(c, Initial(c, now, disk), acts);
            exists h :: h in {q, r} && Judged(c, s, s.runs[h].phase.lock)
              && Stale(FileOf(c, s.runs[h]).generation, s.now)
  {
    var s := Exec(c, Initial(c, now, disk), acts);
    ExecKeepsLockInv(c, Initial(c, now, disk), acts);
    assert HolderOk(c, s, s.runs[q]) && HolderOk(c, s, s.runs[r]);
    var h := if Judged(c, s, s.runs[q].phase.lock) then q else r;
    assert h in {q, r} && Judged(c, s, s.runs[h].phase.lock);
    assert Stale(s.runs[h].phase.lock.body, s.now);
  }

  /** At most one live lock version exists at a destination; the AWS uploader never even leaves a
      judged one beside it. */
  lemma OneLiveLock(c: Config, now: int, disk: map<string, string>, acts: seq<Action>, d: string, v: Version,
                    w: Version)
    requires var s := Exec(c, Initial(c, now, disk), acts);
             && v in At(s.locks, d) && w in At(s.locks, d)
             && (c.variant.Yandex? ==> !Judged(c, s, v) && !Judged(c, s, w))
    ensures v == w
  {
    ExecKeepsLockInv(c, Initial(c, now, disk), acts);
    var s := Exec(c, Initial(c, now, disk), acts);
    assert c.variant.Aws? ==> |At(s.locks, d)| <= 1;
  }

  /** No release, and no late deletion of a version that is gone, takes away another run's lock: a
      lock nobody had judged is still the newest version after anyone else's step. */
  lemma OthersNeverRemoveALiveLock(c: Config, now: int, disk: map<string, string>, acts: seq<Action>, a: Action, q: nat)
    requires var s := Exec(c, Initial(c, now, disk), acts);
             && q in s.runs && s.runs[q].phase.Holding() && !Judged(c, s, s.runs[q].phase.lock)
             && (a.Request? ==> a.run != q)
    ensures var s := Exec(c, Initial(c, now, disk), acts);
            OnTop(Apply(c, s, a), FileOf(c, s.runs[q]).dest, s.runs[q].phase.lock)
  {
    var s := Exec(c, Initial(c, now, disk), acts);
    ExecKeepsLockInv(c, Initial(c, now, disk), acts);
    assert HolderOk(c, s, s.runs[q]);
    if a.Request? && a.run in s.runs {
      var e := Respond(c, s, s.runs[a.run], a.outcome);
      ResponseIsLockSafe(c, s, s.runs[a.run], a.outcome);
      HolderStays(c, s, a.run, e, q);
    }
  }
}
