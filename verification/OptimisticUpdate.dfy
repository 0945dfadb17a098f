/** Compare-and-set updates of one stored row: read it, change a copy, write the copy back unless the
    row's revision has moved on, and try again up to four times. */
module OptimisticUpdate {
  const ATTEMPTS: nat := 4

  // What a mutation makes of a payload.
  datatype Verdict<P> = Change(payload: P) | NoChange | Fault

  type Mutation<!P> = P -> Verdict<P>

  datatype Row<P> = Row(payload: P, revision: int)

  // What the caller gets. `Unanswered` is the error of a write whose answer was lost.
  datatype Result = Changed | Unchanged | Failed | Unanswered

  datatype Stage<P> =
    | Reading
    | Writing(expected: int, payload: P)
    | Returned(result: Result)

  datatype Call<!P> = Call(mutation: Mutation<P>, attempt: nat, stage: Stage<P>)

  datatype Commit<!P> = Commit(call: nat, mutation: Mutation<P>)

  // `log` lists the writes the store accepted, in order.
  datatype State<!P> = State(row: Row<P>, calls: map<nat, Call<P>>, log: seq<Commit<P>>)

  datatype Fate = Answered | AnswerLost | NeverSent

  datatype Action<!P> =
    | Invoke(call: nat, mutation: Mutation<P>)
    | Read(call: nat, ok: bool)
    | Write(call: nat, fate: Fate)

  ghost function To<P>(s: State<P>, call: nat, attempt: nat, stage: Stage<P>): State<P>
    requires call in s.calls
  {
    s.(calls := s.calls[call := Call(s.calls[call].mutation, attempt, stage)])
  }

  // Reading the row and applying the mutation to a copy.
  ghost function ReadStep<P>(s: State<P>, call: nat, ok: bool): State<P>
    requires call in s.calls
  {
    var c := s.calls[call];
    if !ok then To(s, call, c.attempt, Returned(Failed))
    else
      match c.mutation(s.row.payload)
      case Change(p) => To(s, call, c.attempt, Writing(s.row.revision, p))
      case NoChange => To(s, call, c.attempt, Returned(Unchanged))
      case Fault => To(s, call, c.attempt, Returned(Failed))
  }

  // The conditional write.
  ghost function WriteStep<P>(s: State<P>, call: nat, fate: Fate): State<P>
    requires call in s.calls && s.calls[call].stage.Writing?
  {
    var c := s.calls[call];
    if fate.NeverSent? then To(s, call, c.attempt, Returned(Failed))
    else if c.stage.expected == s.row.revision then
      var done := To(s, call, c.attempt, Returned(if fate.Answered? then Changed else Unanswered));
      done.(row := Row(c.stage.payload, s.row.revision + 1), log := s.log + [Commit(call, c.mutation)])
    else if fate.AnswerLost? || c.attempt + 1 >= ATTEMPTS then To(s, call, c.attempt, Returned(Failed))
    else To(s, call, c.attempt + 1, Reading)
  }

  ghost function Next<P>(s: State<P>, a: Action<P>): State<P>
  {
    match a
    case Invoke(call, mutation) =>
      if call in s.calls then s else s.(calls := s.calls[call := Call(mutation, 0, Reading)])
    case Read(call, ok) =>
      if call in s.calls && s.calls[call].stage.Reading? then ReadStep(s, call, ok) else s
    case Write(call, fate) =>
      if call in s.calls && s.calls[call].stage.Writing? then WriteStep(s, call, fate) else s
  }

  ghost function Exec<P>(s: State<P>, actions: seq<Action<P>>): State<P>
    decreases |actions|
  {
    if actions == [] then s else Exec(Next(s, actions[0]), actions[1..])
  }

  ghost predicate Initial<P>(s: State<P>)
  {
    s.calls == map[] && s.log == []
  }

  ghost function Front<T>(s: seq<T>): (front: seq<T>)
    requires s != []
    ensures |front| == |s| - 1
  {
    s[..|s|-1]
  }

  // Applying mutations one after another, each of which must make a change.
  ghost predicate Replays<P(!new)>(from: P, log: seq<Commit<P>>, to: P)
    decreases |log|
  {
    if log == [] then from == to
    else exists p :: Replays(from, Front(log), p) && log[|log|-1].mutation(p) == Change(to)
  }

  ghost function Commits<P>(log: seq<Commit<P>>, call: nat): nat
  {
    if log == [] then 0 else Commits(Front(log), call) + if log[|log|-1].call == call then 1 else 0
  }

  ghost predicate CallInv<P>(s: State<P>, call: nat)
    requires call in s.calls
  {
    var c := s.calls[call];
    && c.attempt < ATTEMPTS
    && (c.stage.Writing? ==>
          c.stage.expected <= s.row.revision &&
          (c.stage.expected == s.row.revision ==> c.mutation(s.row.payload) == Change(c.stage.payload)))
    && Commits(s.log, call) ==
         if c.stage.Returned? && (c.stage.result.Changed? || c.stage.result.Unanswered?) then 1 else 0
  }

  ghost predicate Inv<P(!new)>(s: State<P>, start: Row<P>)
  {
    && Replays(start.payload, s.log, s.row.payload)
    && s.row.revision == start.revision + |s.log|
    && (forall call :: call in s.calls ==> CallInv(s, call))
    && (forall call :: call !in s.calls ==> Commits(s.log, call) == 0)
  }

  lemma WriteKeepsInv<P(!new)>(s: State<P>, start: Row<P>, call: nat, fate: Fate)
    requires Inv(s, start) && call in s.calls && s.calls[call].stage.Writing?
    ensures Inv(WriteStep(s, call, fate), start)
  {
    var t := WriteStep(s, call, fate);
    assert CallInv(s, call);
    if t.log != s.log {
      assert Front(t.log) == s.log;
      assert Replays(start.payload, Front(t.log), s.row.payload);
    }
    forall other | other in t.calls ensures CallInv(t, other) {
      assert CallInv(s, other);
    }
  }

  lemma NextKeepsInv<P(!new)>(s: State<P>, start: Row<P>, a: Action<P>)
    requires Inv(s, start)
    ensures Inv(Next(s, a), start)
  {
    var t := Next(s, a);
    if a.Write? && a.call in s.calls && s.calls[a.call].stage.Writing? {
      WriteKeepsInv(s, start, a.call, a.fate);
    } else {
      forall other | other in t.calls ensures CallInv(t, other) {
        assert other in s.calls ==> CallInv(s, other);
      }
    }
  }

  lemma {:induction false} ExecKeepsInv<P(!new)>(s: State<P>, start: Row<P>, actions: seq<Action<P>>)
    requires Inv(s, start)
    ensures Inv(Exec(s, actions), start)
    decreases |actions|
  {
    if actions != [] {
      NextKeepsInv(s, start, actions[0]);
      ExecKeepsInv(Next(s, actions[0]), start, actions[1..]);
    }
  }

  /** Whatever the interleaving, the stored payload is the result of applying the accepted mutations one
      after another in revision order, each to what the one before left, and the revision counts them. */
  lemma Serialisable<P(!new)>(start: State<P>, actions: seq<Action<P>>)
    requires Initial(start)
    ensures var s := Exec(start, actions);
            && Replays(start.row.payload, s.log, s.row.payload)
            && s.row.revision == start.row.revision + |s.log|
  {
    ExecKeepsInv(start, start.row, actions);
  }

  /** A call that reports a change made it exactly once; one that reports none or fails left no trace,
      except that a write whose answer is lost has been made, once. No call tries more than four times. */
  lemma EachCallCommitsOnce<P(!new)>(start: State<P>, actions: seq<Action<P>>, call: nat)
    requires Initial(start)
    ensures var s := Exec(start, actions);
            if call in s.calls && s.calls[call].stage.Returned? then
              Commits(s.log, call) == match s.calls[call].stage.result
                                      case Changed => 1
                                      case Unanswered => 1
                                      case Unchanged => 0
                                      case Failed => 0
            else Commits(s.log, call) == 0
    ensures var s := Exec(start, actions); call in s.calls ==> s.calls[call].attempt < ATTEMPTS
  {
    ExecKeepsInv(start, start.row, actions);
    var s := Exec(start, actions);
    assert call in s.calls ==> CallInv(s, call);
  }

  // ----- One call, with the other writers' commits between its reads and its writes -----

  // The row as it stands before each of a call's writes: whoever else writes raises the revision.
  ghost predicate Timeline<P(!new)>(rows: seq<Row<P>>)
  {
    |rows| == ATTEMPTS + 1 &&
    forall k :: 0 <= k < ATTEMPTS ==> rows[k] == rows[k+1] || rows[k].revision < rows[k+1].revision
  }

  // What becomes of one attempt's requests: whether the read is answered, and the fate of the write.
  datatype Luck = Luck(read: bool, write: Fate)

  class Store<!P(!new)> {
    var row: Row<P>

    constructor (row: Row<P>)
      ensures this.row == row
    {
      this.row := row;
    }

    method Update(expected: int, payload: P) returns (accepted: bool)
      modifies this
      ensures accepted == (old(row).revision == expected)
      ensures row == if accepted then Row(payload, expected + 1) else old(row)
    {
      accepted := row.revision == expected;
      if accepted {
        row := Row(payload, row.revision + 1);
      }
    }

    /** The retry loop. `rows[k + 1]` is the row the others have left when its k-th write arrives, and
        `lucks[k]` what becomes of its k-th attempt. A change is made on top of the latest row, and only
        a row that stayed put between the read and the write is overwritten; it is reported unless the
        answer is lost. A failed call has changed nothing: a read or a write did not get through, the
        mutation raised, or each of its writes met a conflict. */
    method Mutate(mutation: Mutation<P>, rows: seq<Row<P>>, lucks: seq<Luck>) returns (result: Result, writes: nat)
      requires Timeline(rows) && rows[0] == row && |lucks| == ATTEMPTS
      modifies this
      ensures writes <= ATTEMPTS
      ensures result.Changed? || result.Unanswered? ==>
                && writes > 0 && rows[writes-1] == rows[writes] && mutation(rows[writes].payload).Change?
                && row == Row(mutation(rows[writes].payload).payload, rows[writes].revision + 1)
                && lucks[writes-1].write == if result.Changed? then Answered else AnswerLost
      ensures result.Unchanged? ==>
                writes < ATTEMPTS && lucks[writes].read && row == rows[writes] && mutation(row.payload).NoChange?
      ensures result.Failed? ==> row == rows[writes]
      ensures result.Failed? ==>
                || (writes < ATTEMPTS && (!lucks[writes].read || mutation(row.payload).Fault?))
                || (writes > 0 && lucks[writes-1].write.NeverSent?)
                || (writes > 0 && lucks[writes-1].write.AnswerLost? && rows[writes-1] != rows[writes])
                || (writes == ATTEMPTS && rows[writes-1] != rows[writes])
      ensures forall k :: 0 <= k < writes - 1 ==>
                rows[k].revision < rows[k+1].revision && lucks[k] == Luck(true, Answered)
    {
      writes := 0;
      while writes < ATTEMPTS
        invariant writes <= ATTEMPTS && row == rows[writes]
        invariant forall k :: 0 <= k < writes ==>
                    rows[k].revision < rows[k+1].revision && lucks[k] == Luck(true, Answered)
      {
        if !lucks[writes].read {
          return Failed, writes;
        }
        var read := row;
        var verdict := mutation(read.payload);
        if verdict.NoChange? {
          return Unchanged, writes;
        }
        if verdict.Fault? {
          return Failed, writes;
        }
        row := rows[writes+1];
        var fate := lucks[writes].write;
        writes := writes + 1;
        if fate.NeverSent? {
          return Failed, writes;
        }
        var accepted := Update(read.revision, verdict.payload);
        if accepted {
          return if fate.Answered? then Changed else Unanswered, writes;
        }
        if fate.AnswerLost? {
          return Failed, writes;
        }
      }
      return Failed, writes;
    }
  }
}
