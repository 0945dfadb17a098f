/** Whole histories of a signup queue. */
module RegistrationRuns {
  import opened Options
  import opened QueueOrder
  import opened Registrations
  import opened RosterLaws
  import opened SiftLaws

  datatype Move =
    | Enlist(event: string, op: string, key: string, details: Details, wish: string, answer: Option<string>, now: int)
    | Answer(event: string, op: string, keys: seq<string>, choice: string, now: int)
    | Confirm(event: string, op: string, key: string, wish: string, replaced: Option<(string, string)>, now: int)
    | ConfirmLinked(event: string, op: string, keys: seq<string>, wish: string,
                    freed: Option<string>, replacedKeys: seq<string>, now: int)
    | Cancel(event: string, op: string, key: string, now: int)
    | CancelLinked(event: string, op: string, keys: seq<string>, now: int)
    | Sift(event: string)
    | Swap(event: string, op: string, key: string, keyAt: int, other: string, otherAt: int, now: int)
    | Remove(event: string, key: string)

  predicate Done(rows: Table, event: string, op: string, p: string)
  {
    (event, p) in rows && rows[(event, p)].lastOperation == op
  }

  // The requests the repository accepts.
  predicate Allowed(rows: Table, m: Move)
  {
    match m
    case Confirm(event, _, key, _, replaced, _) =>
      (event, key) in rows && (replaced.Some? ==> replaced.value.0 != event)
    case ConfirmLinked(event, _, _, _, freed, replacedKeys, _) =>
      (freed.None? <==> replacedKeys == []) && freed != Some(event)
    case Cancel(event, _, key, _) => (event, key) in rows
    case _ => true
  }

  // What a request does to the table.
  ghost predicate Performs(before: Table, m: Move, after: Table)
    requires Allowed(before, m)
  {
    match m
    case Enlist(event, op, key, details, wish, answer, now) =>
      if Done(before, event, op, key) then after == before
      else Enlisted(before, after, event, op, key, details, wish, answer, now)
    case Answer(event, op, keys, choice, now) =>
      if Unapplied(before, event, keys, op) && Unanswered(before, event, keys, choice)
      then Answered(before, after, event, keys, op, choice, now) else after == before
    case Confirm(event, op, key, wish, replaced, now) =>
      var others := if replaced.Some? then before - {replaced.value} else before;
      after == if Done(before, event, op, key) then others
               else others[(event, key) := Confirming(others[(event, key)], op, wish, now)]
    case ConfirmLinked(event, op, keys, wish, freed, replacedKeys, now) =>
      var left := if freed.Some? then CancelAll(before, freed.value, replacedKeys, op, now) else before;
      after == ConfirmAll(left, event, keys, op, wish, now)
    case Cancel(event, op, key, now) =>
      after == if Done(before, event, op, key) then before
               else before[(event, key) := Cancelling(before[(event, key)], op, now)]
    case CancelLinked(event, op, keys, now) => after == CancelAll(before, event, keys, op, now)
    case Sift(event) => Sifted(before, after, event)
    case Swap(event, op, key, keyAt, other, otherAt, now) =>
      if (event, key) !in before || (event, other) !in before
         || (Done(before, event, op, key) && Done(before, event, op, other))
      then after == before
      else
        var once := before[(event, key) := Place(before[(event, key)], otherAt, op, now)];
        after == once[(event, other) := Place(once[(event, other)], keyAt, op, now)]
    case Remove(event, key) => after == before - {(event, key)}
  }

  /** The repository carries out every request this way. */
  method Carry(repository: Repository, m: Move)
    requires Allowed(repository.rows, m)
    modifies repository
    ensures Performs(old(repository.rows), m, repository.rows)
  {
    match m {
      case Enlist(event, op, key, details, wish, answer, now) =>
        var _ := repository.Enlist(event, op, key, details, wish, answer, now);
      case Answer(event, op, keys, choice, now) =>
        var _ := repository.UpdateAnswer(event, op, keys, choice, now);
      case Confirm(event, op, key, wish, replaced, now) =>
        var _ := repository.Confirm(event, op, key, wish, replaced, now);
      case ConfirmLinked(event, op, keys, wish, freed, replacedKeys, now) =>
        var _ := repository.ConfirmLinked(event, op, keys, wish, freed, replacedKeys, now);
      case Cancel(event, op, key, now) =>
        var _ := repository.Cancel(event, op, key, now);
      case CancelLinked(event, op, keys, now) =>
        var _ := repository.CancelLinked(event, op, keys, now);
      case Sift(event) =>
        repository.SiftWaitingToEnd(event);
      case Swap(event, op, key, keyAt, other, otherAt, now) =>
        var _ := repository.SwapQueuePositions(event, op, key, keyAt, other, otherAt, now);
      case Remove(event, key) =>
        var _ := repository.Remove(event, key);
    }
  }

  // ----- Queue times never tie -----

  ghost predicate QuestionFree(rows: Table, event: string)
  {
    forall k :: k in rows && k.0 == event ==> rows[k].answer.None? && rows[k].answerQueueAt.None?
  }

  ghost predicate TieFree(rows: Table, event: string)
  {
    QuestionFree(rows, event) && DistinctTimes(TimesOf(rows, event, None))
  }

  // How the game's own commands use the repository: no answers, only active rows are confirmed, and a
  // swap gives the current times of two active rows.
  ghost predicate Orderly(rows: Table, m: Move, event: string)
  {
    && Allowed(rows, m)
    && (m.event == event ==>
          match m
          case Enlist(_, _, _, _, _, answer, _) => answer.None?
          case Answer(_, _, _, _, _) => false
          case Confirm(_, _, key, _, _, _) => Active(rows, event, key)
          case ConfirmLinked(_, op, keys, _, _, _, _) =>
            forall k :: Pending(rows, event, keys, op, k) ==> Active(rows, event, k.1)
          case Swap(_, _, key, keyAt, other, otherAt, _) =>
            && Active(rows, event, key) && keyAt == QueueTime(rows[(event, key)])
            && Active(rows, event, other) && otherAt == QueueTime(rows[(event, other)])
          case _ => true)
  }

  // Some may have left, nobody moved.
  ghost predicate Thinned(times: Times, rest: Times)
  {
    forall p :: p in rest ==> p in times && rest[p] == times[p]
  }

  // No row of the event is new or moved, and none is active that was not.
  ghost predicate RowsThinned(before: Table, after: Table, event: string)
  {
    forall p :: (event, p) in after ==>
      (event, p) in before && var row, was := after[(event, p)], before[(event, p)];
      && (row.answer, row.answerQueueAt, row.createdAt) == (was.answer, was.answerQueueAt, was.createdAt)
      && (was.status.Cancelled? ==> row.status.Cancelled?)
  }

  lemma RowsThinnedTimes(before: Table, after: Table, event: string)
    requires RowsThinned(before, after, event)
    ensures Thinned(TimesOf(before, event, None), TimesOf(after, event, None))
    ensures QuestionFree(before, event) ==> QuestionFree(after, event)
    ensures TieFree(before, event) ==> TieFree(after, event)
  {
    assert forall k :: k in after && k.0 == event ==> (event, k.1) in before;
  }

  lemma ThinningMoves(before: Table, m: Move, after: Table, event: string)
    requires Orderly(before, m, event) && Performs(before, m, after)
    requires m.event != event || m.Confirm? || m.ConfirmLinked? || m.Cancel? || m.CancelLinked? || m.Remove?
    ensures RowsThinned(before, after, event)
  {
    if m.Sift? {
      SiftTouchesOneEvent(before, after, m.event);
    } else if m.Answer? {
      assert forall p :: (event, p) in after ==> (event, p) in before && after[(event, p)] == before[(event, p)];
    }
  }

  lemma SiftTouchesOneEvent(before: Table, after: Table, event: string)
    requires Sifted(before, after, event)
    ensures after.Keys == before.Keys && forall k :: k in before && k.0 != event ==> after[k] == before[k]
  {
    if TimesOf(before, event, None) != map[] {
      var span :| IsSpan(TimesOf(before, event, None), span) && after == SiftBy(before, event, span);
    }
  }

  predicate InView(row: Registration, view: Option<string>)
  {
    !row.status.Cancelled? && (view.None? || row.answer == view)
  }

  // Writing one row changes the queue times of one participant.
  lemma TimesAfterWrite(before: Table, event: string, p: string, row: Registration, view: Option<string>)
    ensures var times := TimesOf(before, event, view);
            TimesOf(before[(event, p) := row], event, view) ==
            if InView(row, view) then times[p := QueueTime(row)] else times - {p}
  {
    var after := before[(event, p) := row];
    var times, written := TimesOf(before, event, view), TimesOf(after, event, view);
    forall q | q != p ensures (q in written <==> q in times) && (q in times ==> written[q] == times[q]) {
      assert (event, q) in after <==> (event, q) in before;
    }
  }

  lemma JoinsLast(before: Table, after: Table, event: string, op: string, p: string, details: Details, wish: string,
                  answer: Option<string>, now: int, latest: Option<int>, view: Option<string>)
    requires !Active(before, event, p) && IsLatest(TimesOf(before, event, None), latest)
    requires after == EnlistAt(before, event, op, p, details, wish, answer, now, JoinTime(now, latest))
    ensures var times := TimesOf(before, event, view);
            if view.None? || view == answer
            then && p !in times && (forall q :: q in times ==> times[q] < JoinTime(now, latest))
                 && TimesOf(after, event, view) == times[p := JoinTime(now, latest)]
            else TimesOf(after, event, view) == times
  {
    var all, times := TimesOf(before, event, None), TimesOf(before, event, view);
    assert forall q :: q in times ==> q in all && times[q] == all[q];
    TimesAfterWrite(before, event, p, after[(event, p)], view);
    assert after == before[(event, p) := after[(event, p)]];
  }

  /** Whoever signs up after absence or cancellation is last in the queue - also when sifts have put
      queue times into the future - and last among those with the same answer. */
  lemma EnlistGoesLast(before: Table, after: Table, event: string, op: string, p: string, details: Details,
                       wish: string, answer: Option<string>, now: int, view: Option<string>)
    requires !Active(before, event, p) && Enlisted(before, after, event, op, p, details, wish, answer, now)
    ensures ActiveQueue(after, event, view) ==
            ActiveQueue(before, event, view) + if view.None? || view == answer then [p] else []
  {
    var latest :| IsLatest(TimesOf(before, event, None), latest) &&
      after == EnlistAt(before, event, op, p, details, wish, answer, now, JoinTime(now, latest));
    JoinsLast(before, after, event, op, p, details, wish, answer, now, latest, view);
    if view.None? || view == answer {
      QueueWithLast(TimesOf(before, event, view), p, JoinTime(now, latest));
    }
  }

  lemma EnlistKeepsTieFree(before: Table, m: Move, after: Table, event: string)
    requires m.Enlist? && m.event == event && Orderly(before, m, event) && Performs(before, m, after)
    requires TieFree(before, event)
    ensures TieFree(after, event)
  {
    if !Done(before, event, m.op, m.key) {
      if Active(before, event, m.key) {
        RowsThinnedTimes(before, after, event);
      } else {
        var latest :| IsLatest(TimesOf(before, event, None), latest) &&
          after == EnlistAt(before, event, m.op, m.key, m.details, m.wish, None, m.now, JoinTime(m.now, latest));
        JoinsLast(before, after, event, m.op, m.key, m.details, m.wish, None, m.now, latest, None);
      }
    }
  }

  lemma MovesKeepDistinct(times: Times, moved: Times, waiting: set<string>, span: int)
    requires Moves(times, moved, waiting, span) && DistinctTimes(times)
    ensures DistinctTimes(moved)
  {
    forall p, q | p in moved && q in moved && p != q ensures moved[p] != moved[q] {
      assert times[p] < times[q] + span && times[q] < times[p] + span;
    }
  }

  lemma SiftKeepsTieFree(before: Table, after: Table, event: string)
    requires Sifted(before, after, event) && TieFree(before, event)
    ensures TieFree(after, event)
  {
    if TimesOf(before, event, None) != map[] {
      var span :| IsSpan(TimesOf(before, event, None), span) && after == SiftBy(before, event, span);
      SiftByMovesFree(before, event, span);
      MovesKeepDistinct(TimesOf(before, event, None), TimesOf(after, event, None),
                        InStatus(before, event, Waiting), span);
    }
  }

  lemma SiftByMovesFree(before: Table, event: string, span: int)
    requires QuestionFree(before, event) && IsSpan(TimesOf(before, event, None), span)
    ensures QuestionFree(SiftBy(before, event, span), event)
    ensures Moves(TimesOf(before, event, None), TimesOf(SiftBy(before, event, span), event, None),
                  InStatus(before, event, Waiting), span)
  {
    var after := SiftBy(before, event, span);
    var times, moved := TimesOf(before, event, None), TimesOf(after, event, None);
    forall p ensures p in moved <==> p in times {
      assert (event, p) in after <==> (event, p) in before;
    }
    forall p | p in times ensures moved[p] == times[p] + if p in InStatus(before, event, Waiting) then span else 0 {
      assert (event, p) in after && (event, p) in before;
    }
  }

  // Neither of the two keeps an answer's queue time without an answer.
  ghost predicate PlacesKept(rows: Table, m: Move)
    requires m.Swap?
  {
    forall p :: p in {m.key, m.other} && (m.event, p) in rows && rows[(m.event, p)].answer.None? ==>
      rows[(m.event, p)].answerQueueAt.None?
  }

  lemma SwapExchanges(before: Table, m: Move, after: Table, view: Option<string>)
    requires m.Swap? && Allowed(before, m) && Performs(before, m, after) && PlacesKept(before, m)
    requires !(Done(before, m.event, m.op, m.key) && Done(before, m.event, m.op, m.other))
    requires Queued(before, m.event, view, m.key) && Queued(before, m.event, view, m.other)
    requires m.keyAt == QueueTime(before[(m.event, m.key)]) && m.otherAt == QueueTime(before[(m.event, m.other)])
    ensures var times := TimesOf(before, m.event, view);
            TimesOf(after, m.event, view) == times[m.key := times[m.other]][m.other := times[m.key]]
  {
    var row := Place(before[(m.event, m.key)], m.otherAt, m.op, m.now);
    var once := before[(m.event, m.key) := row];
    TimesAfterWrite(before, m.event, m.key, row, view);
    TimesAfterWrite(once, m.event, m.other, Place(once[(m.event, m.other)], m.keyAt, m.op, m.now), view);
  }

  /** Swapping two participants exchanges their places and nobody else's. */
  lemma SwapTransposes(before: Table, m: Move, after: Table, view: Option<string>, i: nat, j: nat)
    requires m.Swap? && Allowed(before, m) && Performs(before, m, after) && PlacesKept(before, m)
    requires !(Done(before, m.event, m.op, m.key) && Done(before, m.event, m.op, m.other))
    requires DistinctTimes(TimesOf(before, m.event, view))
    requires var q := ActiveQueue(before, m.event, view); i < |q| && j < |q| && m.key == q[i] && m.other == q[j]
    requires Queued(before, m.event, view, m.key) && Queued(before, m.event, view, m.other)
    requires m.keyAt == QueueTime(before[(m.event, m.key)]) && m.otherAt == QueueTime(before[(m.event, m.other)])
    ensures var q := ActiveQueue(before, m.event, view); ActiveQueue(after, m.event, view) == q[i := q[j]][j := q[i]]
  {
    SwapExchanges(before, m, after, view);
    QueueOfExchange(TimesOf(before, m.event, view), i, j);
  }

  /** Promoting from the reserve changes one place of the main roster: the demoted participant's. */
  lemma PromotionReplacesOne(before: Table, m: Move, after: Table, view: Option<string>, capacity: nat, i: nat, j: nat)
    requires m.Swap? && Allowed(before, m) && Performs(before, m, after) && PlacesKept(before, m)
    requires !(Done(before, m.event, m.op, m.key) && Done(before, m.event, m.op, m.other))
    requires DistinctTimes(TimesOf(before, m.event, view))
    requires var q := ActiveQueue(before, m.event, view); i < capacity <= j < |q| && m.other == q[i] && m.key == q[j]
    requires Queued(before, m.event, view, m.key) && Queued(before, m.event, view, m.other)
    requires m.keyAt == QueueTime(before[(m.event, m.key)]) && m.otherAt == QueueTime(before[(m.event, m.other)])
    ensures Main(ActiveQueue(after, m.event, view), capacity)
         == Main(ActiveQueue(before, m.event, view), capacity)[i := m.key]
  {
    SwapTransposes(before, m, after, view, j, i);
  }

  // ----- Changing an answer -----

  lemma LateGroup(times: Times, front: set<string>)
    requires forall p, q :: p in times && q in times && p in front && q !in front ==> times[p] < times[q]
    ensures Queue(times) == Select(Queue(times), front) + Select(Queue(times), times.Keys - front)
  {
    QueueOfTwoGroups(times, times, front);
  }

  lemma SameSelection(times: Times, moved: Times, keep: set<string>)
    requires Restrict(times, keep) == Restrict(moved, keep)
    ensures Select(Queue(times), keep) == Select(Queue(moved), keep)
  {
    QueueOfSome(times, keep);
    QueueOfSome(moved, keep);
  }

  lemma RestrictedAlike(times: Times, moved: Times, stay: set<string>)
    requires stay <= times.Keys && stay <= moved.Keys && forall p :: p in stay ==> times[p] == moved[p]
    ensures Restrict(times, stay) == Restrict(moved, stay)
  {
  }

  lemma LatecomersGoLast(times: Times, moved: Times, movers: set<string>, time: int)
    requires moved.Keys == times.Keys + movers && forall p :: p in times ==> times[p] < time
    requires forall p :: p in moved ==> moved[p] == if p in movers then time else times[p]
    ensures Queue(moved) == Select(Queue(times), times.Keys - movers) + Select(Queue(moved), movers)
  {
    var stay := times.Keys - movers;
    assert moved.Keys - stay == movers;
    LateGroup(moved, stay);
    RestrictedAlike(times, moved, stay);
    SameSelection(times, moved, stay);
  }

  /** Those who change to an answer go behind everyone who already gave it; the others keep their
      order. */
  lemma ChangedAnswersGoLast(before: Table, after: Table, event: string, keys: seq<string>, op: string,
                             answer: string, now: int)
    requires Answered(before, after, event, keys, op, answer, now)
    ensures var movers := set p | p in keys && Active(before, event, p);
            var q := ActiveQueue(after, event, Some(answer));
            && q == Select(ActiveQueue(before, event, Some(answer)), TimesOf(before, event, Some(answer)).Keys - movers)
                 + Select(q, movers)
            && forall p :: p in movers ==> p in q
  {
    var latest :| IsLatest(TimesOf(before, event, Some(answer)), latest) &&
      after == AnswerAt(before, event, keys, op, answer, now, AnswerTime(now, latest));
    var movers := set p | p in keys && Active(before, event, p);
    AnswerMovesTimes(before, event, keys, op, answer, now, AnswerTime(now, latest));
    LatecomersGoLast(TimesOf(before, event, Some(answer)), TimesOf(after, event, Some(answer)),
                     movers, AnswerTime(now, latest));
  }

  lemma AnswerMovesTimes(before: Table, event: string, keys: seq<string>, op: string, answer: string, now: int,
                         time: int)
    ensures var after := AnswerAt(before, event, keys, op, answer, now, time);
            var times, moved := TimesOf(before, event, Some(answer)), TimesOf(after, event, Some(answer));
            var movers := set p | p in keys && Active(before, event, p);
            && moved.Keys == times.Keys + movers
            && forall p :: p in moved ==> moved[p] == if p in movers then time else times[p]
  {
    var after := AnswerAt(before, event, keys, op, answer, now, time);
    var times, moved := TimesOf(before, event, Some(answer)), TimesOf(after, event, Some(answer));
    var movers := set p | p in keys && Active(before, event, p);
    forall p ensures p in moved <==> p in times || p in movers {
      assert (event, p) in after <==> (event, p) in before;
    }
    forall p | p in moved ensures moved[p] == if p in movers then time else times[p] {
      assert (event, p) in after && (event, p) in before;
    }
  }

  /** Every request keeps answers and their queue times together. */
  lemma MovesKeepAnswersConsistent(before: Table, m: Move, after: Table)
    requires Allowed(before, m) && Performs(before, m, after) && AnswersConsistent(before)
    ensures AnswersConsistent(after)
  {
    if m.Sift? {
      SiftKeepsStatus(before, after, m.event);
    }
  }

  /** One step of an orderly history never makes two active participants tie. */
  lemma StepKeepsTieFree(before: Table, m: Move, after: Table, event: string)
    requires Orderly(before, m, event) && Performs(before, m, after) && TieFree(before, event)
    ensures TieFree(after, event)
  {
    if m.event != event || m.Confirm? || m.ConfirmLinked? || m.Cancel? || m.CancelLinked? || m.Remove? {
      ThinningMoves(before, m, after, event);
      RowsThinnedTimes(before, after, event);
    } else if m.Enlist? {
      EnlistKeepsTieFree(before, m, after, event);
    } else if m.Sift? {
      SiftKeepsTieFree(before, after, event);
    } else {
      SwapKeepsTieFree(before, m, after, event);
    }
  }

  lemma SwapKeepsTieFree(before: Table, m: Move, after: Table, event: string)
    requires m.Swap? && m.event == event && Orderly(before, m, event) && Performs(before, m, after)
    requires TieFree(before, event)
    ensures TieFree(after, event)
  {
    if !(Done(before, event, m.op, m.key) && Done(before, event, m.op, m.other)) {
      SwapExchanges(before, m, after, None);
    }
  }

  // A history: the table before and after each request.
  ghost predicate History(tables: seq<Table>, moves: seq<Move>, event: string)
  {
    && |tables| == |moves| + 1
    && forall i :: 0 <= i < |moves| ==>
         Orderly(tables[i], moves[i], event) && Performs(tables[i], moves[i], tables[i+1])
  }

  /** Over every orderly history of any length, in any order, the queue times of a question-free game
      stay pairwise different. */
  lemma {:induction false} HistoryKeepsTieFree(tables: seq<Table>, moves: seq<Move>, event: string, n: nat)
    requires History(tables, moves, event) && n <= |moves| && TieFree(tables[0], event)
    ensures TieFree(tables[n], event)
  {
    if n > 0 {
      HistoryKeepsTieFree(tables, moves, event, n - 1);
      StepKeepsTieFree(tables[n-1], moves[n-1], tables[n], event);
    }
  }

  /** Confirming keeps queue times different exactly when the row is active or its time is still free. */
  lemma ConfirmTiesExactly(before: Table, event: string, p: string, op: string, wish: string, now: int)
    requires (event, p) in before && DistinctTimes(TimesOf(before, event, None))
    ensures var times := TimesOf(before, event, None);
            var after := before[(event, p) := Confirming(before[(event, p)], op, wish, now)];
            DistinctTimes(TimesOf(after, event, None)) <==>
            Active(before, event, p) || forall q :: q in times ==> times[q] != QueueTime(before[(event, p)])
  {
    var times := TimesOf(before, event, None);
    TimesAfterWrite(before, event, p, Confirming(before[(event, p)], op, wish, now), None);
  }

  function Row(status: Status, time: int): Registration
  {
    Registration(Details("", None, None, None, "", None), "", "", status, None, None, "", time, time)
  }

  function Three(): Table
  {
    map[("game", "a") := Row(Cancelled, 3), ("game", "b") := Row(Waiting, 1), ("game", "c") := Row(Status.Confirmed, 2)]
  }

  lemma TimesOfThree()
    ensures TimesOf(Three(), "game", None) == map["b" := 1, "c" := 2]
  {
    assert forall p :: p in TimesOf(Three(), "game", None) <==> p in {"b", "c"};
  }

  lemma ThreeIsTieFree()
    ensures TieFree(Three(), "game") && TimesOf(Three(), "game", None) == map["b" := 1, "c" := 2]
  {
    TimesOfThree();
  }

  lemma SpanOfTwo(times: Times)
    requires times == map["b" := 1, "c" := 2]
    ensures IsSpan(times, 2)
  {
    assert Extremes(times, "b", "c");
  }

  lemma SiftedBySpan(before: Table, event: string, span: int)
    requires IsSpan(TimesOf(before, event, None), span)
    ensures Sifted(before, SiftBy(before, event, span), event)
  {
  }

  lemma ThreeTie(after: Table)
    requires after == SiftBy(Three(), "game", 2)
    ensures ("game", "a") in after && !Active(after, "game", "a")
    ensures !DistinctTimes(TimesOf(after[("game", "a") := Confirming(after[("game", "a")], "op", "", 0)], "game", None))
  {
    assert ("game", "a") in after && ("game", "b") in after;
    var times := TimesOf(after, "game", None);
    assert "b" in times && times["b"] == 3;
    TimesAfterWrite(after, "game", "a", Confirming(after[("game", "a")], "op", "", 0), None);
  }

  /** Nothing keeps a cancelled row's time free: a sift can move somebody else onto it. */
  lemma ConfirmingACancelledRowCanTie() returns (before: Table, after: Table)
    ensures TieFree(before, "game") && Performs(before, Sift("game"), after)
    ensures ("game", "a") in after && !Active(after, "game", "a")
    ensures !DistinctTimes(TimesOf(after[("game", "a") := Confirming(after[("game", "a")], "op", "", 0)], "game", None))
  {
    before := Three();
    after := SiftBy(before, "game", 2);
    ThreeIsTieFree();
    SpanOfTwo(TimesOf(before, "game", None));
    SiftedBySpan(before, "game", 2);
    ThreeTie(after);
  }
}
