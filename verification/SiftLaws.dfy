/** Sifting: waiting participants move behind the confirmed ones. */
module SiftLaws {
  import opened Options
  import opened QueueOrder
  import opened Registrations
  import opened RosterLaws

  ghost function InStatus(rows: Table, event: string, status: Status): (keys: set<string>)
    ensures forall p :: p in keys <==> WithStatus(rows, event, p, status)
  {
    set p | p in Participants(rows, event) && WithStatus(rows, event, p, status)
  }

  // ----- How a sift moves the times of a queue -----

  // Some move by the same amount, which takes them past everyone else.
  ghost predicate Moves(times: Times, moved: Times, waiting: set<string>, span: int)
  {
    && span >= 1 && moved.Keys == times.Keys
    && (forall p :: p in times ==> moved[p] == times[p] + if p in waiting then span else 0)
    && (forall p, q :: p in times && q in times ==> times[p] < times[q] + span)
  }

  lemma MovesPartition(times: Times, moved: Times, waiting: set<string>, span: int)
    requires Moves(times, moved, waiting, span)
    ensures Queue(moved) == Select(Queue(times), times.Keys - waiting) + Select(Queue(times), waiting)
  {
    QueueOfTwoGroups(times, moved, times.Keys - waiting);
    SelectAgrees(Queue(times), times.Keys - (times.Keys - waiting), waiting);
  }

  lemma {:induction false} SelectAgrees(q: seq<string>, a: set<string>, b: set<string>)
    requires forall p :: p in q ==> (p in a <==> p in b)
    ensures Select(q, a) == Select(q, b)
  {
    if q != [] {
      SelectAgrees(q[1..], a, b);
    }
  }

  lemma MovesAgain(times: Times, moved: Times, last: Times, waiting: set<string>, span: int, further: int)
    requires Moves(times, moved, waiting, span) && Moves(moved, last, waiting, further)
    ensures Queue(last) == Queue(moved)
  {
    var q := Queue(moved);
    forall i | 0 <= i < |q| ensures q[i] in times && q[i] in moved && q[i] in last {
    }
    SortedTransfers(moved, last, q);
    QueueUnique(last, Queue(last), q);
  }

  // Sifting never puts anyone in front of a confirmed participant, and never takes anyone from in
  // front of a waiting one.
  lemma AheadAfterMove(times: Times, moved: Times, waiting: set<string>, span: int, p: string)
    requires Moves(times, moved, waiting, span) && p in times
    ensures p !in waiting ==> Ahead(moved, p) <= Ahead(times, p)
    ensures p in waiting ==> Ahead(times, p) <= Ahead(moved, p)
  {
  }

  ghost function Leading(times: Times, capacity: nat): set<string>
  {
    set p | p in times && |Ahead(times, p)| < capacity
  }

  lemma LeadingIsMain(times: Times, capacity: nat)
    ensures forall p :: p in Leading(times, capacity) <==> p in Main(Queue(times), capacity)
  {
    forall p ensures p in Leading(times, capacity) <==> p in Main(Queue(times), capacity) {
      MainByRank(times, capacity, p);
    }
  }

  function Min(a: nat, b: nat): nat { if a < b then a else b }

  lemma LeadingSize(times: Times, capacity: nat)
    ensures |Leading(times, capacity)| == Min(capacity, |times.Keys|)
  {
    var q := Queue(times);
    var main := Main(q, capacity);
    SortedIsDistinct(times, q);
    PrefixSize(q, |q|);
    forall p | p in times ensures p in set i | 0 <= i < |q| :: q[i] {
      assert p in q;
    }
    assert times.Keys == set i | 0 <= i < |q| :: q[i];
    PrefixSize(main, |main|);
    LeadingIsMain(times, capacity);
    assert Leading(times, capacity) == set i | 0 <= i < |main| :: main[i];
  }

  lemma Subset<T>(a: set<T>, b: set<T>)
    requires a <= b
    ensures |a| <= |b|
  {
    assert b == a + (b - a);
  }

  lemma EvenExchange<T>(a: set<T>, b: set<T>)
    requires |a| == |b|
    ensures |a - b| == |b - a|
  {
    assert a == (a - b) + (a * b) && b == (b - a) + (a * b);
  }

  lemma MovesPromoteOthers(times: Times, moved: Times, waiting: set<string>, span: int, capacity: nat)
    requires Moves(times, moved, waiting, span)
    ensures var was, now := Leading(times, capacity), Leading(moved, capacity);
            now <= times.Keys && now - was !! waiting && was - now <= waiting && |now - was| == |was - now|
  {
    forall p | p in times
      ensures p in Leading(moved, capacity) - Leading(times, capacity) ==> p !in waiting
      ensures p in Leading(times, capacity) - Leading(moved, capacity) ==> p in waiting {
      AheadAfterMove(times, moved, waiting, span, p);
      if p in waiting {
        Subset(Ahead(times, p), Ahead(moved, p));
      } else {
        Subset(Ahead(moved, p), Ahead(times, p));
      }
    }
    LeadingSize(times, capacity);
    LeadingSize(moved, capacity);
    EvenExchange(Leading(times, capacity), Leading(moved, capacity));
  }

  // ----- The sift of an event -----

  lemma SiftedTime(before: Table, event: string, answer: Option<string>, span: int, p: string)
    requires AnswersConsistent(before)
    ensures var times, moved := TimesOf(before, event, answer), TimesOf(SiftBy(before, event, span), event, answer);
            && (p in moved <==> p in times)
            && (p in times ==> moved[p] == times[p] + if WithStatus(before, event, p, Waiting) then span else 0)
  {
    assert (event, p) in SiftBy(before, event, span) <==> (event, p) in before;
  }

  lemma SiftByMoves(before: Table, event: string, answer: Option<string>, span: int)
    requires AnswersConsistent(before) && IsSpan(TimesOf(before, event, None), span)
    ensures Moves(TimesOf(before, event, answer), TimesOf(SiftBy(before, event, span), event, answer),
                  InStatus(before, event, Waiting), span)
  {
    var after := SiftBy(before, event, span);
    var all := TimesOf(before, event, None);
    var times, moved := TimesOf(before, event, answer), TimesOf(after, event, answer);
    forall p ensures p in moved <==> p in times {
      SiftedTime(before, event, answer, span, p);
    }
    forall p | p in times
      ensures moved[p] == times[p] + if p in InStatus(before, event, Waiting) then span else 0 {
      SiftedTime(before, event, answer, span, p);
    }
    forall p, q | p in times && q in times ensures times[p] < times[q] + span {
      assert p in all && q in all;
    }
  }

  lemma SiftMoves(before: Table, after: Table, event: string, answer: Option<string>) returns (span: int)
    requires AnswersConsistent(before) && Sifted(before, after, event)
    ensures Moves(TimesOf(before, event, answer), TimesOf(after, event, answer), InStatus(before, event, Waiting), span)
  {
    var all := TimesOf(before, event, None);
    if all == map[] {
      span := 1;
      assert forall p :: p in TimesOf(before, event, answer) ==> p in all;
    } else {
      span :| IsSpan(all, span) && after == SiftBy(before, event, span);
      SiftByMoves(before, event, answer, span);
    }
  }

  lemma SiftKeepsStatus(before: Table, after: Table, event: string)
    requires AnswersConsistent(before) && Sifted(before, after, event)
    ensures AnswersConsistent(after)
            && forall status :: InStatus(after, event, status) == InStatus(before, event, status)
  {
    assert after.Keys == before.Keys;
    forall k | k in before
      ensures after[k].status == before[k].status && (after[k].answer.Some? <==> after[k].answerQueueAt.Some?) {
    }
  }

  lemma ActiveMeansWaitingOrConfirmed(rows: Table, event: string, answer: Option<string>)
    ensures forall p :: p in Queue(TimesOf(rows, event, answer)) ==>
              (p in TimesOf(rows, event, answer).Keys - InStatus(rows, event, Waiting) <==>
               p in InStatus(rows, event, Confirmed))
  {
    var times := TimesOf(rows, event, answer);
    forall p | p in Queue(times)
      ensures p in times && (WithStatus(rows, event, p, Waiting) <==> !WithStatus(rows, event, p, Confirmed)) {
    }
  }

  /** After a sift the queue is the confirmed participants in their old order, then the waiting ones in
      theirs - for the whole event and under every answer. */
  lemma SiftIsStablePartition(before: Table, after: Table, event: string, answer: Option<string>)
    requires AnswersConsistent(before) && Sifted(before, after, event)
    ensures ActiveQueue(after, event, answer) ==
            Select(ActiveQueue(before, event, answer), InStatus(before, event, Confirmed)) +
            Select(ActiveQueue(before, event, answer), InStatus(before, event, Waiting))
  {
    var span := SiftMoves(before, after, event, answer);
    var times := TimesOf(before, event, answer);
    MovesPartition(times, TimesOf(after, event, answer), InStatus(before, event, Waiting), span);
    ActiveMeansWaitingOrConfirmed(before, event, answer);
    SelectAgrees(Queue(times), times.Keys - InStatus(before, event, Waiting), InStatus(before, event, Confirmed));
  }

  /** Sifting twice is sifting once: nobody's place changes the second time. */
  lemma SiftAgain(before: Table, after: Table, again: Table, event: string, answer: Option<string>)
    requires AnswersConsistent(before) && Sifted(before, after, event) && Sifted(after, again, event)
    ensures ActiveQueue(again, event, answer) == ActiveQueue(after, event, answer)
  {
    var span := SiftMoves(before, after, event, answer);
    SiftKeepsStatus(before, after, event);
    var further := SiftMoves(after, again, event, answer);
    MovesAgain(TimesOf(before, event, answer), TimesOf(after, event, answer), TimesOf(again, event, answer),
               InStatus(before, event, Waiting), span, further);
  }

  // The participants of a main roster, as a set.
  ghost function Roster(rows: Table, event: string, answer: Option<string>, capacity: nat): set<string>
  {
    Leading(TimesOf(rows, event, answer), capacity)
  }

  lemma NotWaitingIsConfirmed(rows: Table, event: string, answer: Option<string>, keys: set<string>)
    requires keys <= TimesOf(rows, event, answer).Keys && keys !! InStatus(rows, event, Waiting)
    ensures keys <= InStatus(rows, event, Confirmed)
  {
    forall p | p in keys ensures WithStatus(rows, event, p, Confirmed) {
      assert p in TimesOf(rows, event, answer) && !WithStatus(rows, event, p, Waiting);
    }
  }

  /** For every capacity a sift promotes only confirmed participants and demotes only waiting ones, as
      many as it promotes. */
  lemma SiftPromotesConfirmed(before: Table, after: Table, event: string, answer: Option<string>, capacity: nat)
    requires AnswersConsistent(before) && Sifted(before, after, event)
    ensures var was, now := Roster(before, event, answer, capacity), Roster(after, event, answer, capacity);
            && now - was <= InStatus(before, event, Confirmed)
            && was - now <= InStatus(before, event, Waiting)
            && |now - was| == |was - now|
  {
    var span := SiftMoves(before, after, event, answer);
    MovesPromoteOthers(TimesOf(before, event, answer), TimesOf(after, event, answer),
                       InStatus(before, event, Waiting), span, capacity);
    NotWaitingIsConfirmed(before, event, answer,
                          Roster(after, event, answer, capacity) - Roster(before, event, answer, capacity));
  }

  // ----- Promotion from the reserve -----

  // Offered when the main roster still holds somebody who has not confirmed, under the same answer.
  ghost predicate CanPromote(rows: Table, game: Game, p: string)
  {
    && WithStatus(rows, game.id, p, Confirmed) && p !in MainRoster(rows, game)
    && exists w :: w in MainRoster(rows, game) && WithStatus(rows, game.id, w, Waiting)
                   && (game.question.None? || rows[(game.id, w)].answer == rows[(game.id, p)].answer)
  }

  // In a sifted queue the confirmed have fewer people ahead than the waiting.
  lemma ConfirmedAreAhead(times: Times, moved: Times, waiting: set<string>, span: int, c: string, w: string)
    requires Moves(times, moved, waiting, span) && c in times && w in times && c !in waiting && w in waiting
    ensures |Ahead(moved, c)| < |Ahead(moved, w)|
  {
    RanksGrow(moved, c, w);
  }

  lemma SiftedPlace(before: Table, after: Table, event: string, answer: Option<string>, capacity: nat, c: string,
                    w: string)
    requires AnswersConsistent(before) && Sifted(before, after, event)
    requires WithStatus(after, event, c, Confirmed) && WithStatus(after, event, w, Waiting)
    requires c in TimesOf(after, event, answer) && w in Roster(after, event, answer, capacity)
    ensures c in Roster(after, event, answer, capacity)
  {
    var span := SiftMoves(before, after, event, answer);
    SiftKeepsStatus(before, after, event);
    assert c !in InStatus(after, event, Waiting) && w in InStatus(after, event, Waiting);
    ConfirmedAreAhead(TimesOf(before, event, answer), TimesOf(after, event, answer),
                      InStatus(before, event, Waiting), span, c, w);
  }

  lemma SiftedViewPlace(before: Table, after: Table, event: string, view: View, c: string, w: string)
    requires AnswersConsistent(before) && Sifted(before, after, event)
    requires WithStatus(after, event, c, Confirmed) && WithStatus(after, event, w, Waiting)
    requires view.answer.None? || after[(event, c)].answer == view.answer
    requires HasPlace(after, event, view, w)
    ensures HasPlace(after, event, view, c)
  {
    SiftedPlace(before, after, event, view.answer, view.capacity, c, w);
  }

  lemma SiftedMainPlace(before: Table, after: Table, game: Game, c: string, w: string)
    requires AnswersConsistent(before) && Sifted(before, after, game.id)
    requires WithStatus(after, game.id, c, Confirmed) && WithStatus(after, game.id, w, Waiting)
    requires game.question.None? || after[(game.id, c)].answer == after[(game.id, w)].answer
    requires InMain(after, game, w)
    ensures InMain(after, game, c)
  {
    var views := Views(game);
    var i :| 0 <= i < |views| && HasPlace(after, game.id, views[i], w);
    assert views[i].answer.None? || views[i].answer == after[(game.id, w)].answer;
    SiftedViewPlace(before, after, game.id, views[i], c, w);
  }

  /** Right after a sift there is nobody left to promote: a confirmed participant is in the reserve only
      if the whole main roster, or that of the same answer, has confirmed. */
  lemma NobodyToPromoteAfterSift(before: Table, after: Table, game: Game, p: string)
    requires AnswersConsistent(before) && Sifted(before, after, game.id)
    ensures !CanPromote(after, game, p)
  {
    if CanPromote(after, game, p) {
      var w :| w in MainRoster(after, game) && WithStatus(after, game.id, w, Waiting)
               && (game.question.None? || after[(game.id, w)].answer == after[(game.id, p)].answer);
      MainRosterByRank(after, game, w);
      MainRosterByRank(after, game, p);
      SiftedMainPlace(before, after, game, p, w);
    }
  }
}
