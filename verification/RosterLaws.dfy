/** The main roster of a game: a prefix of its signup queue, one for each answer when the game asks a
    question. */
module RosterLaws {
  import opened Options
  import opened QueueOrder
  import opened Registrations

  ghost predicate NoRepeats(s: seq<string>)
  {
    forall i, j :: 0 <= i < j < |s| ==> s[i] != s[j]
  }

  // Everyone a queue puts ahead of p.
  ghost function Ahead(times: Times, p: string): set<string>
    requires p in times
  {
    set x | x in times && Before(times, x, p)
  }

  lemma {:induction false} PrefixSize(q: seq<string>, n: nat)
    requires n <= |q| && NoRepeats(q)
    ensures |(set i | 0 <= i < n :: q[i])| == n
  {
    if n > 0 {
      PrefixSize(q, n - 1);
      var shorter := set i | 0 <= i < n - 1 :: q[i];
      assert (set i | 0 <= i < n :: q[i]) == shorter + {q[n-1]};
      assert q[n-1] !in shorter;
    }
  }

  lemma SortedIsDistinct(times: Times, q: seq<string>)
    requires Sorted(times, q)
    ensures NoRepeats(q)
  {
    forall i, j | 0 <= i < j < |q| ensures q[i] != q[j] {
      Trichotomy(times, q[i], q[i]);
    }
  }

  lemma EarlierIsAhead(times: Times, q: seq<string>, k: nat, i: nat)
    requires IsQueue(times, q) && k < i < |q|
    ensures q[k] in Ahead(times, q[i])
  {
  }

  lemma AheadIsEarlier(times: Times, q: seq<string>, x: string, i: nat)
    requires IsQueue(times, q) && i < |q| && x in Ahead(times, q[i])
    ensures x in set k | 0 <= k < i :: q[k]
  {
    var k :| 0 <= k < |q| && q[k] == x;
    Trichotomy(times, x, q[i]);
  }

  lemma AheadIsPrefix(times: Times, q: seq<string>, i: nat)
    requires IsQueue(times, q) && i < |q|
    ensures Ahead(times, q[i]) == set k | 0 <= k < i :: q[k]
  {
    var earlier := set k | 0 <= k < i :: q[k];
    forall x | x in earlier ensures x in Ahead(times, q[i]) {
      var k :| 0 <= k < i && q[k] == x;
      EarlierIsAhead(times, q, k, i);
    }
    forall x | x in Ahead(times, q[i]) ensures x in earlier {
      AheadIsEarlier(times, q, x, i);
    }
  }

  /** A queue position is the number of participants ahead. */
  lemma PositionIsRank(times: Times, i: nat)
    requires i < |Queue(times)|
    ensures |Ahead(times, Queue(times)[i])| == i
  {
    var q := Queue(times);
    SortedIsDistinct(times, q);
    PrefixSize(q, i);
    AheadIsPrefix(times, q, i);
  }

  /** Whoever is ahead of somebody has fewer participants ahead. */
  lemma RanksGrow(times: Times, p: string, x: string)
    requires p in times && x in times && Before(times, p, x)
    ensures |Ahead(times, p)| < |Ahead(times, x)|
  {
    forall y | y in Ahead(times, p) ensures y in Ahead(times, x) {
      BeforeTransitive(times, y, p, x);
    }
    Trichotomy(times, p, p);
    SmallerSet(Ahead(times, p), Ahead(times, x), p);
  }

  lemma SmallerSet(a: set<string>, b: set<string>, p: string)
    requires a <= b && p in b && p !in a
    ensures |a| < |b|
  {
    assert |b| == |a| + |b - a|;
    assert p in b - a;
  }

  function Main(q: seq<string>, capacity: nat): seq<string>
  {
    if capacity <= |q| then q[..capacity] else q
  }

  /** A participant is in the main roster exactly when fewer than `capacity` are ahead. */
  lemma MainByRank(times: Times, capacity: nat, p: string)
    ensures p in Main(Queue(times), capacity) <==> p in times && |Ahead(times, p)| < capacity
  {
    var q := Queue(times);
    if p in times {
      assert p in q;
      var i :| 0 <= i < |q| && q[i] == p;
      PositionIsRank(times, i);
      if p in Main(q, capacity) {
        var k :| 0 <= k < |Main(q, capacity)| && Main(q, capacity)[k] == p;
        SortedHasNoRepeats(times, q, i, k);
      }
      assert i < capacity ==> i < |Main(q, capacity)| && Main(q, capacity)[i] == q[i];
    }
  }

  // The first of the reserve, as many as there are, up to a number.
  function FirstReserve(q: seq<string>, capacity: nat, places: nat): seq<string>
  {
    if capacity >= |q| then [] else Main(q[capacity..], places)
  }

  /** More places extend the main roster: everyone keeps theirs and the first of the reserve follow. */
  lemma MorePlacesExtend(q: seq<string>, capacity: nat, places: nat)
    ensures Main(q, capacity + places) == Main(q, capacity) + FirstReserve(q, capacity, places)
  {
    if capacity < |q| && places <= |q| - capacity {
      assert q[..capacity + places] == q[..capacity] + q[capacity..][..places];
    } else if capacity < |q| {
      assert q == q[..capacity] + q[capacity..];
    }
  }

  // ----- Leaving -----

  lemma {:induction false} SelectAll(q: seq<string>, keep: set<string>)
    requires forall i :: 0 <= i < |q| ==> q[i] in keep
    ensures Select(q, keep) == q
  {
    if q != [] {
      SelectAll(q[1..], keep);
    }
  }

  lemma {:induction false} SelectAllButOne(q: seq<string>, i: nat, keep: set<string>)
    requires i < |q| && q[i] !in keep && forall k :: 0 <= k < |q| && k != i ==> q[k] in keep
    ensures Select(q, keep) == q[..i] + q[i+1..]
  {
    if i == 0 {
      SelectAll(q[1..], keep);
    } else {
      SelectAllButOne(q[1..], i - 1, keep);
      assert q[..i] + q[i+1..] == [q[0]] + (q[1..][..i-1] + q[1..][i..]);
    }
  }

  // One member is gone, the others keep their times.
  ghost predicate Without(times: Times, rest: Times, p: string)
  {
    rest.Keys == times.Keys - {p} && forall x :: x in rest ==> rest[x] == times[x]
  }

  lemma OthersRemain(times: Times, rest: Times, q: seq<string>, i: nat)
    requires Sorted(times, q) && i < |q| && Without(times, rest, q[i])
    ensures forall k :: 0 <= k < |q| && k != i ==> q[k] in rest.Keys
  {
    SortedIsDistinct(times, q);
  }

  lemma RestIsRestricted(times: Times, rest: Times, p: string)
    requires Without(times, rest, p)
    ensures rest == Restrict(times, rest.Keys)
  {
  }

  lemma QueueWithoutOne(times: Times, rest: Times, i: nat)
    requires i < |Queue(times)| && Without(times, rest, Queue(times)[i])
    ensures var q := Queue(times); Queue(rest) == q[..i] + q[i+1..]
  {
    var q := Queue(times);
    QueueOfSome(times, rest.Keys);
    RestIsRestricted(times, rest, q[i]);
    OthersRemain(times, rest, q, i);
    SelectAllButOne(q, i, rest.Keys);
  }

  // What leaving does to a view of an event: the leaver alone is gone.
  ghost predicate Leaves(before: Table, after: Table, event: string, answer: Option<string>, p: string)
  {
    Without(TimesOf(before, event, answer), TimesOf(after, event, answer), p)
  }

  lemma CancelLeaves(before: Table, event: string, answer: Option<string>, p: string, op: string, now: int)
    requires (event, p) in before
    ensures Leaves(before, before[(event, p) := Cancelling(before[(event, p)], op, now)], event, answer, p)
  {
  }

  lemma RemovalLeaves(before: Table, event: string, answer: Option<string>, p: string)
    ensures Leaves(before, before - {(event, p)}, event, answer, p)
  {
    var after := before - {(event, p)};
    forall x ensures x in TimesOf(after, event, answer) <==> x in TimesOf(before, event, answer) && x != p {
      assert (event, x) in after <==> (event, x) in before && x != p;
    }
  }

  // The main roster when the i-th in the queue leaves.
  function MainLess(q: seq<string>, capacity: nat, i: nat): seq<string>
    requires i < |q|
  {
    if i >= capacity then Main(q, capacity)
    else if |q| <= capacity then q[..i] + q[i+1..]
    else q[..i] + q[i+1..capacity] + [q[capacity]]
  }

  lemma MainOfShorter(q: seq<string>, capacity: nat, i: nat)
    requires i < |q|
    ensures Main(q[..i] + q[i+1..], capacity) == MainLess(q, capacity, i)
  {
    var r := q[..i] + q[i+1..];
    if i < capacity < |q| {
      assert r[..capacity] == q[..i] + q[i+1..capacity] + [q[capacity]];
    } else if i >= capacity {
      assert capacity <= |r| && r[..capacity] == q[..capacity];
    }
  }

  /** When a main-roster member leaves, the others keep their order and the first of the reserve, if
      there is one, joins at the end; a reserve member leaves without touching the main roster. */
  lemma MainAfterLeaving(before: Table, after: Table, event: string, answer: Option<string>, capacity: nat, i: nat)
    requires i < |ActiveQueue(before, event, answer)|
    requires Leaves(before, after, event, answer, ActiveQueue(before, event, answer)[i])
    ensures Main(ActiveQueue(after, event, answer), capacity)
         == MainLess(ActiveQueue(before, event, answer), capacity, i)
  {
    QueueWithoutOne(TimesOf(before, event, answer), TimesOf(after, event, answer), i);
    MainOfShorter(ActiveQueue(before, event, answer), capacity, i);
  }

  // ----- Games, with a question or without -----

  datatype AnswerOption = AnswerOption(id: string, capacity: nat)
  datatype Game = Game(id: string, capacity: nat, question: Option<seq<AnswerOption>>)

  ghost predicate DistinctOptions(options: seq<AnswerOption>)
  {
    forall i, j :: 0 <= i < j < |options| ==> options[i].id != options[j].id
  }

  ghost function OptionRosters(rows: Table, event: string, options: seq<AnswerOption>): seq<string>
  {
    if options == [] then []
    else
      Main(ActiveQueue(rows, event, Some(options[0].id)), options[0].capacity)
      + OptionRosters(rows, event, options[1..])
  }

  ghost function MainRoster(rows: Table, game: Game): seq<string>
  {
    if game.question.None? then Main(ActiveQueue(rows, game.id, None), game.capacity)
    else OptionRosters(rows, game.id, game.question.value)
  }

  ghost function ReserveRoster(rows: Table, game: Game): seq<string>
  {
    var q := ActiveQueue(rows, game.id, None);
    Select(q, (set p | p in q) - (set p | p in MainRoster(rows, game)))
  }

  // The queues a game has, each with the places it offers.
  datatype View = View(answer: Option<string>, capacity: nat)

  function Views(game: Game): seq<View>
  {
    if game.question.None? then [View(None, game.capacity)]
    else
      var options := game.question.value;
      seq(|options|, i requires 0 <= i < |options| => View(Some(options[i].id), options[i].capacity))
  }

  // A place for p in one queue.
  ghost predicate HasPlace(rows: Table, event: string, view: View, p: string)
  {
    var times := TimesOf(rows, event, view.answer);
    p in times && |Ahead(times, p)| < view.capacity
  }

  lemma {:induction false} OptionRostersByRank(rows: Table, event: string, options: seq<AnswerOption>, p: string)
    ensures p in OptionRosters(rows, event, options) <==>
              exists i :: 0 <= i < |options| && HasPlace(rows, event, View(Some(options[i].id), options[i].capacity), p)
  {
    if options != [] {
      var rest := options[1..];
      OptionRostersByRank(rows, event, rest, p);
      MainByRank(TimesOf(rows, event, Some(options[0].id)), options[0].capacity, p);
      if i :| 0 <= i < |rest| && HasPlace(rows, event, View(Some(rest[i].id), rest[i].capacity), p) {
        assert HasPlace(rows, event, View(Some(options[i+1].id), options[i+1].capacity), p);
      }
      if i :| 0 <= i < |options| && HasPlace(rows, event, View(Some(options[i].id), options[i].capacity), p) && i > 0 {
        assert HasPlace(rows, event, View(Some(rest[i-1].id), rest[i-1].capacity), p);
      }
    }
  }

  // A place for p in one of the game's queues.
  ghost predicate InMain(rows: Table, game: Game, p: string)
  {
    exists i :: 0 <= i < |Views(game)| && HasPlace(rows, game.id, Views(game)[i], p)
  }

  /** The main roster is exactly those with fewer ahead than the places of their own queue. */
  lemma MainRosterByRank(rows: Table, game: Game, p: string)
    ensures p in MainRoster(rows, game) <==> InMain(rows, game, p)
  {
    var views := Views(game);
    if game.question.None? {
      MainByRank(TimesOf(rows, game.id, None), game.capacity, p);
      assert views[0] == View(None, game.capacity);
    } else {
      var options := game.question.value;
      OptionRostersByRank(rows, game.id, options, p);
      if i :| 0 <= i < |options| && HasPlace(rows, game.id, View(Some(options[i].id), options[i].capacity), p) {
        assert HasPlace(rows, game.id, views[i], p);
      }
      if i :| 0 <= i < |views| && HasPlace(rows, game.id, views[i], p) {
        assert HasPlace(rows, game.id, View(Some(options[i].id), options[i].capacity), p);
      }
    }
  }

  lemma JoinDistinct(a: seq<string>, b: seq<string>)
    requires NoRepeats(a) && NoRepeats(b) && forall i, j :: 0 <= i < |a| && 0 <= j < |b| ==> a[i] != b[j]
    ensures NoRepeats(a + b)
  {
  }

  lemma {:induction false} OptionRostersDistinct(rows: Table, event: string, options: seq<AnswerOption>)
    requires DistinctOptions(options)
    ensures NoRepeats(OptionRosters(rows, event, options))
  {
    if options != [] {
      var times, rest := TimesOf(rows, event, Some(options[0].id)), options[1..];
      var first, others := Main(Queue(times), options[0].capacity), OptionRosters(rows, event, rest);
      OptionRostersDistinct(rows, event, rest);
      SortedIsDistinct(times, Queue(times));
      forall i, j | 0 <= i < |first| && 0 <= j < |others| ensures first[i] != others[j] {
        assert others[j] in others;
        OptionRostersByRank(rows, event, rest, others[j]);
        var k :| 0 <= k < |rest| && HasPlace(rows, event, View(Some(rest[k].id), rest[k].capacity), others[j]);
        assert options[k+1].id != options[0].id;
        assert Queue(times)[i] in times;
      }
      JoinDistinct(first, others);
    }
  }

  /** Every active participant is in exactly one of the two rosters and in each at most once; the
      main roster of a game with a question holds exactly those with a place under their own answer. */
  lemma RostersPartition(rows: Table, game: Game)
    requires game.question.Some? ==> DistinctOptions(game.question.value)
    ensures var main, reserve := MainRoster(rows, game), ReserveRoster(rows, game);
            && (forall p :: Active(rows, game.id, p) <==> p in main || p in reserve)
            && (forall p :: !(p in main && p in reserve))
            && NoRepeats(main) && NoRepeats(reserve)
  {
    var times := TimesOf(rows, game.id, None);
    var q := Queue(times);
    var main := MainRoster(rows, game);
    SortedIsDistinct(times, q);
    SelectSorted(times, q, (set p | p in q) - (set p | p in main));
    SortedIsDistinct(times, ReserveRoster(rows, game));
    if game.question.Some? {
      OptionRostersDistinct(rows, game.id, game.question.value);
    }
    forall p | p in main ensures Active(rows, game.id, p) {
      MainRosterByRank(rows, game, p);
    }
    assert forall p :: p in q <==> Active(rows, game.id, p);
  }

  // ----- Leaving a game -----

  // x is the first of the reserve of a queue in which p has a place.
  ghost predicate NextInLine(times: Times, capacity: nat, p: string, x: string)
  {
    p in times && x in times && |Ahead(times, p)| < capacity && |Ahead(times, x)| == capacity
  }

  // x gets the place p gives up.
  ghost predicate Promoted(rows: Table, game: Game, p: string, x: string)
  {
    exists i :: 0 <= i < |Views(game)| &&
      NextInLine(TimesOf(rows, game.id, Views(game)[i].answer), Views(game)[i].capacity, p, x)
  }

  lemma RankWithoutOne(times: Times, rest: Times, p: string, x: string)
    requires Without(times, rest, p) && x in rest
    ensures |Ahead(rest, x)| == |Ahead(times, x)| - if p in times && Before(times, p, x) then 1 else 0
  {
    assert Ahead(rest, x) == Ahead(times, x) - {p};
  }

  lemma PlaceWithoutOne(times: Times, rest: Times, capacity: nat, p: string, x: string)
    requires Without(times, rest, p)
    ensures x in rest && |Ahead(rest, x)| < capacity <==>
              (x in times && |Ahead(times, x)| < capacity && x != p) || NextInLine(times, capacity, p, x)
  {
    if x in rest {
      RankWithoutOne(times, rest, p, x);
      if p in times {
        Trichotomy(times, p, x);
        if Before(times, p, x) {
          RanksGrow(times, p, x);
        } else {
          RanksGrow(times, x, p);
        }
      }
    }
  }

  // What leaving does to every queue of a game.
  ghost predicate LeavesGame(before: Table, after: Table, game: Game, p: string)
  {
    forall answer :: Leaves(before, after, game.id, answer, p)
  }

  /** When somebody leaves a game, with a question or without, its main roster afterwards is exactly who
      was in it before, the leaver aside, and the first of the reserve of the leaver's own queue if the
      leaver had a place there. */
  lemma MainRosterAfterLeaving(before: Table, after: Table, game: Game, p: string, x: string)
    requires LeavesGame(before, after, game, p)
    ensures x in MainRoster(after, game) <==> (x in MainRoster(before, game) && x != p) || Promoted(before, game, p, x)
  {
    MainRosterByRank(before, game, x);
    MainRosterByRank(after, game, x);
    var views := Views(game);
    forall i | 0 <= i < |views|
      ensures HasPlace(after, game.id, views[i], x) <==>
                (HasPlace(before, game.id, views[i], x) && x != p)
                || NextInLine(TimesOf(before, game.id, views[i].answer), views[i].capacity, p, x)
    {
      assert Leaves(before, after, game.id, views[i].answer, p);
      PlaceWithoutOne(TimesOf(before, game.id, views[i].answer), TimesOf(after, game.id, views[i].answer),
                      views[i].capacity, p, x);
    }
  }

  /** At most one participant is promoted, and into the leaver's own queue. */
  lemma OnePromoted(rows: Table, game: Game, p: string, x: string, y: string)
    requires game.question.Some? ==> DistinctOptions(game.question.value)
    requires Promoted(rows, game, p, x) && Promoted(rows, game, p, y)
    ensures x == y && (game.question.Some? ==> rows[(game.id, x)].answer == rows[(game.id, p)].answer)
  {
    var views := Views(game);
    var i :| 0 <= i < |views| && NextInLine(TimesOf(rows, game.id, views[i].answer), views[i].capacity, p, x);
    var k :| 0 <= k < |views| && NextInLine(TimesOf(rows, game.id, views[k].answer), views[k].capacity, p, y);
    assert views[i].answer == views[k].answer && i == k;
    var times := TimesOf(rows, game.id, views[i].answer);
    Trichotomy(times, x, y);
    if Before(times, x, y) {
      RanksGrow(times, x, y);
    } else if Before(times, y, x) {
      RanksGrow(times, y, x);
    }
  }

  lemma CancelLeavesGame(before: Table, game: Game, p: string, op: string, now: int)
    requires (game.id, p) in before
    ensures LeavesGame(before, before[(game.id, p) := Cancelling(before[(game.id, p)], op, now)], game, p)
  {
    var after := before[(game.id, p) := Cancelling(before[(game.id, p)], op, now)];
    forall answer ensures Leaves(before, after, game.id, answer, p) {
      CancelLeaves(before, game.id, answer, p, op, now);
    }
  }

  /** A participant who gives up a place under one answer frees it only there. */
  lemma OtherAnswersKeepTheirRosters(rows: Table, event: string, p: string, option: AnswerOption, op: string, now: int)
    requires (event, p) in rows && rows[(event, p)].answer != Some(option.id)
    ensures ActiveQueue(rows[(event, p) := Cancelling(rows[(event, p)], op, now)], event, Some(option.id))
         == ActiveQueue(rows, event, Some(option.id))
  {
    var after := rows[(event, p) := Cancelling(rows[(event, p)], op, now)];
    assert TimesOf(after, event, Some(option.id)) == TimesOf(rows, event, Some(option.id));
  }

  // ----- Chat links -----

  ghost predicate IsConfirmed(rows: Table, game: Game, p: string)
  {
    WithStatus(rows, game.id, p, Confirmed)
  }

  ghost function ChatLinkRecipients(rows: Table, game: Game): set<string>
  {
    set p | p in MainRoster(rows, game) && IsConfirmed(rows, game, p)
  }

  /** A chat link reaches exactly the confirmed participants with fewer ahead than the places of one
      of the game's queues. */
  lemma ChatLinkExactly(rows: Table, game: Game, p: string)
    ensures p in ChatLinkRecipients(rows, game) <==> IsConfirmed(rows, game, p) && InMain(rows, game, p)
  {
    MainRosterByRank(rows, game, p);
  }

  /** Nobody loses a chat link because somebody else leaves, and only the first of the reserve of the
      leaver's queue, if confirmed, gains one. */
  lemma ChatLinkAfterCancel(before: Table, game: Game, p: string, op: string, now: int, x: string)
    requires (game.id, p) in before
    ensures var after := before[(game.id, p) := Cancelling(before[(game.id, p)], op, now)];
            x in ChatLinkRecipients(after, game) <==>
              (x in ChatLinkRecipients(before, game) && x != p)
              || (Promoted(before, game, p, x) && IsConfirmed(before, game, x))
  {
    var after := before[(game.id, p) := Cancelling(before[(game.id, p)], op, now)];
    CancelLeavesGame(before, game, p, op, now);
    MainRosterAfterLeaving(before, after, game, p, x);
  }
}
