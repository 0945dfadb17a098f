/** Keyset pages over a sorted table: the rows after, or before, a cursor. Rows stand for themselves by
    their cursor, the pair of creation time and id, which no two rows share. */
module Paging {
  import opened Options
  import StringOrder

  const MAX_EVENT_PAGE_SIZE: nat := 10
  const CHAT_PAGE_SIZE: nat := 5

  type Cursor = (int, string)

  predicate Less(a: Cursor, b: Cursor)
  {
    a.0 < b.0 || (a.0 == b.0 && StringOrder.Lt(a.1, b.1))
  }

  lemma LessIsOrder(a: Cursor, b: Cursor, c: Cursor)
    ensures !Less(a, a) && !(Less(a, b) && Less(b, a)) && (Less(a, b) || Less(b, a) || a == b)
    ensures Less(a, b) && Less(b, c) ==> Less(a, c)
  {
    StringOrder.Total(a.1, b.1);
    if StringOrder.Le(a.1, b.1) && StringOrder.Le(b.1, a.1) {
      StringOrder.Antisymmetric(a.1, b.1);
    }
    if StringOrder.Le(a.1, b.1) && StringOrder.Le(b.1, c.1) {
      StringOrder.Transitive(a.1, b.1, c.1);
      if a.1 == c.1 {
        StringOrder.Antisymmetric(a.1, b.1);
      }
    }
  }

  // The reading direction of a list.
  predicate Ahead(newest: bool, a: Cursor, b: Cursor)
  {
    if newest then Less(b, a) else Less(a, b)
  }

  // The rows of a table in reading direction, after its filters.
  ghost predicate Listed(newest: bool, s: seq<Cursor>)
  {
    forall i, j :: 0 <= i < j < |s| ==> Ahead(newest, s[i], s[j])
  }

  function Following(newest: bool, s: seq<Cursor>, c: Cursor): (r: seq<Cursor>)
    ensures forall x :: x in r <==> x in s && Ahead(newest, c, x)
  {
    if s == [] then []
    else (if Ahead(newest, c, s[0]) then [s[0]] else []) + Following(newest, s[1..], c)
  }

  function Preceding(newest: bool, s: seq<Cursor>, c: Cursor): (r: seq<Cursor>)
    ensures forall x :: x in r <==> x in s && Ahead(newest, x, c)
  {
    if s == [] then []
    else (if Ahead(newest, s[0], c) then [s[0]] else []) + Preceding(newest, s[1..], c)
  }

  function Take(s: seq<Cursor>, n: nat): seq<Cursor> { if n < |s| then s[..n] else s }

  // Python's s[-n:], which is everything for n = 0.
  function TakeLast(s: seq<Cursor>, n: nat): seq<Cursor> { if 0 < n < |s| then s[|s|-n..] else s }

  function Page(newest: bool, s: seq<Cursor>, after: Option<Cursor>, before: Option<Cursor>, limit: nat): seq<Cursor>
    requires after.None? || before.None?
  {
    var rest := if after.Some? then Following(newest, s, after.value) else s;
    Take(if before.Some? then TakeLast(Preceding(newest, rest, before.value), limit) else rest, limit)
  }

  datatype PageError = PageSize | TwoCursors

  function ListPage(newest: bool, s: seq<Cursor>, after: Option<Cursor>, before: Option<Cursor>,
                    limit: int): Result<seq<Cursor>, PageError>
  {
    if limit < 1 || limit > MAX_EVENT_PAGE_SIZE then Err(PageSize)
    else if after.Some? && before.Some? then Err(TwoCursors)
    else Ok(Page(newest, s, after, before, limit))
  }

  // ----- Cursors of listed rows -----

  lemma {:induction false} FollowingAll(newest: bool, s: seq<Cursor>, c: Cursor)
    requires forall i :: 0 <= i < |s| ==> Ahead(newest, c, s[i])
    ensures Following(newest, s, c) == s
  {
    if s != [] {
      FollowingAll(newest, s[1..], c);
    }
  }

  lemma {:induction false} FollowingListed(newest: bool, s: seq<Cursor>, i: nat)
    requires Listed(newest, s) && i < |s|
    ensures Following(newest, s, s[i]) == s[i+1..]
    decreases i
  {
    LessIsOrder(s[0], s[i], s[0]);
    if i == 0 {
      FollowingAll(newest, s[1..], s[0]);
    } else {
      assert Ahead(newest, s[0], s[i]);
      FollowingListed(newest, s[1..], i - 1);
    }
  }

  lemma {:induction false} PrecedingNone(newest: bool, s: seq<Cursor>, c: Cursor)
    requires forall i :: 0 <= i < |s| ==> !Ahead(newest, s[i], c)
    ensures Preceding(newest, s, c) == []
  {
    if s != [] {
      PrecedingNone(newest, s[1..], c);
    }
  }

  lemma {:induction false} PrecedingListed(newest: bool, s: seq<Cursor>, i: nat)
    requires Listed(newest, s) && i < |s|
    ensures Preceding(newest, s, s[i]) == s[..i]
    decreases i
  {
    LessIsOrder(s[0], s[i], s[0]);
    if i == 0 {
      forall j | 0 <= j < |s| ensures !Ahead(newest, s[j], s[0]) {
        LessIsOrder(s[0], s[j], s[0]);
        assert j > 0 ==> Ahead(newest, s[0], s[j]);
      }
      PrecedingNone(newest, s, s[0]);
    } else {
      assert Ahead(newest, s[0], s[i]);
      PrecedingListed(newest, s[1..], i - 1);
      assert s[..i] == [s[0]] + s[1..][..i-1];
    }
  }

  lemma WalkStep(newest: bool, s: seq<Cursor>, done: nat, limit: nat)
    requires Listed(newest, s) && done <= |s|
    ensures Page(newest, s, if done == 0 then None else Some(s[done-1]), None, limit) == Take(s[done..], limit)
  {
    if done > 0 {
      FollowingListed(newest, s, done - 1);
    }
  }

  /** Going back undoes going forward: between the row that ends a full page and the one that starts the
      next, the cursors lead to the rows behind and, exactly, to that full page again. */
  lemma BackUndoesForward(newest: bool, s: seq<Cursor>, k: nat, limit: nat)
    requires Listed(newest, s) && 0 < limit <= k < |s|
    ensures Page(newest, s, Some(s[k-1]), None, limit) == Take(s[k..], limit)
    ensures Page(newest, s, None, Some(s[k]), limit) == s[k-limit..k]
  {
    WalkStep(newest, s, k, limit);
    PrecedingListed(newest, s, k);
    assert TakeLast(s[..k], limit) == s[k-limit..k];
  }

  lemma AnyBefore(s: seq<Cursor>, c: Cursor)
    ensures Page(false, s, None, Some(c), 1) != [] <==> exists x :: x in s && Less(x, c)
  {
    var earlier := Preceding(false, s, c);
    assert earlier != [] ==> earlier[0] in earlier;
  }

  lemma AnyAfter(s: seq<Cursor>, c: Cursor)
    ensures Page(false, s, Some(c), None, 1) != [] <==> exists x :: x in s && Less(c, x)
  {
    var later := Following(false, s, c);
    assert later != [] ==> later[0] in later;
  }

  datatype RegistrationPage = RegistrationPage(rows: seq<Cursor>, hasPrevious: bool, hasNext: bool)

  /** A page of registrations with its neighbours: the flags say exactly whether the list holds a row
      before the first, or after the last, row shown. */
  method ReadRegistrationPage(s: seq<Cursor>, after: Option<Cursor>, before: Option<Cursor>, limit: nat)
    returns (page: RegistrationPage)
    requires Listed(false, s) && (after.None? || before.None?)
    ensures page.rows == Page(false, s, after, before, limit)
    ensures page.rows == [] ==> !page.hasPrevious && !page.hasNext
    ensures page.rows != [] ==>
              && (page.hasPrevious <==> exists x :: x in s && Less(x, page.rows[0]))
              && (page.hasNext <==> exists x :: x in s && Less(page.rows[|page.rows|-1], x))
  {
    var rows := Page(false, s, after, before, limit);
    if rows == [] {
      return RegistrationPage([], false, false);
    }
    var first, last := rows[0], rows[|rows|-1];
    var previous := Page(false, s, None, Some(first), 1);
    var following := Page(false, s, Some(last), None, 1);
    AnyBefore(s, first);
    AnyAfter(s, last);
    page := RegistrationPage(rows, previous != [], following != []);
  }

  // ----- Walking the whole table -----

  /** Reading page after page until a short one collects the whole list, every row once and in order. */
  method UnarchivedEvents(s: seq<Cursor>) returns (events: seq<Cursor>)
    requires Listed(false, s)
    ensures events == s
  {
    events := [];
    var after: Option<Cursor> := None;
    while true
      invariant events <= s && after == if events == [] then None else Some(s[|events|-1])
      decreases |s| - |events|
    {
      var page := ReadPage(s, after, |events|);
      events := events + page;
      if |page| < MAX_EVENT_PAGE_SIZE {
        return;
      }
      after := Some(page[|page|-1]);
    }
  }

  // What the backfill needs to know of an event.
  datatype Showcase = Showcase(ready: bool, archived: bool, date: Option<int>)

  function Incomplete(info: Cursor -> Showcase, s: seq<Cursor>): (r: seq<Cursor>)
  {
    if s == [] then [] else Incomplete(info, s[..|s|-1]) + if info(s[|s|-1]).ready then [] else [s[|s|-1]]
  }

  function ActiveDates(info: Cursor -> Showcase, s: seq<Cursor>): set<int>
  {
    set c | c in s && !info(c).archived && info(c).date.Some? :: info(c).date.value
  }

  lemma {:induction false} IncompleteAppend(info: Cursor -> Showcase, s: seq<Cursor>, t: seq<Cursor>)
    ensures Incomplete(info, s + t) == Incomplete(info, s) + Incomplete(info, t)
  {
    if t == [] {
      assert s + t == s;
    } else {
      assert (s + t)[..|s + t| - 1] == s + t[..|t|-1];
      IncompleteAppend(info, s, t[..|t|-1]);
    }
  }

  lemma DatesAppend(info: Cursor -> Showcase, s: seq<Cursor>, t: seq<Cursor>)
    ensures ActiveDates(info, s + t) == ActiveDates(info, s) + ActiveDates(info, t)
  {
  }

  lemma BackfillStep(info: Cursor -> Showcase, s: seq<Cursor>, done: nat, n: nat)
    requires done + n <= |s|
    ensures Incomplete(info, s[..done+n]) == Incomplete(info, s[..done]) + Incomplete(info, s[done..done+n])
    ensures ActiveDates(info, s[..done+n]) == ActiveDates(info, s[..done]) + ActiveDates(info, s[done..done+n])
  {
    assert s[..done+n] == s[..done] + s[done..done+n];
    IncompleteAppend(info, s[..done], s[done..done+n]);
    DatesAppend(info, s[..done], s[done..done+n]);
  }

  // The inner loop: one command for every incomplete event of a page.
  method QueuePage(info: Cursor -> Showcase, page: seq<Cursor>, published: seq<Cursor>, dates: set<int>)
    returns (more: seq<Cursor>, moreDates: set<int>)
    ensures more == published + Incomplete(info, page) && moreDates == dates + ActiveDates(info, page)
  {
    more, moreDates := published, dates;
    for i := 0 to |page|
      invariant more == published + Incomplete(info, page[..i]) && moreDates == dates + ActiveDates(info, page[..i])
    {
      assert page[..i+1][..i] == page[..i];
      assert forall c :: c in page[..i+1] <==> c in page[..i] || c == page[i];
      if !info(page[i]).archived && info(page[i]).date.Some? {
        moreDates := moreDates + {info(page[i]).date.value};
      }
      if info(page[i]).ready {
        continue;
      }
      more := more + [page[i]];
    }
    assert page[..|page|] == page;
  }

  // What has been queued for a part of the table.
  ghost predicate Queued(info: Cursor -> Showcase, s: seq<Cursor>, published: seq<Cursor>, dates: set<int>)
  {
    published == Incomplete(info, s) && dates == ActiveDates(info, s)
  }

  // The part of the table a cursor has passed.
  ghost predicate Passed(s: seq<Cursor>, done: nat, after: Option<Cursor>)
  {
    done <= |s| && after == if done == 0 then None else Some(s[done-1])
  }

  method ReadPage(s: seq<Cursor>, after: Option<Cursor>, ghost done: nat) returns (page: seq<Cursor>)
    requires Listed(false, s) && Passed(s, done, after)
    ensures done + |page| <= |s| && page == s[done..done+|page|] && |page| <= MAX_EVENT_PAGE_SIZE
    ensures if |page| < MAX_EVENT_PAGE_SIZE then done + |page| == |s|
            else Passed(s, done + |page|, Some(page[|page|-1]))
  {
    WalkStep(false, s, done, MAX_EVENT_PAGE_SIZE);
    var result := ListPage(false, s, after, None, MAX_EVENT_PAGE_SIZE);
    page := result.value;
  }

  method QueueNext(info: Cursor -> Showcase, ghost s: seq<Cursor>, ghost done: nat,
                   page: seq<Cursor>, published: seq<Cursor>, dates: set<int>)
    returns (more: seq<Cursor>, moreDates: set<int>)
    requires done + |page| <= |s| && page == s[done..done+|page|] && Queued(info, s[..done], published, dates)
    ensures Queued(info, s[..done+|page|], more, moreDates)
  {
    BackfillStep(info, s, done, |page|);
    more, moreDates := QueuePage(info, page, published, dates);
  }

  /** The backfill queues one refresh for every incomplete event of the table, in order, and one for
      every date of an unarchived game. */
  method Backfill(info: Cursor -> Showcase, s: seq<Cursor>)
    returns (published: seq<Cursor>, dates: set<int>, queued: nat)
    requires Listed(false, s)
    ensures Queued(info, s, published, dates) && queued == |published| + |dates|
  {
    published, dates := [], {};
    var after: Option<Cursor> := None;
    ghost var done := 0;
    while true
      invariant Passed(s, done, after) && Queued(info, s[..done], published, dates)
      decreases |s| - done
    {
      var page := ReadPage(s, after, done);
      published, dates := QueueNext(info, s, done, page, published, dates);
      done := done + |page|;
      if |page| < MAX_EVENT_PAGE_SIZE {
        assert s[..done] == s;
        queued := |published| + |dates|;
        return;
      }
      after := Some(page[|page|-1]);
    }
  }

  // ----- Walking a table that changes between the pages -----

  // The rows read from the table as it is at each page, and whether the walk has ended with a short page.
  function Walk(newest: bool, views: seq<seq<Cursor>>, after: Option<Cursor>, limit: nat): (seq<Cursor>, bool)
    requires limit > 0
    decreases |views|
  {
    if views == [] then ([], false)
    else
      var page := Page(newest, views[0], after, None, limit);
      if |page| < limit then (page, true)
      else
        var rest := Walk(newest, views[1..], Some(page[|page|-1]), limit);
        (page + rest.0, rest.1)
  }

  predicate Beyond(newest: bool, after: Option<Cursor>, c: Cursor)
  {
    after.None? || Ahead(newest, after.value, c)
  }

  lemma {:induction false} FollowingStaysListed(newest: bool, s: seq<Cursor>, c: Cursor)
    requires Listed(newest, s)
    ensures Listed(newest, Following(newest, s, c))
  {
    if s != [] {
      var rest := Following(newest, s[1..], c);
      FollowingStaysListed(newest, s[1..], c);
      forall i | 0 <= i < |rest| ensures Ahead(newest, s[0], rest[i]) {
        assert rest[i] in rest;
        var j :| 0 <= j < |s[1..]| && s[1..][j] == rest[i];
        assert s[j+1] == rest[i];
      }
    }
  }

  // A page lists rows of the view beyond the cursor, and what it leaves out lies beyond its last row.
  ghost predicate Covers(newest: bool, s: seq<Cursor>, after: Option<Cursor>, limit: nat, page: seq<Cursor>)
  {
    && Listed(newest, page) && |page| <= limit
    && (forall i :: 0 <= i < |page| ==> Beyond(newest, after, page[i]) && page[i] in s)
    && (forall c :: c in s && Beyond(newest, after, c) ==>
          c in page || (|page| == limit && limit > 0 && Ahead(newest, page[limit-1], c)))
  }

  lemma PageOfView(newest: bool, s: seq<Cursor>, after: Option<Cursor>, limit: nat)
    requires Listed(newest, s) && limit > 0
    ensures Covers(newest, s, after, limit, Page(newest, s, after, None, limit))
  {
    var rest := if after.Some? then Following(newest, s, after.value) else s;
    if after.Some? {
      FollowingStaysListed(newest, s, after.value);
    }
    var page := Page(newest, s, after, None, limit);
    forall i | 0 <= i < |page| ensures Beyond(newest, after, page[i]) && page[i] in s {
      assert page[i] == rest[i] && rest[i] in rest;
    }
    forall c | c in s && Beyond(newest, after, c)
      ensures c in page || (|page| == limit && Ahead(newest, page[limit-1], c)) {
      assert c in rest;
      var k :| 0 <= k < |rest| && rest[k] == c;
      if k < |page| {
        assert page[k] == c;
      }
    }
  }

  lemma ListsJoin(newest: bool, after: Option<Cursor>, page: seq<Cursor>, rest: seq<Cursor>)
    requires page != [] && Listed(newest, page) && Listed(newest, rest)
    requires forall i :: 0 <= i < |page| ==> Beyond(newest, after, page[i])
    requires forall j :: 0 <= j < |rest| ==> Ahead(newest, page[|page|-1], rest[j])
    ensures Listed(newest, page + rest)
    ensures forall i :: 0 <= i < |page + rest| ==> Beyond(newest, after, (page + rest)[i])
  {
    forall i, j | 0 <= i < |page| && 0 <= j < |rest| ensures Ahead(newest, page[i], rest[j]) {
      LessIsOrder(page[i], page[|page|-1], rest[j]);
      LessIsOrder(rest[j], page[|page|-1], page[i]);
      assert i < |page| - 1 ==> Ahead(newest, page[i], page[|page|-1]);
    }
    forall j | 0 <= j < |rest| ensures Beyond(newest, after, rest[j]) {
      if after.Some? {
        LessIsOrder(after.value, page[0], rest[j]);
        LessIsOrder(rest[j], page[0], after.value);
        assert Ahead(newest, page[0], rest[j]);
      }
    }
  }

  // What a walk is to achieve.
  ghost predicate Reads(newest: bool, views: seq<seq<Cursor>>, after: Option<Cursor>, walk: (seq<Cursor>, bool))
  {
    && Listed(newest, walk.0)
    && (forall i :: 0 <= i < |walk.0| ==> Beyond(newest, after, walk.0[i]))
    && (walk.1 ==>
          forall c :: Beyond(newest, after, c) && (forall k :: 0 <= k < |views| ==> c in views[k]) ==> c in walk.0)
  }

  lemma ReadsOnePageMore(newest: bool, views: seq<seq<Cursor>>, after: Option<Cursor>, page: seq<Cursor>,
                         rest: (seq<Cursor>, bool))
    requires views != [] && page != [] && Covers(newest, views[0], after, |page|, page)
    requires Reads(newest, views[1..], Some(page[|page|-1]), rest)
    ensures Reads(newest, views, after, (page + rest.0, rest.1))
  {
    ListsJoin(newest, after, page, rest.0);
    if rest.1 {
      forall c | Beyond(newest, after, c) && forall k :: 0 <= k < |views| ==> c in views[k] ensures c in page + rest.0 {
        assert c in views[0];
        assert forall k :: 0 <= k < |views[1..]| ==> c in views[1..][k];
      }
    }
  }

  lemma ReadsLastPage(newest: bool, views: seq<seq<Cursor>>, after: Option<Cursor>, limit: nat, page: seq<Cursor>)
    requires views != [] && Covers(newest, views[0], after, limit, page) && |page| < limit
    ensures Reads(newest, views, after, (page, true))
  {
    forall c | Beyond(newest, after, c) && forall k :: 0 <= k < |views| ==> c in views[k] ensures c in page {
      assert c in views[0];
    }
  }

  /** Even when rows come and go between the pages: no row is read twice, the order is kept, and once the
      walk has ended every row that was there all along has been read. */
  lemma {:induction false} WalkReadsLastingRowsOnce(newest: bool, views: seq<seq<Cursor>>, after: Option<Cursor>,
                                                    limit: nat)
    requires limit > 0 && forall k :: 0 <= k < |views| ==> Listed(newest, views[k])
    ensures Reads(newest, views, after, Walk(newest, views, after, limit))
    decreases |views|
  {
    if views != [] {
      var page := Page(newest, views[0], after, None, limit);
      PageOfView(newest, views[0], after, limit);
      if |page| == limit {
        WalkReadsLastingRowsOnce(newest, views[1..], Some(page[limit-1]), limit);
        ReadsOnePageMore(newest, views, after, page, Walk(newest, views[1..], Some(page[limit-1]), limit));
      } else {
        ReadsLastPage(newest, views, after, limit, page);
      }
    }
  }

  // ----- The chat picker -----

  // The events on a page of buttons.
  function PickerPage(events: seq<Cursor>, page: nat): seq<Cursor>
  {
    var offset := page * CHAT_PAGE_SIZE;
    if offset >= |events| then [] else Take(events[offset..], CHAT_PAGE_SIZE)
  }

  predicate PickerHasNext(events: seq<Cursor>, page: nat)
  {
    page * CHAT_PAGE_SIZE + CHAT_PAGE_SIZE < |events|
  }

  // The page shown for a requested number.
  function Clamped(events: seq<Cursor>, page: int): nat
    requires events != []
  {
    var last := (|events| - 1) / CHAT_PAGE_SIZE;
    var low := if page < 0 then 0 else page;
    if low > last then last else low
  }

  /** Every event is on exactly one page, no page that can be shown is empty, and the buttons lead from
      page to page exactly as far as there are events. */
  lemma PickerShowsEverything(events: seq<Cursor>, i: nat, page: int)
    requires i < |events| && forall a, b :: 0 <= a < b < |events| ==> events[a] != events[b]
    ensures forall p: nat :: events[i] in PickerPage(events, p) <==> p == i / CHAT_PAGE_SIZE
    ensures PickerPage(events, Clamped(events, page)) != []
    ensures PickerHasNext(events, Clamped(events, page)) <==> PickerPage(events, Clamped(events, page) + 1) != []
  {
    forall p: nat ensures events[i] in PickerPage(events, p) <==> p == i / CHAT_PAGE_SIZE {
      var shown := PickerPage(events, p);
      if p == i / CHAT_PAGE_SIZE {
        assert shown[i - p * CHAT_PAGE_SIZE] == events[i];
      }
      if events[i] in shown {
        var k :| 0 <= k < |shown| && shown[k] == events[i];
        assert events[p * CHAT_PAGE_SIZE + k] == events[i];
      }
    }
  }
}
