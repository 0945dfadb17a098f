/** Signups for games, and the repository that changes them in place. */
module Registrations {
  import opened Options
  import opened QueueOrder

  datatype Status = Waiting | Confirmed | Cancelled

  datatype Details = Details(
    displayName: string,
    nickname: Option<string>,
    larpExperience: Option<bool>,
    crossplay: Option<bool>,
    vkProfile: string,
    telegramProfile: Option<string>)

  datatype Registration = Registration(
    details: Details,
    wishPlay: string,
    characterWish: string,
    status: Status,
    answer: Option<string>,
    answerQueueAt: Option<int>,
    lastOperation: string,
    createdAt: int,
    updatedAt: int)

  // Rows by event and participant.
  type Table = map<(string, string), Registration>

  // Instants are whole microseconds.
  function QueueTime(row: Registration): int
  {
    if row.answerQueueAt.Some? then row.answerQueueAt.value else row.createdAt
  }

  predicate Active(rows: Table, event: string, p: string)
  {
    (event, p) in rows && !rows[(event, p)].status.Cancelled?
  }

  predicate Queued(rows: Table, event: string, answer: Option<string>, p: string)
  {
    Active(rows, event, p) && (answer.None? || rows[(event, p)].answer == answer)
  }

  function Participants(rows: Table, event: string): (keys: set<string>)
    ensures forall p :: p in keys <==> (event, p) in rows
  {
    set k | k in rows && k.0 == event :: k.1
  }

  // The queue times of an event's active rows; with an answer, of those that chose it.
  ghost function TimesOf(rows: Table, event: string, answer: Option<string>): (times: Times)
    ensures forall p :: p in times <==> Queued(rows, event, answer, p)
    ensures forall p :: p in times ==> (event, p) in rows && times[p] == QueueTime(rows[(event, p)])
  {
    map p | p in Participants(rows, event) && Queued(rows, event, answer, p) :: QueueTime(rows[(event, p)])
  }

  ghost function ActiveQueue(rows: Table, event: string, answer: Option<string>): seq<string>
  {
    Queue(TimesOf(rows, event, answer))
  }

  ghost predicate WithStatus(rows: Table, event: string, p: string, status: Status)
  {
    (event, p) in rows && rows[(event, p)].status == status
  }

  // Rows keep an answer's queue time exactly while they have an answer.
  ghost predicate AnswersConsistent(rows: Table)
  {
    forall k :: k in rows ==> (rows[k].answer.Some? <==> rows[k].answerQueueAt.Some?)
  }

  // ----- What each repository operation does to the table -----

  ghost predicate IsLatest(times: Times, latest: Option<int>)
  {
    match latest
    case None => times == map[]
    case Some(t) => (exists p :: p in times && times[p] == t) && forall p :: p in times ==> times[p] <= t
  }

  function Max(a: int, b: int): int { if a < b then b else a }

  // A row joining the queue joins after everyone in it, even if their times lie in the future.
  function JoinTime(now: int, latest: Option<int>): int
  {
    if latest.Some? then Max(now, latest.value + 1) else now
  }

  // Signing up with a given place in the queue: a new or returning row takes it, an active row only
  // gives a new answer.
  function EnlistAt(rows: Table, event: string, op: string, p: string,
                    details: Details, wish: string, answer: Option<string>, now: int, time: int): Table
  {
    var queueAt := if answer.Some? then Some(time) else None;
    var row :=
      if (event, p) !in rows then Registration(details, wish, "", Waiting, answer, queueAt, op, time, now)
      else
        var old' := rows[(event, p)].(details := details, wishPlay := wish, answer := answer, answerQueueAt := queueAt);
        Touch(if old'.status.Cancelled? then old'.(status := Waiting, createdAt := time) else old', op, now);
    rows[(event, p) := row]
  }

  ghost predicate Enlisted(before: Table, after: Table, event: string, op: string, p: string,
                           details: Details, wish: string, answer: Option<string>, now: int)
  {
    exists latest :: IsLatest(TimesOf(before, event, None), latest) &&
      after == EnlistAt(before, event, op, p, details, wish, answer, now,
                        if Active(before, event, p) then now else JoinTime(now, latest))
  }

  // Rows that change their answer move together behind everyone who already gave it.
  ghost function AnswerAt(rows: Table, event: string, keys: seq<string>, op: string, answer: string, now: int,
                          time: int): Table
  {
    map k | k in rows :: if k.0 == event && k.1 in keys then Answering(rows[k], op, answer, now, time) else rows[k]
  }

  // An answer nobody has given yet is queued just after the clock's reading.
  function AnswerTime(now: int, latest: Option<int>): int
  {
    if latest.Some? then Max(now, latest.value + 1) else now + 1
  }

  ghost predicate Unapplied(rows: Table, event: string, keys: seq<string>, op: string)
  {
    exists i :: 0 <= i < |keys| && (event, keys[i]) in rows && rows[(event, keys[i])].lastOperation != op
  }

  ghost predicate Unanswered(rows: Table, event: string, keys: seq<string>, answer: string)
  {
    exists i :: 0 <= i < |keys| && (event, keys[i]) in rows && rows[(event, keys[i])].answer != Some(answer)
  }

  ghost predicate Answered(before: Table, after: Table, event: string, keys: seq<string>, op: string, answer: string,
                           now: int)
  {
    exists latest :: IsLatest(TimesOf(before, event, Some(answer)), latest) &&
      after == AnswerAt(before, event, keys, op, answer, now, AnswerTime(now, latest))
  }

  function Answering(row: Registration, op: string, answer: string, now: int, time: int): Registration
  {
    Touch(row, op, now).(answer := Some(answer), answerQueueAt := Some(time))
  }

  function Touch(row: Registration, op: string, now: int): Registration
  {
    row.(lastOperation := op, updatedAt := now)
  }

  function Confirming(row: Registration, op: string, wish: string, now: int): Registration
  {
    Touch(row, op, now).(characterWish := wish, status := Confirmed)
  }

  function Cancelling(row: Registration, op: string, now: int): Registration
  {
    Touch(row, op, now).(status := Cancelled)
  }

  // The rows of some participants that an operation has not touched yet.
  ghost predicate Pending(rows: Table, event: string, keys: seq<string>, op: string, k: (string, string))
  {
    k in rows && k.0 == event && k.1 in keys && rows[k].lastOperation != op
  }

  ghost function CancelAll(rows: Table, event: string, keys: seq<string>, op: string, now: int): Table
  {
    map k | k in rows :: if Pending(rows, event, keys, op, k) then Cancelling(rows[k], op, now) else rows[k]
  }

  ghost function ConfirmAll(rows: Table, event: string, keys: seq<string>, op: string, wish: string, now: int): Table
  {
    map k | k in rows :: if Pending(rows, event, keys, op, k) then Confirming(rows[k], op, wish, now) else rows[k]
  }

  // Moving a row back in its queue.
  function Shift(row: Registration, amount: int): Registration
  {
    if row.answer.Some? then row.(answerQueueAt := Some(QueueTime(row) + amount))
    else row.(createdAt := row.createdAt + amount)
  }

  ghost function SiftBy(rows: Table, event: string, amount: int): Table
  {
    map k | k in rows :: if k.0 == event && rows[k].status.Waiting? then Shift(rows[k], amount) else rows[k]
  }

  // A sift under way.
  ghost function ShiftSome(rows: Table, event: string, moved: set<string>, amount: int): Table
  {
    map k | k in rows ::
      if k.0 == event && k.1 in moved && rows[k].status.Waiting? then Shift(rows[k], amount) else rows[k]
  }

  lemma ShiftOneMore(rows: Table, event: string, moved: set<string>, p: string, amount: int)
    requires (event, p) in rows && p !in moved
    ensures ShiftSome(rows, event, moved, amount)[(event, p)] == rows[(event, p)]
    ensures ShiftSome(rows, event, moved + {p}, amount) ==
            if rows[(event, p)].status.Waiting? then
              ShiftSome(rows, event, moved, amount)[(event, p) := Shift(rows[(event, p)], amount)]
            else ShiftSome(rows, event, moved, amount)
  {
  }

  lemma ShiftAll(rows: Table, event: string, active: set<string>, amount: int)
    requires active == TimesOf(rows, event, None).Keys
    ensures ShiftSome(rows, event, active, amount) == SiftBy(rows, event, amount)
  {
    assert forall k :: k in rows && k.0 == event && rows[k].status.Waiting? ==> Active(rows, event, k.1);
  }

  predicate Extremes(times: Times, lo: string, hi: string)
  {
    lo in times && hi in times && forall p :: p in times ==> times[lo] <= times[p] <= times[hi]
  }

  // Just enough to put any row of the event behind every other.
  ghost predicate IsSpan(times: Times, span: int)
  {
    exists lo, hi :: Extremes(times, lo, hi) && span == times[hi] - times[lo] + 1
  }

  ghost predicate Sifted(before: Table, after: Table, event: string)
  {
    var times := TimesOf(before, event, None);
    if times == map[] then after == before
    else exists span :: IsSpan(times, span) && after == SiftBy(before, event, span)
  }

  // Giving a row the place of a queue time.
  function Place(row: Registration, time: int, op: string, now: int): Registration
  {
    Touch(if row.answer.Some? then row.(answerQueueAt := Some(time)) else row.(createdAt := time), op, now)
  }

  /** The in-memory registration repository. Every instant a method reads from the clock is passed in
      as `now`. */
  class Repository {
    var rows: Table

    constructor (rows: Table)
      ensures this.rows == rows
    {
      this.rows := rows;
    }

    method ActiveRows(event: string, answer: Option<string>) returns (active: set<string>)
      ensures active == TimesOf(rows, event, answer).Keys
    {
      active := set p | p in Participants(rows, event) && Queued(rows, event, answer, p);
    }

    method LatestQueueTime(event: string, answer: Option<string>) returns (latest: Option<int>)
      ensures IsLatest(TimesOf(rows, event, answer), latest)
    {
      var left := ActiveRows(event, answer);
      ghost var times := TimesOf(rows, event, answer);
      latest := None;
      while left != {}
        invariant left <= times.Keys
        invariant forall p :: p in times.Keys - left ==> latest.Some? && times[p] <= latest.value
        invariant latest.Some? ==> exists p :: p in times && times[p] == latest.value
        decreases left
      {
        var p :| p in left;
        left := left - {p};
        if latest.None? || latest.value < QueueTime(rows[(event, p)]) {
          latest := Some(QueueTime(rows[(event, p)]));
        }
      }
      if latest.None? {
        assert times.Keys == {};
      }
    }

    method Enlist(event: string, op: string, p: string, details: Details, wish: string, answer: Option<string>,
                  now: int)
      returns (changed: bool)
      modifies this
      ensures changed <==> !((event, p) in old(rows) && old(rows)[(event, p)].lastOperation == op)
      ensures if changed then Enlisted(old(rows), rows, event, op, p, details, wish, answer, now) else rows == old(rows)
    {
      var key := (event, p);
      if key in rows && rows[key].lastOperation == op {
        return false;
      }
      var time := now;
      var latest := LatestQueueTime(event, None);
      var joins := key !in rows || rows[key].status.Cancelled?;
      if joins {
        time := JoinTime(now, latest);
      }
      var row;
      if key !in rows {
        row := Registration(details, wish, "", Waiting, None, None, "", time, now);
      } else {
        row := rows[key].(details := details, wishPlay := wish);
        if row.status.Cancelled? {
          row := row.(status := Waiting, createdAt := time);
        }
      }
      row := row.(answer := answer, answerQueueAt := if answer.Some? then Some(time) else None);
      rows := rows[key := Touch(row, op, now)];
      return true;
    }

    method UpdateAnswer(event: string, op: string, keys: seq<string>, answer: string, now: int) returns (changed: bool)
      modifies this
      ensures changed <==> Unapplied(old(rows), event, keys, op) && Unanswered(old(rows), event, keys, answer)
      ensures if changed then Answered(old(rows), rows, event, keys, op, answer, now) else rows == old(rows)
    {
      if forall i :: 0 <= i < |keys| && (event, keys[i]) in rows ==> rows[(event, keys[i])].lastOperation == op {
        return false;
      }
      if forall i :: 0 <= i < |keys| && (event, keys[i]) in rows ==> rows[(event, keys[i])].answer == Some(answer) {
        return false;
      }
      var latest := LatestQueueTime(event, Some(answer));
      AnswerKeys(event, op, keys, answer, now, AnswerTime(now, latest));
      return true;
    }

    method AnswerKeys(event: string, op: string, keys: seq<string>, answer: string, now: int, time: int)
      modifies this
      ensures rows == AnswerAt(old(rows), event, keys, op, answer, now, time)
    {
      for n := 0 to |keys|
        invariant rows.Keys == old(rows).Keys
        invariant rows == AnswerAt(old(rows), event, keys[..n], op, answer, now, time)
      {
        var k := (event, keys[n]);
        assert forall p :: p in keys[..n+1] <==> p in keys[..n] || p == keys[n];
        if k in rows {
          rows := rows[k := Answering(rows[k], op, answer, now, time)];
        }
      }
      assert keys[..|keys|] == keys;
    }

    method Confirm(event: string, op: string, p: string, wish: string, replaced: Option<(string, string)>, now: int)
      returns (changed: bool)
      requires (event, p) in rows && (replaced.Some? ==> replaced.value.0 != event)
      modifies this
      ensures var others := if replaced.Some? then old(rows) - {replaced.value} else old(rows);
              && changed == (others[(event, p)].lastOperation != op)
              && rows == if changed then others[(event, p) := Confirming(others[(event, p)], op, wish, now)] else others
    {
      var done := rows[(event, p)].lastOperation == op;
      if replaced.Some? {
        rows := rows - {replaced.value};
      }
      if done {
        return false;
      }
      rows := rows[(event, p) := Confirming(rows[(event, p)], op, wish, now)];
      return true;
    }

    method Cancel(event: string, op: string, p: string, now: int) returns (changed: bool)
      requires (event, p) in rows
      modifies this
      ensures changed == (old(rows)[(event, p)].lastOperation != op)
      ensures rows == if changed then old(rows)[(event, p) := Cancelling(old(rows)[(event, p)], op, now)] else old(rows)
    {
      if rows[(event, p)].lastOperation == op {
        return false;
      }
      rows := rows[(event, p) := Cancelling(rows[(event, p)], op, now)];
      return true;
    }

    method CancelLinked(event: string, op: string, keys: seq<string>, now: int) returns (changed: bool)
      modifies this
      ensures rows == CancelAll(old(rows), event, keys, op, now)
      ensures changed <==> exists k :: Pending(old(rows), event, keys, op, k)
    {
      changed := false;
      for n := 0 to |keys|
        invariant rows == CancelAll(old(rows), event, keys[..n], op, now)
        invariant changed <==> exists k :: Pending(old(rows), event, keys[..n], op, k)
      {
        var k := (event, keys[n]);
        assert keys[..n+1] == keys[..n] + [keys[n]];
        assert forall j :: Pending(old(rows), event, keys[..n+1], op, j) <==>
                             Pending(old(rows), event, keys[..n], op, j)
                               || (j == k && j in old(rows) && old(rows)[j].lastOperation != op);
        if k in rows && rows[k].lastOperation != op {
          assert Pending(old(rows), event, keys[..n+1], op, k);
          rows := rows[k := Cancelling(rows[k], op, now)];
          changed := true;
        }
      }
      assert keys[..|keys|] == keys;
    }

    method ConfirmKeys(event: string, op: string, keys: seq<string>, wish: string, now: int) returns (changed: bool)
      modifies this
      ensures rows == ConfirmAll(old(rows), event, keys, op, wish, now)
      ensures changed <==> exists k :: Pending(old(rows), event, keys, op, k)
    {
      changed := false;
      for n := 0 to |keys|
        invariant rows == ConfirmAll(old(rows), event, keys[..n], op, wish, now)
        invariant changed <==> exists k :: Pending(old(rows), event, keys[..n], op, k)
      {
        var k := (event, keys[n]);
        assert keys[..n+1] == keys[..n] + [keys[n]];
        assert forall j :: Pending(old(rows), event, keys[..n+1], op, j) <==>
                             Pending(old(rows), event, keys[..n], op, j)
                               || (j == k && j in old(rows) && old(rows)[j].lastOperation != op);
        if k in rows && rows[k].lastOperation != op {
          assert Pending(old(rows), event, keys[..n+1], op, k);
          rows := rows[k := Confirming(rows[k], op, wish, now)];
          changed := true;
        }
      }
      assert keys[..|keys|] == keys;
    }

    method ConfirmLinked(event: string, op: string, keys: seq<string>, wish: string,
                         replacedEvent: Option<string>, replaced: seq<string>, now: int) returns (changed: bool)
      requires replacedEvent.None? <==> replaced == []
      requires replacedEvent != Some(event)
      modifies this
      ensures var left :=
                if replacedEvent.Some? then CancelAll(old(rows), replacedEvent.value, replaced, op, now) else old(rows);
              rows == ConfirmAll(left, event, keys, op, wish, now)
      ensures changed <==> || (exists k :: Pending(old(rows), event, keys, op, k))
                           || (replacedEvent.Some? &&
                                exists k :: Pending(old(rows), replacedEvent.value, replaced, op, k))
    {
      var freed := false;
      if replacedEvent.Some? {
        freed := CancelLinked(replacedEvent.value, op, replaced, now);
      }
      assert forall k :: Pending(rows, event, keys, op, k) <==> Pending(old(rows), event, keys, op, k);
      changed := ConfirmKeys(event, op, keys, wish, now);
      changed := changed || freed;
    }

    method QueueSpan(event: string, active: set<string>) returns (span: int)
      requires active != {} && active == TimesOf(rows, event, None).Keys
      ensures IsSpan(TimesOf(rows, event, None), span)
    {
      ghost var times := TimesOf(rows, event, None);
      var lo :| lo in active;
      var hi := lo;
      var left := active - {lo};
      while left != {}
        invariant left <= active && lo in active && hi in active
        invariant forall p :: p in active - left ==> times[lo] <= times[p] <= times[hi]
        decreases left
      {
        var p :| p in left;
        left := left - {p};
        if QueueTime(rows[(event, p)]) < QueueTime(rows[(event, lo)]) {
          lo := p;
        }
        if QueueTime(rows[(event, p)]) > QueueTime(rows[(event, hi)]) {
          hi := p;
        }
      }
      assert Extremes(times, lo, hi);
      span := QueueTime(rows[(event, hi)]) - QueueTime(rows[(event, lo)]) + 1;
    }

    method SiftWaitingToEnd(event: string)
      modifies this
      ensures Sifted(old(rows), rows, event)
    {
      var active := ActiveRows(event, None);
      if active == {} {
        return;
      }
      var shift := QueueSpan(event, active);
      ghost var start := rows;
      MoveWaiting(event, active, shift);
      assert rows == SiftBy(start, event, shift);
    }

    method MoveWaiting(event: string, active: set<string>, shift: int)
      requires active == TimesOf(rows, event, None).Keys
      modifies this
      ensures rows == SiftBy(old(rows), event, shift)
    {
      var left := active;
      ghost var start := rows;
      while left != {}
        invariant left <= active
        invariant rows == ShiftSome(start, event, active - left, shift)
        decreases left
      {
        var p :| p in left;
        ShiftOneMore(start, event, active - left, p, shift);
        assert active - left + {p} == active - (left - {p});
        left := left - {p};
        if rows[(event, p)].status.Waiting? {
          rows := rows[(event, p) := Shift(rows[(event, p)], shift)];
        }
      }
      assert active - left == active;
      ShiftAll(start, event, active, shift);
    }

    method SwapQueuePositions(event: string, op: string, promoted: string, promotedAt: int,
                              demoted: string, demotedAt: int, now: int) returns (changed: bool)
      modifies this
      ensures changed <==> && (event, promoted) in old(rows) && (event, demoted) in old(rows)
                           && !(old(rows)[(event, promoted)].lastOperation == op
                                 && old(rows)[(event, demoted)].lastOperation == op)
      ensures if changed then
                var once := old(rows)[(event, promoted) := Place(old(rows)[(event, promoted)], demotedAt, op, now)];
                rows == once[(event, demoted) := Place(once[(event, demoted)], promotedAt, op, now)]
              else rows == old(rows)
    {
      var up, down := (event, promoted), (event, demoted);
      if up !in rows || down !in rows {
        return false;
      }
      if rows[up].lastOperation == op && rows[down].lastOperation == op {
        return false;
      }
      rows := rows[up := Place(rows[up], demotedAt, op, now)];
      rows := rows[down := Place(rows[down], promotedAt, op, now)];
      return true;
    }

    method Remove(event: string, p: string) returns (changed: bool)
      modifies this
      ensures changed == ((event, p) in old(rows)) && rows == old(rows) - {(event, p)}
    {
      changed := (event, p) in rows;
      rows := rows - {(event, p)};
    }
  }
}
