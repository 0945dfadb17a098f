/** Operations on the rows of one person's linked identities, interrupted and retried. */
module LinkedRetries {
  import opened Options
  import opened Registrations

  // Equal but for the time of the last change.
  ghost predicate SameButTime(a: Table, b: Table)
  {
    a.Keys == b.Keys && forall k :: k in a ==> a[k].(updatedAt := 0) == b[k].(updatedAt := 0)
  }

  // An interrupted operation has reached some of its rows.
  ghost predicate PartlyCancelled(before: Table, between: Table, event: string, keys: seq<string>, op: string)
  {
    between.Keys == before.Keys &&
    forall k :: k in before ==>
      || between[k] == before[k]
      || (Pending(before, event, keys, op, k) && between[k] == Cancelling(before[k], op, between[k].updatedAt))
  }

  ghost predicate PartlyConfirmed(before: Table, between: Table, event: string, keys: seq<string>, op: string,
                                  wish: string)
  {
    between.Keys == before.Keys &&
    forall k :: k in before ==>
      || between[k] == before[k]
      || (Pending(before, event, keys, op, k) && between[k] == Confirming(before[k], op, wish, between[k].updatedAt))
  }

  /** A cancellation retried from any intermediate state ends as one uninterrupted run would. */
  lemma CancelRetryConverges(before: Table, between: Table, event: string, keys: seq<string>, op: string, now: int,
                             later: int)
    requires PartlyCancelled(before, between, event, keys, op)
    ensures SameButTime(CancelAll(between, event, keys, op, later), CancelAll(before, event, keys, op, now))
  {
  }

  /** So does a confirmation. */
  lemma ConfirmRetryConverges(before: Table, between: Table, event: string, keys: seq<string>, op: string,
                              wish: string, now: int, later: int)
    requires PartlyConfirmed(before, between, event, keys, op, wish)
    ensures SameButTime(ConfirmAll(between, event, keys, op, wish, later),
                        ConfirmAll(before, event, keys, op, wish, now))
  {
  }

  ghost function ConfirmAndFree(rows: Table, event: string, op: string, keys: seq<string>, wish: string,
                                freed: Option<string>, replaced: seq<string>, now: int): Table
  {
    var left := if freed.Some? then CancelAll(rows, freed.value, replaced, op, now) else rows;
    ConfirmAll(left, event, keys, op, wish, now)
  }

  // What one run leaves in one row.
  function RowAfter(row: Registration, k: (string, string), event: string, op: string, keys: seq<string>, wish: string,
                    freed: Option<string>, replaced: seq<string>, now: int): Registration
  {
    if row.lastOperation == op then row
    else if freed == Some(k.0) && k.1 in replaced then Cancelling(row, op, now)
    else if k.0 == event && k.1 in keys then Confirming(row, op, wish, now)
    else row
  }

  lemma RunByRow(rows: Table, event: string, op: string, keys: seq<string>, wish: string,
                 freed: Option<string>, replaced: seq<string>, now: int)
    requires freed != Some(event)
    ensures var after := ConfirmAndFree(rows, event, op, keys, wish, freed, replaced, now);
            after.Keys == rows.Keys &&
            forall k :: k in rows ==> after[k] == RowAfter(rows[k], k, event, op, keys, wish, freed, replaced, now)
  {
  }

  lemma RetriedRow(before: Table, freeing: Table, between: Table, k: (string, string), event: string, op: string,
                   keys: seq<string>, wish: string, freed: Option<string>, replaced: seq<string>,
                   now: int, later: int)
    requires freed != Some(event) && k in before
    requires if freed.Some? then PartlyCancelled(before, freeing, freed.value, replaced, op) else freeing == before
    requires PartlyConfirmed(freeing, between, event, keys, op, wish)
    ensures k in between
    ensures RowAfter(between[k], k, event, op, keys, wish, freed, replaced, later).(updatedAt := 0) ==
            RowAfter(before[k], k, event, op, keys, wish, freed, replaced, now).(updatedAt := 0)
  {
    assert k in freeing;
  }

  /** Confirming in one game while giving up another: a run that stopped anywhere - after freeing some
      of the rows given up, and confirming some of the others - is completed by a retry. */
  lemma ConfirmLinkedRetryConverges(before: Table, freeing: Table, between: Table, event: string, op: string,
                                    keys: seq<string>, wish: string, freed: Option<string>,
                                    replaced: seq<string>, now: int, later: int)
    requires freed != Some(event)
    requires if freed.Some? then PartlyCancelled(before, freeing, freed.value, replaced, op) else freeing == before
    requires PartlyConfirmed(freeing, between, event, keys, op, wish)
    ensures SameButTime(ConfirmAndFree(between, event, op, keys, wish, freed, replaced, later),
                        ConfirmAndFree(before, event, op, keys, wish, freed, replaced, now))
  {
    RunByRow(before, event, op, keys, wish, freed, replaced, now);
    RunByRow(between, event, op, keys, wish, freed, replaced, later);
    forall k | k in before
      ensures RowAfter(between[k], k, event, op, keys, wish, freed, replaced, later).(updatedAt := 0) ==
              RowAfter(before[k], k, event, op, keys, wish, freed, replaced, now).(updatedAt := 0) {
      RetriedRow(before, freeing, between, k, event, op, keys, wish, freed, replaced, now, later);
    }
  }

  /** Right after a run nothing is left to do: the same request again reports no change and makes
      none. */
  lemma NothingLeftToConfirm(rows: Table, event: string, op: string, keys: seq<string>, wish: string,
                             freed: Option<string>, replaced: seq<string>, now: int, later: int)
    requires freed != Some(event)
    ensures var after := ConfirmAndFree(rows, event, op, keys, wish, freed, replaced, now);
            && (forall k :: !Pending(after, event, keys, op, k))
            && (freed.Some? ==> forall k :: !Pending(after, freed.value, replaced, op, k))
            && ConfirmAndFree(after, event, op, keys, wish, freed, replaced, later) == after
  {
    var after := ConfirmAndFree(rows, event, op, keys, wish, freed, replaced, now);
    if freed.Some? {
      assert CancelAll(after, freed.value, replaced, op, later) == after;
    }
  }

  /** Nor after a cancellation. */
  lemma NothingLeftToCancel(rows: Table, event: string, op: string, keys: seq<string>, now: int, later: int)
    ensures var after := CancelAll(rows, event, keys, op, now);
            && (forall k :: !Pending(after, event, keys, op, k))
            && CancelAll(after, event, keys, op, later) == after
  {
  }
}
