/** The service that carries out the stages of a scheduled close, and how reprocessing its commands
    finishes whatever was interrupted. */
module ScheduledCloseService {
  import opened Options
  import opened ScheduledClose

  // ----- One uninterrupted stage -----

  function Remaining(phase: Phase, leaders: seq<Recipient>): nat
  {
    match phase
    case Refreshing(_) => 2
    case Adding(_) => 2
    case Queueing(_, _) => 1
    case Reading(_) => 2 * |leaders| + 3
    case Listing(_, _) => 2 * |leaders| + 2
    case Notifying(_, ls, _, n) => if n < |ls| then 2 * (|ls| - n) + 1 else 1
    case Marking(_, ls, _, n) => if n < |ls| then 2 * (|ls| - n) else 1
  }

  // The remaining awaits of a worker nobody disturbs.
  function Drive(s: Shared, leaders: seq<Recipient>, phase: Option<Phase>, now: int): Shared
    decreases if phase.Some? then 1 + Remaining(phase.value, leaders) else 0
  {
    if phase.None? then s
    else
      var step := Continue(s, leaders, phase.value, now);
      Drive(step.0, leaders, step.1, now)
  }

  function Run(s: Shared, leaders: seq<Recipient>, c: Command, now: int): Shared
  {
    var first := Begin(s, c, now);
    Drive(first.0, leaders, first.1, now)
  }

  function Queued(s: Shared, op: OpId, stage: Stage): Shared
  {
    s.(published := s.published + {Command(StageOf(op, stage), stage)})
  }

  lemma DriveQueueing(s: Shared, leaders: seq<Recipient>, op: OpId, stage: Stage, now: int)
    ensures Drive(s, leaders, Some(Queueing(op, stage)), now) == Queued(s, op, stage)
  {
    assert Drive(Queued(s, op, stage), leaders, None, now) == Queued(s, op, stage);
  }

  lemma DriveRefreshing(s: Shared, leaders: seq<Recipient>, op: OpId, now: int)
    requires s.event.Some?
    ensures Drive(s, leaders, Some(Refreshing(op)), now) == Queued(s, op, AfterStart(s.event.value))
  {
    DriveQueueing(s, leaders, op, AfterStart(s.event.value), now);
  }

  lemma DriveAdding(s: Shared, leaders: seq<Recipient>, op: OpId, now: int)
    requires s.event.Some? && s.event.value.archivedAt.None?
    ensures Drive(s, leaders, Some(Adding(op)), now) == Queued(s.(added := s.added + {op}), op, Finalize)
  {
    DriveQueueing(s.(added := s.added + {op}), leaders, op, Finalize, now);
  }

  lemma DriveReading(s: Shared, leaders: seq<Recipient>, op: OpId, now: int)
    requires s.event.Some?
    ensures Drive(s, leaders, Some(Reading(op)), now)
         == Drive(s, leaders, Some(Notifying(op, leaders, set r | r in s.event.value.notified, 0)), now)
  {
    var told := set r | r in s.event.value.notified;
    assert Drive(s, leaders, Some(Listing(op, told)), now)
        == Drive(s, leaders, Some(Notifying(op, leaders, told, 0)), now);
  }

  lemma DriveLeader(s: Shared, leaders: seq<Recipient>, op: OpId, told: set<Recipient>, n: nat, now: int)
    requires s.event.Some? && n < |leaders|
    ensures Drive(s, leaders, Some(Notifying(op, leaders, told, n)), now) ==
            if leaders[n] in told || leaders[n].platform.System? then
              Drive(s, leaders, Some(Notifying(op, leaders, told, n + 1)), now)
            else Drive(s.(event := Some(MarkDelivered(s.event.value, op, leaders[n]))), leaders,
                       Some(Notifying(op, leaders, told + {leaders[n]}, n + 1)), now)
  {
    if leaders[n] !in told && !leaders[n].platform.System? {
      var t := s.(event := Some(MarkDelivered(s.event.value, op, leaders[n])));
      assert Continue(s, leaders, Marking(op, leaders, told, n), now)
          == (t, Some(Notifying(op, leaders, told + {leaders[n]}, n + 1)));
      assert Drive(s, leaders, Some(Marking(op, leaders, told, n)), now)
          == Drive(t, leaders, Some(Notifying(op, leaders, told + {leaders[n]}, n + 1)), now);
    }
  }

  lemma DriveEnd(s: Shared, leaders: seq<Recipient>, op: OpId, told: set<Recipient>, now: int)
    requires s.event.Some?
    ensures Drive(s, leaders, Some(Notifying(op, leaders, told, |leaders|)), now)
         == s.(event := Some(CompleteNotifications(s.event.value, op, now)))
  {
    var t := s.(event := Some(CompleteNotifications(s.event.value, op, now)));
    assert Drive(t, leaders, None, now) == t;
  }

  /** The service. Its methods are the uninterrupted runs of the stages; `now` is what the clock says. */
  class Service {
    var event: Option<Event>
    var leaders: seq<Recipient>
    var published: set<Command>
    var added: set<OpId>
    var messages: seq<Recipient>

    constructor (event: Option<Event>, leaders: seq<Recipient>)
      ensures Snapshot() == Shared(event, {}, {}) && this.leaders == leaders && messages == []
    {
      this.event, this.leaders, published, added, messages := event, leaders, {}, {}, [];
    }

    function Snapshot(): Shared
      reads this
    {
      Shared(event, published, added)
    }

    method ScheduleNext(op: OpId, stage: Stage)
      modifies this`published
      ensures published == old(published) + {Command(StageOf(op, stage), stage)}
    {
      published := published + {Command(StageOf(op, stage), stage)};
    }

    method StartStage(c: Command, now: int)
      requires c.stage.Start?
      modifies this
      ensures Snapshot() == Run(old(Snapshot()), leaders, c, now)
      ensures leaders == old(leaders) && messages == old(messages)
    {
      var op := Checked(event, c);
      if op.None? || event.value.completedAt.Some? {
        return;
      }
      if event.value.opId.None? {
        if event.value.archivedAt.Some? {
          return;
        }
        event := Some(StartClose(event.value, op.value));
      } else if event.value.opId != op {
        return;
      }
      if old(event).value.opId.None? {
        DriveRefreshing(Snapshot(), leaders, op.value, now);
      } else {
        DriveQueueing(Snapshot(), leaders, op.value, AfterStart(event.value), now);
      }
      ScheduleNext(op.value, AfterStart(event.value));
    }

    method AddStatistics(c: Command, now: int)
      requires c.stage.Statistics?
      modifies this
      ensures Snapshot() == Run(old(Snapshot()), leaders, c, now)
      ensures leaders == old(leaders) && messages == old(messages)
    {
      var op := Checked(event, c);
      if op.None? || event.value.completedAt.Some? || event.value.opId != op {
        return;
      }
      if event.value.archivedAt.None? {
        DriveAdding(Snapshot(), leaders, op.value, now);
        added := added + {op.value};
      } else {
        DriveQueueing(Snapshot(), leaders, op.value, Finalize, now);
      }
      ScheduleNext(op.value, Finalize);
    }

    method FinalizeStage(c: Command, now: int)
      requires c.stage.Finalize?
      modifies this
      ensures Snapshot() == Run(old(Snapshot()), leaders, c, now)
      ensures leaders == old(leaders)
      ensures messages == old(messages) +
                if Begin(old(Snapshot()), c, now).1.Some? then Unreported(leaders, old(event).value.notified) else []
    {
      var op := Checked(event, c);
      if op.None? || event.value.completedAt.Some? || event.value.opId != op {
        return;
      }
      event := Some(CompleteActions(event.value, op.value, now));
      NotifyLeaders(op.value, now);
    }

    method NotifyLeaders(op: OpId, now: int)
      requires event.Some? && event.value.opId == Some(op)
      modifies this
      ensures Snapshot() == Drive(old(Snapshot()), leaders, Some(Reading(op)), now)
      ensures leaders == old(leaders)
      ensures messages == old(messages) + Unreported(leaders, old(event).value.notified)
    {
      ghost var s := Snapshot();
      var told := set r | r in event.value.notified;
      DriveReading(s, leaders, op, now);
      for n := 0 to |leaders|
        invariant event.Some? && event.value.opId == Some(op) && leaders == old(leaders)
        invariant told == set r | r in event.value.notified
        invariant event.value.notified == s.event.value.notified + Unreported(leaders[..n], s.event.value.notified)
        invariant messages == old(messages) + Unreported(leaders[..n], s.event.value.notified)
        invariant Drive(s, leaders, Some(Reading(op)), now)
               == Drive(Snapshot(), leaders, Some(Notifying(op, leaders, told, n)), now)
      {
        DriveLeader(Snapshot(), leaders, op, told, n, now);
        UnreportedNext(leaders, n, s.event.value.notified);
        if leaders[n] !in told && !leaders[n].platform.System? {
          messages := messages + [leaders[n]];
          event := Some(MarkDelivered(event.value, op, leaders[n]));
          told := told + {leaders[n]};
        }
      }
      DriveEnd(Snapshot(), leaders, op, told, now);
      assert leaders[..|leaders|] == leaders;
      event := Some(CompleteNotifications(event.value, op, now));
    }
  }

  // The leaders still to be told, each once, in order.
  function Unreported(leaders: seq<Recipient>, told: seq<Recipient>): (rest: seq<Recipient>)
    ensures forall r :: r in rest <==> r in leaders && r !in told && !r.platform.System?
  {
    if leaders == [] then []
    else
      var last := |leaders| - 1;
      assert leaders == leaders[..last] + [leaders[last]];
      var rest := Unreported(leaders[..last], told);
      if leaders[last] in told || leaders[last].platform.System? || leaders[last] in rest then rest
      else rest + [leaders[last]]
  }

  lemma UnreportedNext(leaders: seq<Recipient>, n: nat, told: seq<Recipient>)
    requires n < |leaders|
    ensures var rest := Unreported(leaders[..n], told);
            Unreported(leaders[..n+1], told) ==
            if leaders[n] in told + rest || leaders[n].platform.System? then rest else rest + [leaders[n]]
  {
    assert leaders[..n+1][..n] == leaders[..n];
  }

  lemma UnreportedOnce(leaders: seq<Recipient>, told: seq<Recipient>)
    requires NoRepeats(told)
    ensures NoRepeats(told + Unreported(leaders, told))
  {
    if leaders != [] {
      var last := |leaders| - 1;
      var rest := Unreported(leaders[..last], told);
      UnreportedOnce(leaders[..last], told);
      assert leaders == leaders[..last] + [leaders[last]];
      assert leaders[last] !in told && leaders[last] !in rest ==> leaders[last] !in told + rest;
      assert told + (rest + [leaders[last]]) == (told + rest) + [leaders[last]];
    } else {
      assert told + Unreported(leaders, told) == told;
    }
  }

  // ----- Recovery -----

  lemma NotifyingCompletes(s: Shared, leaders: seq<Recipient>, op: OpId, now: int)
    requires s.event.Some? && s.event.value.opId == Some(op) && s.event.value.completedAt.None?
    ensures var e := s.event.value;
            Drive(s, leaders, Some(Reading(op)), now) ==
            s.(event := Some(e.(notified := e.notified + Unreported(leaders, e.notified), completedAt := Some(now))))
  {
    var e := s.event.value;
    var t, told := s, set r | r in e.notified;
    DriveReading(s, leaders, op, now);
    assert e.notified + [] == e.notified;
    for n := 0 to |leaders|
      invariant t == s.(event := Some(e.(notified := e.notified + Unreported(leaders[..n], e.notified))))
      invariant told == set r | r in t.event.value.notified
      invariant Drive(s, leaders, Some(Reading(op)), now)
             == Drive(t, leaders, Some(Notifying(op, leaders, told, n)), now)
    {
      DriveLeader(t, leaders, op, told, n, now);
      UnreportedNext(leaders, n, e.notified);
      if leaders[n] !in told && !leaders[n].platform.System? {
        assert e.notified + (Unreported(leaders[..n], e.notified) + [leaders[n]])
            == t.event.value.notified + [leaders[n]];
        t := t.(event := Some(MarkDelivered(t.event.value, op, leaders[n])));
        told := told + {leaders[n]};
      }
    }
    DriveEnd(t, leaders, op, told, now);
    assert leaders[..|leaders|] == leaders;
  }

  function CommandFor(op: OpId, stage: Stage): Command
  {
    Command(if stage.Start? then op else StageOf(op, stage), stage)
  }

  // The stages left to process, the start first.
  function Stages(e: Event): (stages: seq<Stage>)
    ensures |stages| <= 3
  {
    if e.archivedAt.Some? then [Start, Finalize] else [Start, Statistics, Finalize]
  }

  function RunStages(s: Shared, leaders: seq<Recipient>, op: OpId, stages: seq<Stage>, now: int): Shared
  {
    if stages == [] then s
    else
      var last := |stages| - 1;
      Run(RunStages(s, leaders, op, stages[..last], now), leaders, CommandFor(op, stages[last]), now)
  }

  ghost predicate Incomplete(s: Shared)
  {
    && s.event.Some? && s.event.value.closeAt.Some?
    && s.event.value.opId == Some(Close(s.event.value.closeAt.value)) && s.event.value.completedAt.None?
  }

  lemma RerunStart(s: Shared, leaders: seq<Recipient>, now: int)
    requires Incomplete(s)
    ensures var op := s.event.value.opId.value;
            Run(s, leaders, CommandFor(op, Start), now) == Queued(s, op, AfterStart(s.event.value))
  {
    DriveQueueing(s, leaders, s.event.value.opId.value, AfterStart(s.event.value), now);
  }

  lemma RerunStatistics(s: Shared, leaders: seq<Recipient>, now: int)
    requires Incomplete(s) && s.event.value.archivedAt.None?
    ensures var op := s.event.value.opId.value;
            Run(s, leaders, CommandFor(op, Statistics), now) == Queued(s.(added := s.added + {op}), op, Finalize)
  {
    DriveAdding(s, leaders, s.event.value.opId.value, now);
  }

  lemma RerunFinalize(s: Shared, leaders: seq<Recipient>, now: int)
    requires Incomplete(s)
    ensures var e := s.event.value;
            Run(s, leaders, CommandFor(e.opId.value, Finalize), now) == s.(event := Some(Closed(e, leaders, now)))
  {
    var e := s.event.value;
    NotifyingCompletes(s.(event := Some(CompleteActions(e, e.opId.value, now))), leaders, e.opId.value, now);
  }

  // A game whose scheduled close is done and reported to everyone.
  function Closed(e: Event, leaders: seq<Recipient>, now: int): Event
  {
    e.(archivedAt := if e.archivedAt.Some? then e.archivedAt else Some(now),
       completedAt := Some(now),
       notified := e.notified + Unreported(leaders, e.notified))
  }

  /** From whatever state crashes and races have left a started close in, processing the start command
      again, and then each command the processed one queues, closes the game: in at most three stages,
      with the statistics recorded unless it is archived already, and every leader told exactly once. */
  lemma ReprocessingCloses(start: State, history: seq<Action>, leaders: seq<Recipient>, now: int)
    requires Initial(start)
    requires var e := Exec(start, history).shared.event; e.Some? && e.value.opId.Some? && e.value.completedAt.None?
    ensures var s := Exec(start, history).shared; var e := s.event.value; var op := e.opId.value;
            var stages := Stages(e); var t := RunStages(s, leaders, op, stages, now);
            && |stages| <= 3
            && (forall i :: 0 < i < |stages| ==>
                  CommandFor(op, stages[i]) in RunStages(s, leaders, op, stages[..i], now).published)
            && t.event == Some(Closed(e, leaders, now))
            && (e.archivedAt.None? ==> op in t.added)
            && NoRepeats(t.event.value.notified)
            && forall r :: r in leaders && !r.platform.System? ==> r in t.event.value.notified
  {
    InitialInv(start);
    ExecKeepsInv(start, history);
    var s := Exec(start, history).shared;
    var e := s.event.value;
    var op := e.opId.value;
    UnreportedOnce(leaders, e.notified);
    RerunStart(s, leaders, now);
    var one := Queued(s, op, AfterStart(e));
    assert [Start][..0] == [] && [Start, Finalize][..1] == [Start] && [Start, Statistics][..1] == [Start];
    assert [Start, Statistics, Finalize][..1] == [Start] && [Start, Statistics, Finalize][..2] == [Start, Statistics];
    assert RunStages(s, leaders, op, [Start], now) == one;
    if e.archivedAt.Some? {
      RerunFinalize(one, leaders, now);
      assert RunStages(s, leaders, op, [Start, Finalize], now) == one.(event := Some(Closed(e, leaders, now)));
    } else {
      RerunStatistics(one, leaders, now);
      var two := Queued(one.(added := one.added + {op}), op, Finalize);
      assert RunStages(s, leaders, op, [Start, Statistics], now) == two;
      RerunFinalize(two, leaders, now);
      assert RunStages(s, leaders, op, [Start, Statistics, Finalize], now)
          == two.(event := Some(Closed(e, leaders, now)));
    }
  }
}
