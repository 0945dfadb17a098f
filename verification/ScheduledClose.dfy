/** Closing a game at a scheduled time: start, statistics, finalize. The stages are queued commands that
    may be delivered again at any time, by several workers at once, and may die between any two awaits;
    masters edit the schedule, archive, unarchive and delete in between. One game is modelled: operation
    ids contain the game's id, so games do not interfere. */
module ScheduledClose {
  import opened Options

  datatype Platform = Telegram | Vk | System
  datatype Recipient = Recipient(platform: Platform, user: int)

  datatype Stage = Start | Statistics | Finalize

  // Name-based UUIDs, taken as injective: one per scheduled instant and, derived from it, one per stage.
  datatype OpId = Close(at: int) | StageOf(close: OpId, stage: Stage)

  datatype Command = Command(op: OpId, stage: Stage)

  datatype Event = Event(
    closeAt: Option<int>,
    opId: Option<OpId>,
    completedAt: Option<int>,
    archivedAt: Option<int>,
    notified: seq<Recipient>)

  // ----- The repository's writes, each atomic -----

  function SetCloseAt(e: Event, at: Option<int>): Event
  {
    if e.opId.Some? || e.closeAt == at then e
    else e.(closeAt := at, notified := [], completedAt := None)
  }

  function StartClose(e: Event, op: OpId): Event
  {
    if e.opId.Some? || e.archivedAt.Some? then e else e.(opId := Some(op))
  }

  function CompleteActions(e: Event, op: OpId, now: int): Event
  {
    if e.opId != Some(op) || e.archivedAt.Some? then e else e.(archivedAt := Some(now))
  }

  function MarkDelivered(e: Event, op: OpId, recipient: Recipient): Event
  {
    if e.opId == Some(op) && recipient !in e.notified then e.(notified := e.notified + [recipient]) else e
  }

  function CompleteNotifications(e: Event, op: OpId, now: int): Event
  {
    if e.opId == Some(op) && e.completedAt.None? then e.(completedAt := Some(now)) else e
  }

  function Archive(e: Event, now: int): Event
  {
    if e.archivedAt.Some? then e else e.(archivedAt := Some(now))
  }

  function Unarchive(e: Event): Event
  {
    e.(archivedAt := None)
  }

  // ----- The stages -----

  function ExpectedId(stage: Stage, at: int): OpId
  {
    if stage.Start? then Close(at) else StageOf(Close(at), stage)
  }

  // The operation a command belongs to; none when the game is gone or the schedule has been replaced.
  function Checked(event: Option<Event>, c: Command): Option<OpId>
  {
    if event.Some? && event.value.closeAt.Some? && c.op == ExpectedId(c.stage, event.value.closeAt.value)
    then Some(Close(event.value.closeAt.value))
    else None
  }

  function AfterStart(e: Event): Stage
  {
    if e.archivedAt.Some? then Finalize else Statistics
  }

  // Where a worker stands between two awaits.
  datatype Phase =
    | Refreshing(op: OpId)
    | Adding(op: OpId)
    | Queueing(op: OpId, next: Stage)
    | Reading(op: OpId)
    | Listing(op: OpId, told: set<Recipient>)
    | Notifying(op: OpId, leaders: seq<Recipient>, told: set<Recipient>, n: nat)
    | Marking(op: OpId, leaders: seq<Recipient>, told: set<Recipient>, n: nat)

  datatype Shared = Shared(event: Option<Event>, published: set<Command>, added: set<OpId>)

  // A worker takes a command: its first read and first write.
  function Begin(s: Shared, c: Command, now: int): (Shared, Option<Phase>)
  {
    var op := Checked(s.event, c);
    if op.None? || s.event.value.completedAt.Some? then (s, None)
    else
      var e := s.event.value;
      match c.stage
      case Start =>
        if e.opId.None? then
          if e.archivedAt.Some? then (s, None)
          else (s.(event := Some(StartClose(e, op.value))), Some(Refreshing(op.value)))
        else if e.opId != op then (s, None)
        else (s, Some(Queueing(op.value, AfterStart(e))))
      case Statistics =>
        if e.opId != op then (s, None)
        else if e.archivedAt.None? then (s, Some(Adding(op.value)))
        else (s, Some(Queueing(op.value, Finalize)))
      case Finalize =>
        if e.opId != op then (s, None)
        else (s.(event := Some(CompleteActions(e, op.value, now))), Some(Reading(op.value)))
  }

  // The next await of a worker. A message that cannot reach a leader counts as sent.
  function Continue(s: Shared, leaders: seq<Recipient>, phase: Phase, now: int): (Shared, Option<Phase>)
  {
    match phase
    case Refreshing(op) =>
      if s.event.None? then (s, None) else (s, Some(Queueing(op, AfterStart(s.event.value))))
    case Adding(op) =>
      if s.event.None? || s.event.value.archivedAt.Some? then (s, None)
      else (s.(added := s.added + {op}), Some(Queueing(op, Finalize)))
    case Queueing(op, next) =>
      (s.(published := s.published + {Command(StageOf(op, next), next)}), None)
    case Reading(op) =>
      if s.event.None? then (s, None)
      else (s, Some(Listing(op, set r | r in s.event.value.notified)))
    case Listing(op, told) => (s, Some(Notifying(op, leaders, told, 0)))
    case Notifying(op, ls, told, n) =>
      if n < |ls| then
        if ls[n] in told || ls[n].platform.System? then (s, Some(Notifying(op, ls, told, n + 1)))
        else (s, Some(Marking(op, ls, told, n)))
      else if s.event.None? then (s, None)
      else (s.(event := Some(CompleteNotifications(s.event.value, op, now))), None)
    case Marking(op, ls, told, n) =>
      if s.event.None? || n >= |ls| then (s, None)
      else (s.(event := Some(MarkDelivered(s.event.value, op, ls[n]))), Some(Notifying(op, ls, told + {ls[n]}, n + 1)))
  }

  // ----- All interleavings -----

  // `archivedLater`: a master archived the game after its close had started.
  datatype State = State(shared: Shared, leaders: seq<Recipient>, archivedLater: bool, runs: map<nat, Phase>)

  datatype Action =
    | Dispatch(at: int)                            // a timer run that saw this schedule
    | Deliver(run: nat, command: Command, now: int)
    | Step(run: nat, now: int)
    | Die(run: nat)                                // a crash, or an exception out of any await
    | Edit(schedule: Option<int>)
    | ArchiveByHand(now: int)
    | UnarchiveByHand
    | ChangeLeaders(leaders: seq<Recipient>)
    | Delete

  function OnEvent(s: State, event: Option<Event>): State
  {
    s.(shared := s.shared.(event := event))
  }

  function Move(s: State, run: nat, to: (Shared, Option<Phase>)): State
  {
    s.(shared := to.0, runs := if to.1.Some? then s.runs[run := to.1.value] else s.runs - {run})
  }

  function Next(s: State, a: Action): State
  {
    var event := s.shared.event;
    match a
    case Dispatch(at) => s.(shared := s.shared.(published := s.shared.published + {Command(Close(at), Start)}))
    case Deliver(run, c, now) =>
      if run in s.runs || c !in s.shared.published then s else Move(s, run, Begin(s.shared, c, now))
    case Step(run, now) => if run !in s.runs then s else Move(s, run, Continue(s.shared, s.leaders, s.runs[run], now))
    case Die(run) => s.(runs := s.runs - {run})
    case Edit(schedule) => if event.None? then s else OnEvent(s, Some(SetCloseAt(event.value, schedule)))
    case ArchiveByHand(now) =>
      if event.None? then s
      else OnEvent(s.(archivedLater := s.archivedLater || event.value.opId.Some?), Some(Archive(event.value, now)))
    case UnarchiveByHand => if event.None? then s else OnEvent(s, Some(Unarchive(event.value)))
    case ChangeLeaders(leaders) => s.(leaders := leaders)
    case Delete => OnEvent(s, None)
  }

  function Exec(s: State, actions: seq<Action>): State
    decreases |actions|
  {
    if actions == [] then s else Exec(Next(s, actions[0]), actions[1..])
  }

  // Any game whose close has not started.
  predicate Initial(s: State)
  {
    && s.shared.event.Some? && s.shared.event.value.opId.None? && s.shared.event.value.completedAt.None?
    && s.shared.event.value.notified == []
    && s.shared.published == {} && s.shared.added == {} && !s.archivedLater && s.runs == map[]
  }

  // ----- The invariant -----

  predicate NoRepeats(s: seq<Recipient>)
  {
    forall i, j :: 0 <= i < j < |s| ==> s[i] != s[j]
  }

  // The game went into the statistics, or a master archived it after the start.
  predicate Earned(s: State, op: OpId)
  {
    op in s.shared.added || s.archivedLater
  }

  predicate Past(phase: Phase)
  {
    (phase.Queueing? && phase.next.Finalize?) || phase.Reading? || phase.Listing? || phase.Notifying? || phase.Marking?
  }

  ghost predicate EventInv(s: State)
  {
    s.shared.event.Some? ==>
      var e := s.shared.event.value;
      && (e.opId.Some? ==> e.closeAt.Some? && e.opId.value == Close(e.closeAt.value))
      && (e.completedAt.Some? ==> e.opId.Some? && Earned(s, e.opId.value))
      && (e.opId.Some? && e.archivedAt.Some? ==> Earned(s, e.opId.value))
      && NoRepeats(e.notified)
  }

  // A command or worker of this operation belongs to the close that has started.
  predicate Current(s: State, op: OpId)
  {
    s.shared.event.Some? ==> s.shared.event.value.opId == Some(op)
  }

  ghost predicate CommandInv(s: State, c: Command)
  {
    if c.stage.Start? then c.op.Close?
    else && c.op.StageOf? && c.op.stage == c.stage && Current(s, c.op.close)
         && (c.stage.Finalize? ==> Earned(s, c.op.close))
  }

  ghost predicate RunInv(s: State, phase: Phase)
  {
    && Current(s, phase.op)
    && (phase.Queueing? ==> !phase.next.Start?)
    && (Past(phase) ==> Earned(s, phase.op))
    && (phase.Listing? || phase.Notifying? || phase.Marking? ==>
          s.shared.event.Some? ==> forall r :: r in phase.told ==> r in s.shared.event.value.notified)
    && (phase.Notifying? || phase.Marking? ==>
          && phase.n <= |phase.leaders| && (phase.Marking? ==> phase.n < |phase.leaders|)
          && forall i :: 0 <= i < phase.n ==> phase.leaders[i].platform.System? || phase.leaders[i] in phase.told)
  }

  ghost predicate Inv(s: State)
  {
    && EventInv(s)
    && (forall c :: c in s.shared.published ==> CommandInv(s, c))
    && (forall r :: r in s.runs ==> RunInv(s, s.runs[r]))
  }

  // What every step keeps of a close that has started.
  predicate Keeps(e: Event, later: Event)
  {
    e.opId.Some? ==>
      && later.opId == e.opId && later.closeAt == e.closeAt
      && (e.completedAt.Some? ==> later.completedAt == e.completedAt)
      && e.notified <= later.notified
  }

  ghost predicate Grows(s: State, t: State)
  {
    && s.shared.added <= t.shared.added && (s.archivedLater ==> t.archivedLater)
    && (t.shared.event.Some? ==> s.shared.event.Some? && Keeps(s.shared.event.value, t.shared.event.value))
  }

  lemma OthersFollow(s: State, t: State)
    requires Inv(s) && Grows(s, t)
    ensures forall c :: c in s.shared.published ==> CommandInv(t, c)
    ensures forall r :: r in s.runs ==> RunInv(t, s.runs[r])
  {
    forall c | c in s.shared.published ensures CommandInv(t, c) {
      assert CommandInv(s, c);
    }
    forall r | r in s.runs ensures RunInv(t, s.runs[r]) {
      assert RunInv(s, s.runs[r]);
    }
  }

  lemma BeginKeepsInv(s: State, run: nat, c: Command, now: int)
    requires Inv(s) && run !in s.runs && c in s.shared.published
    ensures Inv(Move(s, run, Begin(s.shared, c, now))) && Grows(s, Move(s, run, Begin(s.shared, c, now)))
  {
    var t := Move(s, run, Begin(s.shared, c, now));
    assert CommandInv(s, c);
    assert Grows(s, t);
    OthersFollow(s, t);
    assert EventInv(t);
    forall r | r in t.runs ensures RunInv(t, t.runs[r]) {
      if r != run {
        assert RunInv(t, s.runs[r]);
      }
    }
  }

  lemma StepKeepsInv(s: State, run: nat, now: int)
    requires Inv(s) && run in s.runs
    ensures Inv(Next(s, Step(run, now))) && Grows(s, Next(s, Step(run, now)))
  {
    var t := Next(s, Step(run, now));
    assert RunInv(s, s.runs[run]);
    assert Grows(s, t);
    OthersFollow(s, t);
    assert EventInv(t);
    forall c | c in t.shared.published ensures CommandInv(t, c) {
    }
    forall r | r in t.runs ensures RunInv(t, t.runs[r]) {
      if r != run {
        assert RunInv(t, s.runs[r]);
      }
    }
  }

  lemma NextKeepsInv(s: State, a: Action)
    requires Inv(s)
    ensures Inv(Next(s, a)) && Grows(s, Next(s, a))
  {
    var t := Next(s, a);
    match a {
      case Deliver(run, c, now) =>
        if run !in s.runs && c in s.shared.published {
          BeginKeepsInv(s, run, c, now);
        }
      case Step(run, now) =>
        if run in s.runs {
          StepKeepsInv(s, run, now);
        }
      case _ =>
        assert Grows(s, t);
        OthersFollow(s, t);
        assert EventInv(t);
        assert forall r :: r in t.runs ==> t.runs[r] == s.runs[r];
    }
  }

  lemma {:induction false} ExecKeepsInv(s: State, actions: seq<Action>)
    requires Inv(s)
    ensures Inv(Exec(s, actions)) && Grows(s, Exec(s, actions))
    decreases |actions|
  {
    if actions != [] {
      NextKeepsInv(s, actions[0]);
      ExecKeepsInv(Next(s, actions[0]), actions[1..]);
    }
  }

  lemma InitialInv(s: State)
    requires Initial(s)
    ensures Inv(s)
  {
  }

  // ----- Safety -----

  predicate ByPipeline(a: Action)
  {
    a.Deliver? || a.Step?
  }

  /** After any history, the pipeline archives a game, or reports its close as completed, only when the
      game has gone into the statistics or a master archived it after the start. */
  lemma ArchivesOnlyWhatIsEarned(start: State, history: seq<Action>, a: Action)
    requires Initial(start) && ByPipeline(a)
    ensures var s := Exec(start, history);
            var before, after := s.shared.event, Next(s, a).shared.event;
            before.Some? && after.Some? &&
            (|| (before.value.archivedAt.None? && after.value.archivedAt.Some?)
             || (before.value.completedAt.None? && after.value.completedAt.Some?)) ==>
              after.value.opId.Some? && Earned(s, after.value.opId.value)
  {
    var s := Exec(start, history);
    InitialInv(start);
    ExecKeepsInv(start, history);
    if a.Deliver? {
      if a.command in s.shared.published {
        assert CommandInv(s, a.command);
      }
    } else if a.run in s.runs {
      assert RunInv(s, s.runs[a.run]);
    }
  }

  /** Once a close has started, its operation id is that of the schedule, and both stay for ever; so does
      its completion, and the list of notified leaders only grows and never repeats anyone. */
  lemma StartedForEver(start: State, history: seq<Action>, more: seq<Action>)
    requires Initial(start)
    ensures var s := Exec(start, history); var t := Exec(s, more);
            s.shared.event.Some? && t.shared.event.Some? && s.shared.event.value.opId.Some? ==>
              var e, later := s.shared.event.value, t.shared.event.value;
              && Keeps(e, later)
              && later.closeAt.Some? && later.opId == Some(Close(later.closeAt.value))
              && NoRepeats(later.notified)
  {
    InitialInv(start);
    ExecKeepsInv(start, history);
    ExecKeepsInv(Exec(start, history), more);
  }

  /** A command for a replaced or removed schedule, or for a deleted game, changes nothing. */
  lemma StaleCommandChangesNothing(s: State, run: nat, c: Command, now: int)
    requires s.shared.event.Some? && s.shared.event.value.closeAt.Some? ==>
               c.op != ExpectedId(c.stage, s.shared.event.value.closeAt.value)
    ensures Next(s, Deliver(run, c, now)) == s
  {
    if run !in s.runs {
      assert s.runs - {run} == s.runs;
    }
  }

  /** When a worker completes the notifications, every leader it listed, the system aside, is in the
      stored list. */
  lemma CompletedMeansEveryoneMarked(start: State, history: seq<Action>, run: nat, now: int, leader: Recipient)
    requires Initial(start)
    requires var s := Exec(start, history);
             && run in s.runs && s.runs[run].Notifying? && s.runs[run].n == |s.runs[run].leaders|
             && s.shared.event.Some? && leader in s.runs[run].leaders && !leader.platform.System?
    ensures var e := Next(Exec(start, history), Step(run, now)).shared.event;
            e.Some? && e.value.completedAt.Some? && leader in e.value.notified
  {
    InitialInv(start);
    ExecKeepsInv(start, history);
    var s := Exec(start, history);
    assert RunInv(s, s.runs[run]);
    NextKeepsInv(s, Step(run, now));
  }

  // ----- A schedule edited between its read and the start -----

  // A worker that has read one schedule stores the operation id only now.
  function LateStart(s: State, run: nat, read: int): State
  {
    if s.shared.event.None? then s
    else
      var op := Close(read);
      OnEvent(s.(runs := s.runs[run := Refreshing(op)]), Some(StartClose(s.shared.event.value, op)))
  }

  // The game's operation id belongs to another schedule than its own, and no worker is past its start.
  ghost predicate Jammed(s: State, read: int, at: Option<int>)
  {
    && at != Some(read) && (s.shared.event.Some? ==> HoldsWrongId(s.shared.event.value, read, at))
    && forall r :: r in s.runs ==> s.runs[r].Refreshing? || s.runs[r].Queueing?
  }

  predicate HoldsWrongId(e: Event, read: int, at: Option<int>)
  {
    e.opId == Some(Close(read)) && e.closeAt == at && e.completedAt.None?
  }

  lemma BeginIsRefused(s: Shared, c: Command, now: int, read: int, at: Option<int>)
    requires at != Some(read) && (s.event.Some? ==> HoldsWrongId(s.event.value, read, at))
    ensures Begin(s, c, now) == (s, None)
  {
  }

  lemma NextStaysJammed(s: State, a: Action, read: int, at: Option<int>)
    requires Jammed(s, read, at)
    ensures Jammed(Next(s, a), read, at)
    ensures ByPipeline(a) ==> Next(s, a).shared.event == s.shared.event
  {
    if a.Deliver? {
      BeginIsRefused(s.shared, a.command, a.now, read, at);
    }
  }

  lemma {:induction false} ExecStaysJammed(s: State, actions: seq<Action>, read: int, at: Option<int>)
    requires Jammed(s, read, at)
    ensures Jammed(Exec(s, actions), read, at)
    decreases |actions|
  {
    if actions != [] {
      NextStaysJammed(s, actions[0], read, at);
      ExecStaysJammed(Next(s, actions[0]), actions[1..], read, at);
    }
  }

  /** Reading the schedule and storing the operation id must not be separated. If the schedule is edited
      in between, then after whatever happens later, edits by hand included, the stored id belongs to
      another schedule than the game's, the close is never completed, and no queued command and no
      worker changes the game again: it is never archived automatically. */
  lemma EditBetweenReadAndStartJams(
      start: State, history: seq<Action>, run: nat, read: int, more: seq<Action>, a: Action)
    requires Initial(start)
    requires var event := Exec(start, history).shared.event;
             && event.Some? && event.value.opId.None? && event.value.archivedAt.None?
             && event.value.closeAt != Some(read)
    ensures var s := Exec(start, history);
            var t := Exec(LateStart(s, run, read), more);
            && (t.shared.event.Some? ==>
                  HoldsWrongId(t.shared.event.value, read, s.shared.event.value.closeAt))
            && (ByPipeline(a) ==> Next(t, a).shared.event == t.shared.event)
  {
    var s := Exec(start, history);
    InitialInv(start);
    ExecKeepsInv(start, history);
    var at := s.shared.event.value.closeAt;
    ExecStaysJammed(LateStart(s, run, read), more, read, at);
    NextStaysJammed(Exec(LateStart(s, run, read), more), a, read, at);
  }

  /** The late write does what an undivided start does exactly when the schedule is still the one read. */
  lemma LateStartExactly(start: State, history: seq<Action>, run: nat, read: int, now: int)
    requires Initial(start)
    requires var event := Exec(start, history).shared.event;
             event.Some? && event.value.opId.None? && event.value.archivedAt.None?
    ensures var s := Exec(start, history);
            LateStart(s, run, read) == Move(s, run, Begin(s.shared, Command(Close(read), Start), now)) <==>
              s.shared.event.value.closeAt == Some(read)
  {
    InitialInv(start);
    ExecKeepsInv(start, history);
  }
}
