/** Telling every recipient that registration for a game has opened: timer runs that may overlap and die
    anywhere, over one stored event whose updates are serialised by revision. */
module RegistrationNotifier {
  import opened Options

  // Five minutes, in nanoseconds.
  const DISPATCH_WINDOW: int := 300_000_000_000

  datatype Event = Event(openAt: Option<int>, stored: seq<string>, completed: bool, archived: bool, closed: bool)

  // ----- Merging recipient lists -----

  // The first occurrence of every element, in order.
  function FirstOccurrences(s: seq<string>): (r: seq<string>)
    ensures forall x :: x in r <==> x in s
  {
    if s == [] then []
    else
      var front, last := FirstOccurrences(s[..|s|-1]), s[|s|-1];
      assert s == s[..|s|-1] + [last];
      if last in front then front else front + [last]
  }

  predicate NoRepeats(s: seq<string>)
  {
    forall i, j :: 0 <= i < j < |s| ==> s[i] != s[j]
  }

  lemma {:induction false} FirstOccurrencesNoRepeats(s: seq<string>)
    ensures NoRepeats(FirstOccurrences(s))
  {
    if s != [] {
      FirstOccurrencesNoRepeats(s[..|s|-1]);
    }
  }

  lemma {:induction false} FirstOccurrencesOfDistinct(s: seq<string>)
    requires NoRepeats(s)
    ensures FirstOccurrences(s) == s
  {
    if s != [] {
      FirstOccurrencesOfDistinct(s[..|s|-1]);
      assert s == s[..|s|-1] + [s[|s|-1]];
    }
  }

  lemma {:induction false} FirstOccurrencesGrow(s: seq<string>, more: seq<string>)
    ensures FirstOccurrences(s) <= FirstOccurrences(s + more)
  {
    if more != [] {
      var last := |more| - 1;
      assert (s + more)[..|s| + last] == s + more[..last];
      FirstOccurrencesGrow(s, more[..last]);
    } else {
      assert s + more == s;
    }
  }

  /** A merge without repeats in the stored list keeps that list, in order, and appends what is new. */
  lemma MergeKeepsStored(stored: seq<string>, recipients: seq<string>)
    requires NoRepeats(stored)
    ensures var merged := FirstOccurrences(stored + recipients);
            stored <= merged && NoRepeats(merged) && forall r :: r in merged <==> r in stored || r in recipients
  {
    FirstOccurrencesOfDistinct(stored);
    FirstOccurrencesGrow(stored, recipients);
    FirstOccurrencesNoRepeats(stored + recipients);
  }

  lemma FirstOccurrencesSnoc(before: seq<string>, x: string)
    ensures var front := FirstOccurrences(before);
            FirstOccurrences(before + [x]) == if x in front then front else front + [x]
  {
    assert (before + [x])[..|before|] == before;
  }

  lemma LastApart(before: seq<string>, more: seq<string>)
    requires more != []
    ensures before + more == before + more[..|more|-1] + [more[|more|-1]]
  {
  }

  lemma FirstOccurrencesNext(before: seq<string>, items: seq<string>, i: nat)
    requires i < |items|
    ensures var front := FirstOccurrences(before + items[..i]);
            FirstOccurrences(before + items[..i+1]) == if items[i] in front then front else front + [items[i]]
  {
    FirstOccurrencesSnoc(before + items[..i], items[i]);
    LastApart(before, items[..i+1]);
    assert items[..i+1][..i] == items[..i];
  }

  predicate SameElements(a: set<string>, s: seq<string>)
  {
    (forall x :: x in a ==> x in s) && (forall i :: 0 <= i < |s| ==> s[i] in a)
  }

  lemma OneMoreElement(a: set<string>, s: seq<string>, x: string)
    requires SameElements(a, s)
    ensures SameElements(a + {x}, s + [x])
  {
    assert (s + [x])[|s|] == x;
  }

  lemma NoneOrAll(before: seq<string>, items: seq<string>)
    ensures before + items[..0] == before && before + items[..|items|] == before + items
  {
  }

  // Appending a list to one without repeats.
  method AppendNew(merged: seq<string>, seen: set<string>, items: seq<string>, ghost before: seq<string>)
    returns (more: seq<string>, moreSeen: set<string>)
    requires merged == FirstOccurrences(before) && SameElements(seen, merged)
    ensures more == FirstOccurrences(before + items) && SameElements(moreSeen, more)
  {
    more, moreSeen := merged, seen;
    NoneOrAll(before, items);
    for i := 0 to |items|
      invariant more == FirstOccurrences(before + items[..i]) && SameElements(moreSeen, more)
    {
      FirstOccurrencesNext(before, items, i);
      if items[i] in moreSeen {
        continue;
      }
      OneMoreElement(moreSeen, more, items[i]);
      moreSeen := moreSeen + {items[i]};
      more := more + [items[i]];
    }
  }

  method Merge(stored: seq<string>, recipients: seq<string>) returns (merged: seq<string>)
    ensures merged == FirstOccurrences(stored + recipients)
  {
    var seen;
    merged, seen := AppendNew([], {}, stored, []);
    assert [] + stored == stored;
    merged, seen := AppendNew(merged, seen, recipients, stored);
  }

  // ----- The mutations of the stored event -----

  // Events whose registration opened before the notifier existed are completed without messages.
  function CompleteBefore(e: Event, cutoff: int): Event
  {
    if e.openAt.None? || e.openAt.value > cutoff || e.completed then e else e.(completed := true)
  }

  predicate Opens(e: Event, scheduled: int, now: int)
  {
    e.openAt == Some(scheduled) && scheduled > now && !e.completed && !e.archived && !e.closed
  }

  function OpenNow(e: Event, scheduled: int, now: int): Event
  {
    if Opens(e, scheduled, now) then e.(openAt := Some(now)) else e
  }

  function MarkDelivered(e: Event, recipients: seq<string>): Event
  {
    if e.completed then e else e.(stored := FirstOccurrences(e.stored + recipients))
  }

  function Complete(e: Event): Event
  {
    e.(completed := true)
  }

  predicate Due(e: Event, now: int)
  {
    e.openAt.Some? && e.openAt.value < now + DISPATCH_WINDOW && !e.completed && !e.archived && !e.closed
  }

  // ----- Timer runs -----

  // Where a run stands; `list` is its copy of the stored list, `told` the recipients it counts as done.
  datatype Phase =
    | Listing
    | Opening(scheduled: int, list: seq<string>)
    | Sending(list: seq<string>)
    | Recording(list: seq<string>, told: set<string>, successes: seq<string>)
    | Completing(told: set<string>)

  datatype Run = Run(now: int, phase: Phase)

  // The recipients never change; `sent` are those a message has reached.
  datatype State = State(event: Event, recipients: seq<string>, cutoff: int, sent: set<string>, runs: map<nat, Run>)

  datatype Action =
    | Launch(run: nat, now: int)
    | Step(run: nat)
    | Deliver(run: nat, reached: set<string>)  // the sends of a run, all at once, with those that succeed
    | Die(run: nat)
    | SetFlags(archived: bool, closed: bool)

  function Pending(recipients: seq<string>, told: set<string>): (pending: seq<string>)
    ensures forall r :: r in pending <==> r in recipients && r !in told
  {
    if recipients == [] then []
    else if recipients[0] in told then Pending(recipients[1..], told)
    else [recipients[0]] + Pending(recipients[1..], told)
  }

  function Elements(s: seq<string>): (r: set<string>)
    ensures forall x :: x in r <==> x in s
  {
    set x | x in s
  }

  function Advance(s: State, run: nat, phase: Option<Phase>): State
    requires run in s.runs
  {
    s.(runs := if phase.Some? then s.runs[run := Run(s.runs[run].now, phase.value)] else s.runs - {run})
  }

  function StepRun(s: State, run: nat): State
    requires run in s.runs
  {
    var e, now := s.event, s.runs[run].now;
    match s.runs[run].phase
    case Listing =>
      Advance(s, run, if !Due(e, now) then None
                      else if e.openAt.value > now then Some(Opening(e.openAt.value, e.stored))
                      else Some(Sending(e.stored)))
    case Opening(scheduled, list) =>
      var next := if Opens(e, scheduled, now) then Some(Sending(list)) else None;
      Advance(s.(event := OpenNow(e, scheduled, now)), run, next)
    case Sending(list) => s
    case Recording(list, told, successes) =>
      if successes == [] then
        Advance(s, run, if forall r :: r in s.recipients ==> r in told then Some(Completing(told)) else None)
      else
        var list' := list + [successes[0]];
        Advance(s.(event := MarkDelivered(e, list')), run,
                Some(Recording(list', told + {successes[0]}, successes[1..])))
    case Completing(told) => Advance(s.(event := Complete(e)), run, None)
  }

  function Next(s: State, a: Action): State
  {
    match a
    case Launch(run, now) =>
      if run in s.runs then s
      else s.(event := CompleteBefore(s.event, s.cutoff), runs := s.runs[run := Run(now, Listing)])
    case Step(run) => if run in s.runs then StepRun(s, run) else s
    case Deliver(run, reached) =>
      if run in s.runs && s.runs[run].phase.Sending? then
        var list := s.runs[run].phase.list;
        var pending := Pending(s.recipients, Elements(list));
        var successes := Pending(pending, Elements(pending) - reached);
        Advance(s.(sent := s.sent + Elements(successes)), run, Some(Recording(list, Elements(list), successes)))
      else s
    case Die(run) => s.(runs := s.runs - {run})
    case SetFlags(archived, closed) => s.(event := s.event.(archived := archived, closed := closed))
  }

  function Exec(s: State, actions: seq<Action>): State
    decreases |actions|
  {
    if actions == [] then s else Exec(Next(s, actions[0]), actions[1..])
  }

  predicate Initial(s: State)
  {
    s.event.stored == [] && !s.event.completed && s.sent == {} && s.runs == map[]
  }

  // The notifier runs after the date up to which it forgives the backlog.
  predicate AfterCutoff(cutoff: int, actions: seq<Action>)
  {
    forall i :: 0 <= i < |actions| && actions[i].Launch? ==> actions[i].now > cutoff
  }

  predicate PastCutoff(s: State)
  {
    s.event.openAt.Some? && s.event.openAt.value > s.cutoff
  }

  ghost predicate RunInv(s: State, r: Run)
  {
    && r.now > s.cutoff
    && (r.phase.Opening? || r.phase.Sending? || r.phase.Recording? ==> forall x :: x in r.phase.list ==> x in s.sent)
    && (r.phase.Opening? || r.phase.Sending? ==> forall x :: x in r.phase.list ==> x in s.event.stored)
    && (r.phase.Recording? ==> forall x :: x in r.phase.successes ==> x in s.sent)
    && (r.phase.Recording? || r.phase.Completing? ==>
          PastCutoff(s) ==> forall x :: x in r.phase.told && x in s.recipients ==> x in s.event.stored)
    && (r.phase.Completing? ==> forall x :: x in s.recipients ==> x in r.phase.told)
  }

  ghost predicate Inv(s: State)
  {
    && NoRepeats(s.event.stored)
    && (forall x :: x in s.event.stored ==> x in s.sent)
    && (s.event.completed && PastCutoff(s) ==> forall x :: x in s.recipients ==> x in s.event.stored)
    && (forall k :: k in s.runs ==> RunInv(s, s.runs[k]))
  }

  ghost predicate Grows(s: State, t: State)
  {
    && t.recipients == s.recipients && t.cutoff == s.cutoff
    && s.event.stored <= t.event.stored && s.sent <= t.sent
    && (s.event.completed ==> t.event.completed)
    && (PastCutoff(t) <==> PastCutoff(s))
  }

  lemma OtherRunsFollow(s: State, t: State)
    requires Inv(s) && Grows(s, t)
    ensures forall k :: k in s.runs ==> RunInv(t, s.runs[k])
  {
    forall k | k in s.runs ensures RunInv(t, s.runs[k]) {
      assert RunInv(s, s.runs[k]);
    }
  }

  lemma RecordingKeepsInv(s: State, run: nat)
    requires Inv(s) && run in s.runs && s.runs[run].phase.Recording? && s.runs[run].phase.successes != []
    ensures Inv(StepRun(s, run)) && Grows(s, StepRun(s, run))
  {
    var p := s.runs[run].phase;
    var t := StepRun(s, run);
    assert RunInv(s, s.runs[run]);
    MergeKeepsStored(s.event.stored, p.list + [p.successes[0]]);
    OtherRunsFollow(s, t);
    assert RunInv(t, t.runs[run]);
    forall k | k in t.runs ensures RunInv(t, t.runs[k]) {
      if k != run {
        assert RunInv(t, s.runs[k]);
      }
    }
  }

  lemma StepKeepsInv(s: State, run: nat)
    requires Inv(s) && run in s.runs
    ensures Inv(StepRun(s, run)) && Grows(s, StepRun(s, run))
  {
    var t := StepRun(s, run);
    assert RunInv(s, s.runs[run]);
    if s.runs[run].phase.Recording? && s.runs[run].phase.successes != [] {
      RecordingKeepsInv(s, run);
    } else {
      assert Grows(s, t);
      OtherRunsFollow(s, t);
      forall k | k in t.runs ensures RunInv(t, t.runs[k]) {
        if k != run {
          assert RunInv(t, s.runs[k]);
        }
      }
    }
  }

  lemma NextKeepsInv(s: State, a: Action)
    requires Inv(s) && (a.Launch? ==> a.now > s.cutoff)
    ensures Inv(Next(s, a)) && Grows(s, Next(s, a))
  {
    var t := Next(s, a);
    if a.Step? {
      if a.run in s.runs {
        StepKeepsInv(s, a.run);
      }
    } else {
      assert Grows(s, t);
      OtherRunsFollow(s, t);
      forall k | k in t.runs ensures RunInv(t, t.runs[k]) {
        if k in s.runs {
          assert RunInv(t, s.runs[k]);
        }
      }
    }
  }

  lemma {:induction false} ExecKeepsInv(s: State, actions: seq<Action>)
    requires Inv(s) && AfterCutoff(s.cutoff, actions)
    ensures Inv(Exec(s, actions)) && Grows(s, Exec(s, actions))
    decreases |actions|
  {
    if actions != [] {
      NextKeepsInv(s, actions[0]);
      ExecKeepsInv(Next(s, actions[0]), actions[1..]);
    }
  }

  /** However timer runs overlap and die: an entry is stored only after a message reached the recipient,
      no entry is repeated, and when an event past the backlog cutoff is completed every recipient is
      stored. */
  lemma CompletedMeansAllStored(start: State, actions: seq<Action>)
    requires Initial(start) && AfterCutoff(start.cutoff, actions)
    ensures var s := Exec(start, actions);
            && (forall x :: x in s.event.stored ==> x in s.sent)
            && NoRepeats(s.event.stored)
            && (s.event.completed && PastCutoff(start) ==> forall x :: x in start.recipients ==> x in s.event.stored)
  {
    ExecKeepsInv(start, actions);
  }

  /** The stored list only grows, at its end, and completion is for ever. */
  lemma StoredListGrows(start: State, actions: seq<Action>, more: seq<Action>)
    requires Initial(start) && AfterCutoff(start.cutoff, actions) && AfterCutoff(start.cutoff, more)
    ensures var s := Exec(start, actions); var t := Exec(s, more);
            s.event.stored <= t.event.stored && (s.event.completed ==> t.event.completed)
  {
    ExecKeepsInv(start, actions);
    ExecKeepsInv(Exec(start, actions), more);
  }

  /** The backlog rule completes an event without telling anyone exactly when it opened by the cutoff;
      a run whose own clock is not past the cutoff would bring an imminent event under that rule. */
  lemma BacklogSwallowsExactly(e: Event, scheduled: int, now: int, cutoff: int)
    requires Opens(e, scheduled, now) && scheduled > cutoff
    ensures CompleteBefore(OpenNow(e, scheduled, now), cutoff).completed <==> now <= cutoff
    ensures !CompleteBefore(e, cutoff).completed
  {
  }

  // ----- One run, undisturbed -----

  /** A whole pass over a due event: everyone not stored yet is sent to once, those reached are stored in
      order, and the event is completed exactly when nobody is left. */
  method Pass(event: Event, recipients: seq<string>, reachable: set<string>) returns (after: Event, delivered: nat)
    requires NoRepeats(event.stored) && NoRepeats(recipients) && !event.completed
    ensures var successes := Pending(Pending(recipients, Elements(event.stored)), Elements(recipients) - reachable);
            && after.stored == event.stored + successes && delivered == |successes|
            && (after.completed <==> forall r :: r in recipients ==> r in event.stored || r in reachable)
            && after == event.(stored := after.stored, completed := after.completed)
  {
    var pending := Pending(recipients, Elements(event.stored));
    PendingDistinct(recipients, Elements(event.stored));
    var stored;
    stored, delivered := RecordSuccesses(event.stored, pending, reachable, Elements(recipients) - reachable);
    after := event.(stored := stored);
    var told := Elements(stored);
    if forall r :: r in recipients ==> r in told {
      after := after.(completed := true);
    }
  }

  method RecordSuccesses(initial: seq<string>, pending: seq<string>, reachable: set<string>, ghost failing: set<string>)
    returns (stored: seq<string>, delivered: nat)
    requires NoRepeats(initial) && NoRepeats(pending)
    requires forall r :: r in pending ==> r !in initial && (r in failing <==> r !in reachable)
    ensures stored == initial + Pending(pending, failing) && delivered == |Pending(pending, failing)|
  {
    stored, delivered := initial, 0;
    var list := initial;
    assert initial + [] == initial;
    for i := 0 to |pending|
      invariant stored == list == initial + Pending(pending[..i], failing) && NoRepeats(list)
      invariant delivered == |Pending(pending[..i], failing)|
    {
      PendingNext(pending, i, failing);
      assert pending[i] in pending;
      if pending[i] !in reachable {
        continue;
      }
      assert pending[i] !in pending[..i] && pending[i] !in list;
      assert initial + (Pending(pending[..i], failing) + [pending[i]]) == list + [pending[i]];
      list := list + [pending[i]];
      MergeOfExtension(stored, pending[i]);
      stored := Merge(stored, list);
      delivered := delivered + 1;
    }
    assert pending[..|pending|] == pending;
  }

  lemma MergeOfExtension(stored: seq<string>, x: string)
    requires NoRepeats(stored) && x !in stored
    ensures FirstOccurrences(stored + (stored + [x])) == stored + [x]
  {
    MergeOfMembers(stored, stored);
    FirstOccurrencesSnoc(stored + stored, x);
    assert stored + (stored + [x]) == stored + stored + [x];
  }

  lemma {:induction false} MergeOfMembers(stored: seq<string>, more: seq<string>)
    requires NoRepeats(stored) && forall i :: 0 <= i < |more| ==> more[i] in stored
    ensures FirstOccurrences(stored + more) == stored
  {
    if more == [] {
      assert stored + more == stored;
      FirstOccurrencesOfDistinct(stored);
    } else {
      var last := |more| - 1;
      MergeOfMembers(stored, more[..last]);
      FirstOccurrencesSnoc(stored + more[..last], more[last]);
      LastApart(stored, more);
    }
  }

  lemma {:induction false} PendingNext(s: seq<string>, i: nat, told: set<string>)
    requires i < |s|
    ensures Pending(s[..i+1], told) == Pending(s[..i], told) + if s[i] in told then [] else [s[i]]
    decreases i
  {
    if i > 0 {
      assert s[..i+1][1..] == s[1..][..i] && s[..i][1..] == s[1..][..i-1];
      PendingNext(s[1..], i - 1, told);
    }
  }

  lemma {:induction false} PendingDistinct(s: seq<string>, told: set<string>)
    requires NoRepeats(s)
    ensures NoRepeats(Pending(s, told))
  {
    if s != [] {
      PendingDistinct(s[1..], told);
      assert s[0] !in s[1..];
      assert s[0] !in Pending(s[1..], told);
    }
  }
}
