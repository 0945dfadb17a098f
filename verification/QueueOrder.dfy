/** The order of a signup queue: by queue time, ties broken by participant key. A queue is described
    by the queue times of its members. */
module QueueOrder {
  import opened StringOrder

  type Times = map<string, int>

  predicate Before(times: Times, p: string, q: string)
    requires p in times && q in times
  {
    times[p] < times[q] || (times[p] == times[q] && Lt(p, q))
  }

  predicate Within(times: Times, q: seq<string>)
  {
    forall i :: 0 <= i < |q| ==> q[i] in times
  }

  predicate Sorted(times: Times, q: seq<string>)
  {
    Within(times, q) && forall i, j :: 0 <= i < j < |q| ==> Before(times, q[i], q[j])
  }

  // The one sequence that lists every member once, in queue order.
  predicate IsQueue(times: Times, q: seq<string>)
  {
    Sorted(times, q) && forall p :: p in times ==> p in q
  }

  lemma Trichotomy(times: Times, p: string, q: string)
    requires p in times && q in times
    ensures !(Before(times, p, q) && Before(times, q, p))
    ensures Before(times, p, q) || Before(times, q, p) || p == q
    ensures !Before(times, p, p)
  {
    Total(p, q);
    if Le(p, q) && Le(q, p) {
      Antisymmetric(p, q);
    }
  }

  lemma BeforeTransitive(times: Times, p: string, q: string, r: string)
    requires p in times && q in times && r in times && Before(times, p, q) && Before(times, q, r)
    ensures Before(times, p, r)
  {
    if times[p] == times[q] == times[r] {
      Transitive(p, q, r);
      if p == r {
        Antisymmetric(p, q);
      }
    }
  }

  ghost predicate IsFirst(times: Times, p: string)
  {
    p in times && forall q :: q in times && q != p ==> Before(times, p, q)
  }

  lemma {:induction false} FirstExists(times: Times)
    requires times != map[]
    ensures exists p :: IsFirst(times, p)
    decreases |times|
  {
    var p :| p in times;
    var rest := times - {p};
    if rest == map[] {
      assert forall q :: q in times && q != p ==> q in rest;
      assert IsFirst(times, p);
    } else {
      assert times.Keys == rest.Keys + {p};
      FirstExists(rest);
      var f :| IsFirst(rest, f);
      var least := if Before(times, p, f) then p else f;
      Trichotomy(times, p, f);
      forall q | q in times && q != least ensures Before(times, least, q) {
        if q != p && q != f {
          assert q in rest && Before(rest, f, q);
          if Before(times, p, f) {
            BeforeTransitive(times, p, f, q);
          }
        }
      }
      assert IsFirst(times, least);
    }
  }

  ghost function First(times: Times): (p: string)
    requires times != map[]
    ensures IsFirst(times, p)
  {
    FirstExists(times);
    var p :| IsFirst(times, p);
    p
  }

  ghost function Queue(times: Times): (q: seq<string>)
    ensures IsQueue(times, q)
    decreases |times|
  {
    if times == map[] then []
    else
      var p := First(times);
      assert times.Keys == (times - {p}).Keys + {p};
      var rest := Queue(times - {p});
      FirstThenRest(times, p, rest);
      [p] + rest
  }

  lemma FirstThenRest(times: Times, p: string, rest: seq<string>)
    requires IsFirst(times, p) && IsQueue(times - {p}, rest)
    ensures IsQueue(times, [p] + rest)
  {
    var q := [p] + rest;
    forall i | 0 <= i < |rest| ensures rest[i] in times && rest[i] != p {
      assert rest[i] in times - {p};
    }
    forall i, j | 0 <= i < j < |q| ensures q[i] in times && q[j] in times && Before(times, q[i], q[j]) {
      if i > 0 {
        assert Before(times - {p}, rest[i-1], rest[j-1]);
      }
    }
    forall x | x in times ensures x in q {
      assert x != p ==> x in times - {p};
    }
  }

  lemma SortedHasNoRepeats(times: Times, q: seq<string>, i: nat, j: nat)
    requires Sorted(times, q) && i < |q| && j < |q| && q[i] == q[j]
    ensures i == j
  {
    Trichotomy(times, q[i], q[i]);
  }

  lemma {:induction false} QueueUnique(times: Times, q: seq<string>, r: seq<string>)
    requires IsQueue(times, q) && IsQueue(times, r)
    ensures q == r
    decreases |times|
  {
    if times == map[] {
      assert q == [] && r == [];
    } else {
      var p := First(times);
      FirstLeads(times, q, p);
      FirstLeads(times, r, p);
      TailIsQueue(times, q);
      TailIsQueue(times, r);
      QueueUnique(times - {p}, q[1..], r[1..]);
      assert q == [p] + q[1..] && r == [p] + r[1..];
    }
  }

  lemma FirstLeads(times: Times, q: seq<string>, p: string)
    requires IsQueue(times, q) && IsFirst(times, p)
    ensures q != [] && q[0] == p
  {
    assert p in q;
    var i :| 0 <= i < |q| && q[i] == p;
    if i > 0 {
      Trichotomy(times, q[0], p);
    }
  }

  lemma TailIsQueue(times: Times, q: seq<string>)
    requires IsQueue(times, q) && q != []
    ensures |times - {q[0]}| < |times| && IsQueue(times - {q[0]}, q[1..])
  {
    var rest := times - {q[0]};
    assert times.Keys == rest.Keys + {q[0]};
    forall i | 0 <= i < |q[1..]| ensures q[1..][i] in rest {
      if q[i+1] == q[0] {
        SortedHasNoRepeats(times, q, 0, i + 1);
      }
    }
    forall p | p in rest ensures p in q[1..] {
      var i :| 0 <= i < |q| && q[i] == p;
      assert q[1..][i-1] == p;
    }
    forall i, j | 0 <= i < j < |q[1..]| ensures Before(rest, q[1..][i], q[1..][j]) {
      assert Before(times, q[i+1], q[j+1]);
    }
  }

  // ----- Selecting part of a queue -----

  function Select(q: seq<string>, keep: set<string>): (r: seq<string>)
    ensures forall p :: p in r <==> p in q && p in keep
    ensures |r| <= |q|
  {
    if q == [] then []
    else if q[0] in keep then [q[0]] + Select(q[1..], keep)
    else Select(q[1..], keep)
  }

  lemma {:induction false} SelectSorted(times: Times, q: seq<string>, keep: set<string>)
    requires Sorted(times, q)
    ensures Sorted(times, Select(q, keep))
  {
    if q != [] {
      var rest := Select(q[1..], keep);
      assert Sorted(times, q[1..]);
      SelectSorted(times, q[1..], keep);
      forall i | 0 <= i < |rest| ensures Before(times, q[0], rest[i]) {
        assert rest[i] in q[1..];
        var k :| 0 <= k < |q[1..]| && q[1..][k] == rest[i];
        assert Before(times, q[0], q[k+1]);
      }
    }
  }

  // The order of a queue depends only on how the times of its members compare.
  ghost predicate SameOrder(a: Times, b: Times, q: seq<string>)
  {
    Within(a, q) && Within(b, q) &&
    forall i, j :: 0 <= i < |q| && 0 <= j < |q| ==> (a[q[i]] < a[q[j]] <==> b[q[i]] < b[q[j]])
  }

  lemma SortedTransfers(a: Times, b: Times, q: seq<string>)
    requires Sorted(a, q) && SameOrder(a, b, q)
    ensures Sorted(b, q)
  {
    forall i, j | 0 <= i < j < |q| ensures Before(b, q[i], q[j]) {
      assert Before(a, q[i], q[j]);
    }
  }

  function Restrict(times: Times, keep: set<string>): Times
  {
    map p | p in times && p in keep :: times[p]
  }

  /** Leaving: a queue without one of its members is that queue with the member taken out. */
  lemma QueueOfSome(times: Times, keep: set<string>)
    ensures Queue(Restrict(times, keep)) == Select(Queue(times), keep)
  {
    var some := Restrict(times, keep);
    var q := Queue(times);
    var r := Select(q, keep);
    SelectSorted(times, q, keep);
    forall i, j | 0 <= i < j < |r| ensures r[i] in some && r[j] in some && Before(some, r[i], r[j]) {
      assert r[i] in r && r[j] in r && Before(times, r[i], r[j]);
    }
    forall i | 0 <= i < |r| ensures r[i] in some {
      assert r[i] in r;
    }
    QueueUnique(some, Queue(some), r);
  }

  /** Joining: whoever joins later than everyone is last. */
  lemma QueueWithLast(times: Times, p: string, t: int)
    requires p !in times && forall q :: q in times ==> times[q] < t
    ensures Queue(times[p := t]) == Queue(times) + [p]
  {
    var q := Queue(times);
    var r := q + [p];
    var more := times[p := t];
    forall i, j | 0 <= i < j < |r| ensures r[i] in more && r[j] in more && Before(more, r[i], r[j]) {
      if j < |q| {
        assert Before(times, q[i], q[j]);
      }
    }
    forall x | x in more ensures x in r {
      assert x in q ==> x in r;
    }
    QueueUnique(more, Queue(more), r);
  }

  lemma SortedJoins(times: Times, f: seq<string>, b: seq<string>)
    requires Sorted(times, f) && Sorted(times, b)
    requires forall i, j :: 0 <= i < |f| && 0 <= j < |b| ==> times[f[i]] < times[b[j]]
    ensures Sorted(times, f + b)
  {
    var r := f + b;
    forall i, j | 0 <= i < j < |r| ensures r[i] in times && r[j] in times && Before(times, r[i], r[j]) {
      if j < |f| {
        assert Before(times, f[i], f[j]);
      } else if i >= |f| {
        assert Before(times, b[i - |f|], b[j - |f|]);
      }
    }
    forall i | 0 <= i < |r| ensures r[i] in times {
    }
  }

  /** Putting some members behind all the others, keeping the order inside both groups. */
  lemma QueueOfTwoGroups(times: Times, moved: Times, front: set<string>)
    requires moved.Keys == times.Keys
    requires forall p, q :: p in times && q in times && (p in front <==> q in front) ==>
              (moved[p] < moved[q] <==> times[p] < times[q])
    requires forall p, q :: p in times && q in times && p in front && q !in front ==> moved[p] < moved[q]
    ensures Queue(moved) == Select(Queue(times), front) + Select(Queue(times), times.Keys - front)
  {
    var q := Queue(times);
    var f, b := Select(q, front), Select(q, times.Keys - front);
    SelectSorted(times, q, front);
    SelectSorted(times, q, times.Keys - front);
    var r := f + b;
    forall i | 0 <= i < |f| ensures f[i] in times && f[i] in front { assert f[i] in f; }
    forall i | 0 <= i < |b| ensures b[i] in times && b[i] !in front { assert b[i] in b; }
    SortedTransfers(times, moved, f);
    SortedTransfers(times, moved, b);
    SortedJoins(moved, f, b);
    forall p | p in moved ensures p in r {
      assert p in q;
      if p in front {
        assert p in f;
      } else {
        assert p in b;
      }
    }
    QueueUnique(moved, Queue(moved), r);
  }

  predicate DistinctTimes(times: Times)
  {
    forall p, q :: p in times && q in times && p != q ==> times[p] != times[q]
  }

  /** Exchanging the times of two members, all times being different, exchanges their places and
      nobody else's. */
  lemma QueueOfExchange(times: Times, i: nat, j: nat)
    requires DistinctTimes(times) && i < |Queue(times)| && j < |Queue(times)|
    ensures var q := Queue(times);
            Queue(times[q[i] := times[q[j]]][q[j] := times[q[i]]]) == q[i := q[j]][j := q[i]]
  {
    var q := Queue(times);
    var moved := times[q[i] := times[q[j]]][q[j] := times[q[i]]];
    var r := q[i := q[j]][j := q[i]];
    forall k | 0 <= k < |r| ensures r[k] in moved && moved[r[k]] == times[q[k]] {
      if k != i && k != j {
        if q[k] == q[i] {
          SortedHasNoRepeats(times, q, k, i);
        }
        if q[k] == q[j] {
          SortedHasNoRepeats(times, q, k, j);
        }
      }
    }
    forall k, m | 0 <= k < m < |r| ensures Before(moved, r[k], r[m]) {
      assert Before(times, q[k], q[m]);
    }
    forall p | p in moved ensures p in r {
      assert p in q;
      var k :| 0 <= k < |q| && q[k] == p;
      if k == i {
        assert r[j] == p;
      } else if k == j {
        assert r[i] == p;
      } else {
        assert r[k] == p;
      }
    }
    QueueUnique(moved, Queue(moved), r);
  }
}
