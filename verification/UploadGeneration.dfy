/** Generation strings of staged uploads: twenty digits of nanoseconds, a dash and a job id. */
module UploadGeneration {
  import opened StringOrder
  import opened Options

  // Six minutes, in nanoseconds.
  const LOCK_STALE_AFTER := 360_000_000_000
  const MAX_INT64 := 0x7fff_ffff_ffff_ffff

  predicate IsDigit(c: char) { '0' <= c <= '9' }

  predicate IsIdChar(c: char) { IsDigit(c) || 'a' <= c <= 'f' || c == '-' }

  predicate AllDigits(s: string) { forall i :: 0 <= i < |s| ==> IsDigit(s[i]) }

  // The pattern every validated file generation matches.
  predicate ValidGeneration(g: string)
  {
    |g| == 57 && AllDigits(g[..20]) && g[20] == '-' && forall i :: 21 <= i < 57 ==> IsIdChar(g[i])
  }

  // The value of a decimal numeral read from the left, starting from `acc`.
  function Decimal(s: string, acc: nat := 0): nat
    requires AllDigits(s)
  {
    if s == "" then acc else Decimal(s[1..], 10 * acc + (s[0] as int - '0' as int))
  }

  // The text before the first dash; None when there is no dash.
  function BeforeDash(s: string): (r: Option<string>)
    ensures r.Some? ==> |r.value| < |s| && r.value == s[..|r.value|] && s[|r.value|] == '-' && '-' !in r.value
    ensures r.None? ==> '-' !in s
  {
    if s == "" then None
    else if s[0] == '-' then Some("")
    else match BeforeDash(s[1..])
      case None => None
      case Some(rest) => Some([s[0]] + rest)
  }

  // Parsing a non-empty run of digits into a signed 64-bit integer. A lock body is always a
  // validated generation, so the sign a general parser would also accept is not modelled.
  function ParseInt64(s: string): Option<int>
  {
    if s != "" && AllDigits(s) && Decimal(s) <= MAX_INT64 then Some(Decimal(s)) else None
  }

  // A lock whose body is this text may be taken over at this instant.
  predicate Stale(body: string, now: int)
  {
    match BeforeDash(body)
    case None => false
    case Some(digits) =>
      match ParseInt64(digits)
      case None => false
      case Some(stamp) => now - stamp > LOCK_STALE_AFTER
  }

  function Stamp(g: string): nat
    requires ValidGeneration(g)
  {
    Decimal(g[..20])
  }

  lemma {:induction false} DecimalStart(s: string, low: nat, high: nat)
    requires AllDigits(s) && low <= high
    ensures Decimal(s, low) <= Decimal(s, high)
  {
    if s != "" {
      var d := s[0] as int - '0' as int;
      DecimalStart(s[1..], 10 * low + d, 10 * high + d);
    }
  }

  // A numeral that starts behind never overtakes one of the same length that starts ahead.
  lemma {:induction false} DecimalGap(a: string, b: string, low: nat, high: nat)
    requires AllDigits(a) && AllDigits(b) && |a| == |b| && low < high
    ensures Decimal(a, low) < Decimal(b, high)
  {
    if a != "" {
      DecimalGap(a[1..], b[1..], 10 * low + (a[0] as int - '0' as int), 10 * high + (b[0] as int - '0' as int));
    }
  }

  lemma {:induction false} DecimalAgrees(a: string, b: string, acc: nat)
    requires AllDigits(a) && AllDigits(b) && |a| == |b|
    ensures Le(a, b) <==> Decimal(a, acc) <= Decimal(b, acc)
  {
    if a != "" {
      var x, y := a[0] as int - '0' as int, b[0] as int - '0' as int;
      if x < y {
        DecimalGap(a[1..], b[1..], 10 * acc + x, 10 * acc + y);
      } else if y < x {
        DecimalGap(b[1..], a[1..], 10 * acc + y, 10 * acc + x);
      } else {
        DecimalAgrees(a[1..], b[1..], 10 * acc + x);
      }
    }
  }

  lemma {:induction false} PrefixOrder(a: string, b: string, k: nat)
    requires k <= |a| && k <= |b| && Le(a, b)
    ensures Le(a[..k], b[..k])
  {
    if k > 0 && a[0] == b[0] {
      PrefixOrder(a[1..], b[1..], k - 1);
      assert a[..k][1..] == a[1..][..k-1] && b[..k][1..] == b[1..][..k-1];
    }
  }

  lemma {:induction false} PrefixDecides(a: string, b: string, k: nat)
    requires k <= |a| && k <= |b| && Le(a[..k], b[..k]) && a[..k] != b[..k]
    ensures Le(a, b)
  {
    if k > 0 {
      assert a[..k][0] == a[0] && b[..k][0] == b[0];
      if a[0] == b[0] {
        assert a[..k][1..] == a[1..][..k-1] && b[..k][1..] == b[1..][..k-1];
        assert a[..k] == [a[0]] + a[1..][..k-1] && b[..k] == [b[0]] + b[1..][..k-1];
        PrefixDecides(a[1..], b[1..], k - 1);
      }
    }
  }

  /** Comparing generations as strings never contradicts comparing their timestamps. */
  lemma GenerationOrderIsTimeOrder(a: string, b: string)
    requires ValidGeneration(a) && ValidGeneration(b)
    ensures Le(a, b) ==> Stamp(a) <= Stamp(b)
    ensures Stamp(a) < Stamp(b) ==> Le(a, b) && !Le(b, a)
  {
    DecimalAgrees(a[..20], b[..20], 0);
    DecimalAgrees(b[..20], a[..20], 0);
    if Le(a, b) {
      PrefixOrder(a, b, 20);
    }
    if Stamp(a) < Stamp(b) {
      Total(a[..20], b[..20]);
      PrefixDecides(a, b, 20);
      if Le(b, a) {
        PrefixOrder(b, a, 20);
      }
    }
  }

  lemma {:induction false} CutAtDash(s: string, k: nat)
    requires k < |s| && s[k] == '-' && '-' !in s[..k]
    ensures BeforeDash(s) == Some(s[..k])
  {
    if k > 0 {
      assert s[..k][0] == s[0] && s[0] in s[..k];
      assert s[1..][..k-1] == s[..k][1..];
      CutAtDash(s[1..], k - 1);
      assert s[..k] == [s[0]] + s[1..][..k-1];
    }
  }

  /** A validated lock body becomes stale exactly when its timestamp fits in 64 bits and six
      minutes have passed: a validated generation beyond that range is never taken over. */
  lemma StaleExactly(g: string, now: int)
    requires ValidGeneration(g)
    ensures Stale(g, now) <==> Stamp(g) <= MAX_INT64 && now > Stamp(g) + LOCK_STALE_AFTER
  {
    CutAtDash(g, 20);
  }

  lemma StaleForever(body: string, now: int, later: int)
    requires Stale(body, now) && now <= later
    ensures Stale(body, later)
  {
  }
}
