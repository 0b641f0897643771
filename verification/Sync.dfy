// Heartbeat and synchronisation period of a list of time steps, in signed
// 64-bit nanoseconds.
module Sync {
  import opened Arithmetic
  import opened Collections

  const INT64_MAX := 0x7FFF_FFFF_FFFF_FFFF

  datatype Outcome = Value(nanos: int) | NoSteps | NotPositive | Overflows

  function GcdOf(steps: seq<int>, acc: nat): Outcome {
    if steps == [] then Value(acc)
    else if steps[0] <= 0 then NotPositive
    else GcdOf(steps[1..], Gcd(acc, steps[0]))
  }

  function Heartbeat(steps: seq<int>): Outcome {
    if steps == [] then NoSteps else GcdOf(steps, 0)
  }

  // The guard is exact: it fires when the product exceeds the range.
  lemma GuardExact(div: nat, step: nat)
    requires step > 0
    ensures div > INT64_MAX / step <==> div * step > INT64_MAX
  {
    if div > INT64_MAX / step {
      Monotone(INT64_MAX / step + 1, div, step);
    } else {
      Monotone(div, INT64_MAX / step, step);
    }
  }

  // The least common multiple of two numbers, or None if a division says that
  // it does not fit.
  function LcmNext(acc: nat, step: nat): (r: Option<nat>)
    requires acc > 0 && step > 0
    ensures r.Some? ==> 0 < r.value <= INT64_MAX
  {
    var div := acc / Gcd(acc, step);
    if div > INT64_MAX / step then None
    else LcmLeast(acc, step, 0); GuardExact(div, step); Some(div * step)
  }

  function LcmOf(steps: seq<int>, acc: nat): Outcome
    requires acc > 0
  {
    if steps == [] then Value(acc)
    else if steps[0] <= 0 then NotPositive
    else match LcmNext(acc, steps[0])
         case None => Overflows
         case Some(next) => LcmOf(steps[1..], next)
  }

  function SyncPeriod(steps: seq<int>): Outcome {
    if steps == [] then NoSteps else LcmOf(steps, 1)
  }

  // ----- what the results mean -----

  predicate AllPositive(steps: seq<int>) {
    forall i :: 0 <= i < |steps| ==> steps[i] > 0
  }

  predicate CommonMultiple(m: int, steps: seq<int>) {
    m > 0 && forall i :: 0 <= i < |steps| ==> Divides(steps[i], m)
  }

  predicate CommonDivisor(d: int, steps: seq<int>) {
    forall i :: 0 <= i < |steps| ==> Divides(d, steps[i])
  }

  // Some common multiple is representable.
  ghost predicate Fits(steps: seq<int>) {
    exists m :: m <= INT64_MAX && CommonMultiple(m, steps)
  }

  // The least common multiple: it divides, and so bounds, all the others.
  ghost predicate IsLcm(l: int, steps: seq<int>) {
    CommonMultiple(l, steps) && forall m :: CommonMultiple(m, steps) ==> Divides(l, m)
  }

  ghost predicate IsGcd(g: int, steps: seq<int>) {
    g > 0 && CommonDivisor(g, steps) && forall d :: CommonDivisor(d, steps) ==> Divides(d, g)
  }

  // Where the loop stops, given what it has accumulated.
  ghost predicate LcmStops(steps: seq<int>, acc: nat, r: Outcome) {
    match r
    case Value(l) =>
      && AllPositive(steps) && l <= INT64_MAX && Divides(acc, l) && CommonMultiple(l, steps)
      && forall m :: Divides(acc, m) && CommonMultiple(m, steps) ==> Divides(l, m)
    case NotPositive =>
      exists n :: 0 <= n < |steps| && steps[n] <= 0 && AllPositive(steps[..n])
        && exists m :: m <= INT64_MAX && Divides(acc, m) && CommonMultiple(m, steps[..n])
    case Overflows =>
      exists n :: 0 <= n <= |steps| && AllPositive(steps[..n])
        && forall m :: Divides(acc, m) && CommonMultiple(m, steps[..n]) ==> m > INT64_MAX
    case NoSteps => false
  }

  lemma ConsMultiple(m: int, steps: seq<int>, n: nat)
    requires n < |steps|
    ensures CommonMultiple(m, steps[..n + 1]) <==> Divides(steps[0], m) && CommonMultiple(m, steps[1..][..n])
    ensures AllPositive(steps[..n + 1]) <==> steps[0] > 0 && AllPositive(steps[1..][..n])
  {
    var s, r := steps[..n + 1], steps[1..][..n];
    assert s[0] == steps[0];
    if CommonMultiple(m, s) {
      forall i | 0 <= i < n ensures Divides(r[i], m) {
        assert r[i] == s[i + 1];
      }
    }
    if Divides(steps[0], m) && CommonMultiple(m, r) {
      forall i | 0 <= i < |s| ensures Divides(s[i], m) {
        assert i > 0 ==> r[i - 1] == s[i];
      }
    }
    if steps[0] > 0 && AllPositive(r) {
      forall i | 0 <= i < |s| ensures s[i] > 0 {
        assert i > 0 ==> r[i - 1] == s[i];
      }
    }
    if AllPositive(s) {
      forall i | 0 <= i < n ensures r[i] > 0 {
        assert r[i] == s[i + 1];
      }
    }
  }

  // One turn of the loop: what holds of the rest from the new accumulator
  // holds of the whole from the old one.
  lemma LcmStep(steps: seq<int>, acc: nat, next: nat, r: Outcome)
    requires steps != [] && acc > 0 && steps[0] > 0 && next > 0 && Divides(acc, next) && Divides(steps[0], next)
    requires forall m :: Divides(acc, m) && Divides(steps[0], m) ==> Divides(next, m)
    requires LcmStops(steps[1..], next, r)
    ensures LcmStops(steps, acc, r)
  {
    var rest := steps[1..];
    match r
    case Value(l) =>
      assert rest[..|rest|] == rest && steps[..|rest| + 1] == steps;
      ConsMultiple(l, steps, |rest|);
      DividesTrans(acc, next, l);
      DividesTrans(steps[0], next, l);
      forall m | Divides(acc, m) && CommonMultiple(m, steps) ensures Divides(l, m) {
        ConsMultiple(m, steps, |rest|);
      }
    case NotPositive =>
      var n :| 0 <= n < |rest| && rest[n] <= 0 && AllPositive(rest[..n])
        && exists m :: m <= INT64_MAX && Divides(next, m) && CommonMultiple(m, rest[..n]);
      var m :| m <= INT64_MAX && Divides(next, m) && CommonMultiple(m, rest[..n]);
      ConsMultiple(m, steps, n);
      DividesTrans(acc, next, m);
      DividesTrans(steps[0], next, m);
      assert steps[n + 1] <= 0 && AllPositive(steps[..n + 1]);
    case Overflows =>
      var n :| 0 <= n <= |rest| && AllPositive(rest[..n])
        && forall m :: Divides(next, m) && CommonMultiple(m, rest[..n]) ==> m > INT64_MAX;
      forall m | Divides(acc, m) && CommonMultiple(m, steps[..n + 1]) ensures m > INT64_MAX {
        ConsMultiple(m, steps, n);
      }
      ConsMultiple(1, steps, n);
      assert AllPositive(steps[..n + 1]);
  }

  lemma {:induction false} LcmOfStops(steps: seq<int>, acc: nat)
    requires 0 < acc <= INT64_MAX
    ensures LcmStops(steps, acc, LcmOf(steps, acc))
    decreases |steps|
  {
    if steps == [] {
      assert CommonMultiple(acc, steps);
    } else if steps[0] <= 0 {
      assert CommonMultiple(acc, steps[..0]) && AllPositive(steps[..0]);
    } else {
      var div := acc / Gcd(acc, steps[0]);
      var next := div * steps[0];
      LcmLeast(acc, steps[0], 0);
      forall m | Divides(acc, m) && Divides(steps[0], m) ensures Divides(next, m) {
        LcmLeast(acc, steps[0], m);
      }
      GuardExact(div, steps[0]);
      if next > INT64_MAX {
        forall m | Divides(acc, m) && CommonMultiple(m, steps[..1]) ensures m > INT64_MAX {
          assert Divides(steps[..1][0], m);
          DividesBound(next, m);
        }
        assert AllPositive(steps[..1]);
      } else {
        LcmOfStops(steps[1..], next);
        LcmStep(steps, acc, next, LcmOf(steps[1..], next));
      }
    }
  }

  lemma OneDivides(m: int)
    ensures Divides(1, m)
  {
  }

  // A prefix of a list that has a small common multiple has one.
  lemma PrefixFits(steps: seq<int>, n: nat, k: nat)
    requires n <= k <= |steps| && Fits(steps[..k])
    ensures Fits(steps[..n])
  {
    var m :| m <= INT64_MAX && CommonMultiple(m, steps[..k]);
    assert forall i :: 0 <= i < n ==> steps[..n][i] == steps[..k][i];
    assert CommonMultiple(m, steps[..n]);
  }

  ghost predicate OverflowsAt(steps: seq<int>, n: nat) {
    n <= |steps| && AllPositive(steps[..n]) && !Fits(steps[..n])
  }

  ghost predicate BadStepAt(steps: seq<int>, n: nat) {
    n < |steps| && steps[n] <= 0 && AllPositive(steps[..n]) && Fits(steps[..n])
  }

  // The synchronisation period, exactly: the least common multiple when every
  // step is positive and it fits in 64 bits; an overflow when the steps up to
  // some point are positive and have no common multiple in range; otherwise
  // the first non-positive step is reported.
  lemma SyncPeriodMeaning(steps: seq<int>)
    requires steps != []
    ensures forall l :: SyncPeriod(steps) == Value(l) <==> AllPositive(steps) && IsLcm(l, steps) && l <= INT64_MAX
    ensures SyncPeriod(steps) == Overflows <==> exists n :: OverflowsAt(steps, n)
    ensures SyncPeriod(steps) == NotPositive <==> exists n :: BadStepAt(steps, n)
    ensures SyncPeriod(steps) != NoSteps
  {
    var r := SyncPeriod(steps);
    LcmOfStops(steps, 1);
    forall m ensures Divides(1, m) {
      OneDivides(m);
    }
    match r
    case Value(l) =>
      assert IsLcm(l, steps);
      forall n: nat ensures !OverflowsAt(steps, n) && !BadStepAt(steps, n) {
        if n <= |steps| {
          assert steps[..|steps|] == steps;
          PrefixFits(steps, n, |steps|);
        }
      }
      forall l' | IsLcm(l', steps) ensures l' == l {
        DividesBound(l, l');
        DividesBound(l', l);
      }
    case NotPositive =>
      var n :| 0 <= n < |steps| && steps[n] <= 0 && AllPositive(steps[..n])
        && exists m :: m <= INT64_MAX && Divides(1, m) && CommonMultiple(m, steps[..n]);
      assert BadStepAt(steps, n);
      forall k: nat ensures !OverflowsAt(steps, k) {
        if k <= n {
          PrefixFits(steps, k, n);
        } else if k <= |steps| {
          assert steps[..k][n] == steps[n];
        }
      }
    case Overflows =>
      var n :| 0 <= n <= |steps| && AllPositive(steps[..n])
        && forall m :: Divides(1, m) && CommonMultiple(m, steps[..n]) ==> m > INT64_MAX;
      assert OverflowsAt(steps, n);
      forall k: nat ensures !BadStepAt(steps, k) {
        if n <= k < |steps| && Fits(steps[..k]) {
          PrefixFits(steps, n, k);
        } else if k < n {
          assert steps[..n][k] == steps[k];
        }
      }
      forall l | CommonMultiple(l, steps) ensures l > INT64_MAX {
        assert forall i :: 0 <= i < n ==> steps[..n][i] == steps[i];
        assert CommonMultiple(l, steps[..n]);
      }
  }

  lemma SameElements(a: seq<int>, b: seq<int>, m: int)
    requires multiset(a) == multiset(b)
    ensures AllPositive(a) ==> AllPositive(b)
    ensures CommonMultiple(m, a) ==> CommonMultiple(m, b)
  {
    forall i | 0 <= i < |b| ensures exists j :: 0 <= j < |a| && a[j] == b[i] {
      assert b[i] in multiset(b);
      assert b[i] in a;
    }
  }

  lemma LcmIndependent(a: seq<int>, b: seq<int>, l: int)
    requires multiset(a) == multiset(b) && IsLcm(l, a)
    ensures IsLcm(l, b)
  {
    SameElements(a, b, l);
    forall m | CommonMultiple(m, b) ensures Divides(l, m) {
      SameElements(b, a, m);
    }
  }

  // The order of the steps decides at most which error is reported: not
  // whether there is a period nor what it is, and nothing at all if every
  // step is positive.
  lemma OrderIndependent(a: seq<int>, b: seq<int>)
    requires multiset(a) == multiset(b)
    ensures forall l :: SyncPeriod(a) == Value(l) <==> SyncPeriod(b) == Value(l)
    ensures AllPositive(a) ==> SyncPeriod(a) == SyncPeriod(b)
  {
    assert |a| == |multiset(a)| == |multiset(b)| == |b|;
    if a != [] {
      SyncPeriodMeaning(a);
      SyncPeriodMeaning(b);
      SameElements(a, b, 0);
      SameElements(b, a, 0);
      forall l ensures IsLcm(l, a) <==> IsLcm(l, b) {
        if IsLcm(l, a) { LcmIndependent(a, b, l); }
        if IsLcm(l, b) { LcmIndependent(b, a, l); }
      }
      assert AllPositive(a) ==> forall n :: !BadStepAt(a, n) && !BadStepAt(b, n);
      assert SyncPeriod(a).Value? ==> SyncPeriod(b) == Value(SyncPeriod(a).nanos);
      assert SyncPeriod(b).Value? ==> SyncPeriod(a) == Value(SyncPeriod(b).nanos);
    }
  }

  // The positive steps in order, and the others.
  function Positives(steps: seq<int>): seq<int> {
    if steps == [] then [] else (if steps[0] > 0 then [steps[0]] else []) + Positives(steps[1..])
  }

  function Others(steps: seq<int>): seq<int> {
    if steps == [] then [] else (if steps[0] > 0 then [] else [steps[0]]) + Others(steps[1..])
  }

  lemma {:induction false} PositiveMembers(steps: seq<int>, x: int)
    ensures x in Positives(steps) <==> x in steps && x > 0
    decreases |steps|
  {
    if steps != [] {
      PositiveMembers(steps[1..], x);
      assert steps == [steps[0]] + steps[1..];
    }
  }

  lemma {:induction false} SplitMultiset(steps: seq<int>)
    ensures multiset(Positives(steps)) + multiset(Others(steps)) == multiset(steps)
    decreases |steps|
  {
    if steps != [] {
      SplitMultiset(steps[1..]);
      assert steps == [steps[0]] + steps[1..];
    }
  }

  lemma SplitBySign(steps: seq<int>)
    ensures multiset(Positives(steps)) + multiset(Others(steps)) == multiset(steps)
    ensures AllPositive(Positives(steps))
    ensures forall x :: x in Positives(steps) <==> x in steps && x > 0
  {
    SplitMultiset(steps);
    forall x ensures x in Positives(steps) <==> x in steps && x > 0 {
      PositiveMembers(steps, x);
    }
  }

  // If the positive steps together fit, none of them is reported before the
  // first that is not positive.
  lemma FitsHidesOverflow(steps: seq<int>)
    requires !AllPositive(steps) && Fits(Positives(steps))
    ensures SyncPeriod(steps) == NotPositive
  {
    SyncPeriodMeaning(steps);
    SplitBySign(steps);
    var ps := Positives(steps);
    var m :| m <= INT64_MAX && CommonMultiple(m, ps);
    forall n: nat ensures !OverflowsAt(steps, n) {
      if n <= |steps| && AllPositive(steps[..n]) {
        forall i | 0 <= i < n ensures Divides(steps[..n][i], m) {
          assert steps[..n][i] in steps && steps[..n][i] > 0;
          var j :| 0 <= j < |ps| && ps[j] == steps[..n][i];
        }
        assert CommonMultiple(m, steps[..n]);
      }
    }
  }

  lemma SamePositives(a: seq<int>, b: seq<int>)
    requires multiset(a) == multiset(b)
    ensures Fits(Positives(a)) ==> Fits(Positives(b))
    ensures AllPositive(a) <==> AllPositive(b)
  {
    SplitBySign(a);
    SplitBySign(b);
    SameElements(a, b, 0);
    SameElements(b, a, 0);
    if Fits(Positives(a)) {
      var m :| m <= INT64_MAX && CommonMultiple(m, Positives(a));
      forall i | 0 <= i < |Positives(b)| ensures Divides(Positives(b)[i], m) {
        var x := Positives(b)[i];
        assert x in Positives(b);
        assert x in multiset(a) && x in Positives(a);
        var j :| 0 <= j < |Positives(a)| && Positives(a)[j] == x;
      }
      assert CommonMultiple(m, Positives(b));
    }
  }

  // A step that is not positive, put first, is reported.
  lemma BadStepFirst(steps: seq<int>) returns (b: seq<int>)
    requires !AllPositive(steps)
    ensures multiset(b) == multiset(steps) && SyncPeriod(b) == NotPositive
  {
    var i :| 0 <= i < |steps| && steps[i] <= 0;
    b := [steps[i]] + (steps[..i] + steps[i + 1..]);
    assert steps == steps[..i] + [steps[i]] + steps[i + 1..];
    assert SyncPeriod(b) == LcmOf(b, 1);
  }

  // Put last, the overflow of the positive steps is.
  lemma BadStepsLast(steps: seq<int>) returns (b: seq<int>)
    requires steps != [] && !Fits(Positives(steps))
    ensures multiset(b) == multiset(steps) && SyncPeriod(b) == Overflows
  {
    SplitBySign(steps);
    var ps := Positives(steps);
    b := ps + Others(steps);
    assert |multiset(b)| == |multiset(steps)|;
    assert b[..|ps|] == ps;
    assert OverflowsAt(b, |ps|);
    SyncPeriodMeaning(b);
  }

  // Exactly when the outcome, error included, does not depend on the order:
  // every step is positive, or the positive ones have a common multiple in
  // range.
  lemma OutcomeOrderFree(steps: seq<int>)
    ensures (forall b: seq<int> :: multiset(b) == multiset(steps) ==> SyncPeriod(b) == SyncPeriod(steps))
      <==> AllPositive(steps) || Fits(Positives(steps))
  {
    if AllPositive(steps) || Fits(Positives(steps)) {
      forall b: seq<int> | multiset(b) == multiset(steps) ensures SyncPeriod(b) == SyncPeriod(steps) {
        SamePositives(steps, b);
        if AllPositive(steps) {
          OrderIndependent(steps, b);
        } else {
          FitsHidesOverflow(steps);
          FitsHidesOverflow(b);
        }
      }
    } else {
      var first := BadStepFirst(steps);
      var last := BadStepsLast(steps);
      assert SyncPeriod(first) != SyncPeriod(last);
    }
  }

  // For example, these three steps.
  lemma OrderExample()
    ensures SyncPeriod([INT64_MAX, INT64_MAX - 1, 0]) == Overflows
        && SyncPeriod([0, INT64_MAX, INT64_MAX - 1]) == NotPositive
  {
    var a, b := INT64_MAX, INT64_MAX - 1;
    assert Gcd(1, a) == Gcd(a, 1) == Gcd(1, 0) == 1;
    assert Gcd(a, b) == Gcd(b, 1) == Gcd(1, 0) == 1;
    assert SyncPeriod([a, b, 0]) == LcmOf([a, b, 0], 1);
    assert [a, b, 0][1..] == [b, 0];
    assert LcmOf([a, b, 0], 1) == LcmOf([b, 0], a);
  }

  ghost predicate GcdStops(steps: seq<int>, acc: nat, r: Outcome) {
    match r
    case Value(g) =>
      && AllPositive(steps) && Divides(g, acc) && CommonDivisor(g, steps)
      && forall d :: Divides(d, acc) && CommonDivisor(d, steps) ==> Divides(d, g)
    case NotPositive => !AllPositive(steps)
    case _ => false
  }

  lemma ConsDivisor(d: int, steps: seq<int>)
    requires steps != []
    ensures CommonDivisor(d, steps) <==> Divides(d, steps[0]) && CommonDivisor(d, steps[1..])
    ensures AllPositive(steps) <==> steps[0] > 0 && AllPositive(steps[1..])
  {
    if CommonDivisor(d, steps[1..]) && Divides(d, steps[0]) {
      forall i | 0 <= i < |steps| ensures Divides(d, steps[i]) {
        assert i > 0 ==> steps[1..][i - 1] == steps[i];
      }
    }
    if AllPositive(steps[1..]) && steps[0] > 0 {
      forall i | 0 <= i < |steps| ensures steps[i] > 0 {
        assert i > 0 ==> steps[1..][i - 1] == steps[i];
      }
    }
  }

  lemma {:induction false} GcdOfStops(steps: seq<int>, acc: nat)
    requires acc > 0 || steps != []
    ensures GcdStops(steps, acc, GcdOf(steps, acc))
    decreases |steps|
  {
    if steps != [] && steps[0] > 0 {
      var next := Gcd(acc, steps[0]);
      GcdDivides(acc, steps[0]);
      GcdOfStops(steps[1..], next);
      var r := GcdOf(steps[1..], next);
      if r.Value? {
        ConsDivisor(r.nanos, steps);
        DividesTrans(r.nanos, next, acc);
        DividesTrans(r.nanos, next, steps[0]);
        forall d | Divides(d, acc) && CommonDivisor(d, steps) ensures Divides(d, r.nanos) {
          ConsDivisor(d, steps);
          GcdGreatest(acc, steps[0], d);
        }
      }
    }
  }

  // The heartbeat is the greatest common divisor, for positive steps.
  lemma HeartbeatMeaning(steps: seq<int>)
    requires steps != []
    ensures forall g :: Heartbeat(steps) == Value(g) <==> AllPositive(steps) && IsGcd(g, steps)
    ensures Heartbeat(steps) == NotPositive <==> !AllPositive(steps)
  {
    GcdOfStops(steps, 0);
    if Heartbeat(steps).Value? {
      var g := Heartbeat(steps).nanos;
      assert IsGcd(g, steps);
      forall g' | IsGcd(g', steps) ensures g' == g {
        DividesBound(g, g');
        DividesBound(g', g);
      }
    }
  }

  // Heartbeats tile every step, and the period is a whole number of them.
  lemma HeartbeatDividesPeriod(steps: seq<int>)
    requires SyncPeriod(steps).Value?
    ensures Heartbeat(steps).Value? && Divides(Heartbeat(steps).nanos, SyncPeriod(steps).nanos)
  {
    var l := SyncPeriod(steps).nanos;
    assert IsLcm(l, steps) && AllPositive(steps) by {
      SyncPeriodMeaning(steps);
    }
    assert Heartbeat(steps).Value? && IsGcd(Heartbeat(steps).nanos, steps) by {
      HeartbeatMeaning(steps);
      GcdOfStops(steps, 0);
    }
    DividesTrans(Heartbeat(steps).nanos, steps[0], l);
  }

  // ----- the loops -----

  method EuclidGcd(a: nat, b: nat) returns (g: nat)
    ensures g == Gcd(a, b)
  {
    var x, y := a, b;
    while y != 0
      invariant Gcd(x, y) == Gcd(a, b)
      decreases y
    {
      x, y := y, x % y;
    }
    return x;
  }

  method ComputeHeartbeat(steps: seq<int>) returns (r: Outcome)
    ensures r == Heartbeat(steps)
  {
    if steps == [] {
      return NoSteps;
    }
    var result: nat := 0;
    for i := 0 to |steps|
      invariant GcdOf(steps[i..], result) == GcdOf(steps, 0)
    {
      assert steps[i..][1..] == steps[i + 1..];
      if steps[i] <= 0 {
        return NotPositive;
      }
      result := EuclidGcd(result, steps[i]);
    }
    return Value(result);
  }

  // The overflow check and the product.
  method CombineLcm(acc: nat, step: nat) returns (next: Option<nat>)
    requires acc > 0 && step > 0
    ensures next == LcmNext(acc, step)
  {
    var g := EuclidGcd(acc, step);
    var div := acc / g;
    if div > INT64_MAX / step {
      return None;
    }
    return Some(div * step);
  }

  method ComputeSyncPeriod(steps: seq<int>) returns (r: Outcome)
    ensures r == SyncPeriod(steps)
    ensures r.Value? ==> 0 < r.nanos <= INT64_MAX
  {
    if steps == [] {
      return NoSteps;
    }
    var result: nat := 1;
    for i := 0 to |steps|
      invariant 0 < result <= INT64_MAX && LcmOf(steps[i..], result) == LcmOf(steps, 1)
    {
      assert steps[i..][1..] == steps[i + 1..];
      if steps[i] <= 0 {
        return NotPositive;
      }
      var next := CombineLcm(result, steps[i]);
      if next.None? {
        return Overflows;
      }
      result := next.value;
    }
    return Value(result);
  }
}
