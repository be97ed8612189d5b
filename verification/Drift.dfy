/** Distribution-shift detection: five integer signals of a live window against the calibration window. */
module Drift {
  import opened Prelude
  import opened Sorting

  const SCORE_PPM := 1_000_000
  const BP := 10_000
  const NOMINAL_TAIL_BP := 1_000

  datatype Severity = Undersized | Healthy | Warning | Severe

  datatype Observation = Observation(narrationScorePpm: int, amountBucket: int, dateLagDays: int,
                                     feeRateBp: int, referencePpm: int)

  datatype SignalName = NarrationParseRate | Nonconformity | AmountBuckets | DateLag | FeeRate

  datatype Signal = Signal(name: SignalName, baseline: int, live: int, delta: int, severity: Severity)

  datatype DriftReport = DriftReport(severity: Severity, n: int, windowHash: string, baselineHash: string,
                                     signals: seq<Signal>, usable: bool)

  // ------------------------------------------------------------ statistics

  /** The lower median. */
  function Median(values: seq<int>): int {
    SortPermutes(values, IntLe);
    if values == [] then 0 else SortInts(values)[(|values| - 1) / 2]
  }

  function MeanPpm(values: seq<int>): int {
    if values == [] then 0 else Sum(values, Identity) / |values|
  }

  function Identity(x: int): int { x }

  function Percentile(values: seq<int>, pct: nat): int
    requires pct <= 100
  {
    SortPermutes(values, IntLe);
    if values == [] then 0
    else
      PercentIndex(|values|, pct);
      SortInts(values)[(|values| - 1) * pct / 100]
  }

  lemma PercentIndex(n: nat, pct: nat)
    requires n > 0 && pct <= 100
    ensures 0 <= (n - 1) * pct / 100 < n
  {
    MulLe(n - 1, pct, 100);
    HundredthLe((n - 1) * pct, n - 1);
  }

  lemma MulLe(n: nat, a: nat, b: nat)
    requires a <= b
    ensures 0 <= n * a <= n * b
  {
  }

  lemma HundredthLe(x: nat, m: nat)
    requires x <= m * 100
    ensures x / 100 <= m
  {
  }

  function Count(values: seq<int>, x: int): nat {
    if values == [] then 0 else (if values[0] == x then 1 else 0) + Count(values[1..], x)
  }

  /** A bucket's share of the list in basis points, rounded down. */
  function Share(buckets: seq<int>, b: int): int
    requires buckets != []
  {
    Count(buckets, b) * BP / |buckets|
  }

  lemma {:induction false} CountConcat(a: seq<int>, b: seq<int>, x: int)
    ensures Count(a + b, x) == Count(a, x) + Count(b, x)
  {
    if a == [] {
      assert a + b == b;
    } else {
      assert (a + b)[1..] == a[1..] + b;
      CountConcat(a[1..], b, x);
    }
  }

  lemma {:induction false} CountIsMultiplicity(values: seq<int>, x: int)
    ensures Count(values, x) == multiset(values)[x]
    ensures x !in values ==> Count(values, x) == 0
  {
    if values != [] {
      CountIsMultiplicity(values[1..], x);
      assert values == [values[0]] + values[1..];
    }
  }

  /** The counting loop; absent buckets count as nothing. */
  method HistogramBp(buckets: seq<int>) returns (h: map<int, int>)
    requires buckets != []
    ensures h.Keys == Elems(buckets)
    ensures forall b :: b in h ==> h[b] == Share(buckets, b)
  {
    var counts: map<int, int> := map[];
    for i := 0 to |buckets|
      invariant counts.Keys == Elems(buckets[..i])
      invariant forall b :: b in counts ==> counts[b] == Count(buckets[..i], b)
    {
      var b := buckets[i];
      assert buckets[..i + 1] == buckets[..i] + [b];
      forall x
        ensures Count(buckets[..i + 1], x) == Count(buckets[..i], x) + (if x == b then 1 else 0)
      {
        CountConcat(buckets[..i], [b], x);
        assert [b][1..] == [];
      }
      CountIsMultiplicity(buckets[..i], b);
      counts := counts[b := (if b in counts then counts[b] else 0) + 1];
    }
    assert buckets[..|buckets|] == buckets;
    h := map b | b in counts :: counts[b] * BP / |buckets|;
  }

  /** `abs(left.get(bucket, 0) - right.get(bucket, 0))` */
  function Gap(baseline: seq<int>, live: seq<int>): int -> int
    requires baseline != [] && live != []
  {
    b => Abs(Share(baseline, b) - Share(live, b))
  }

  function TotalVariationBp(baseline: seq<int>, live: seq<int>): int
    requires baseline != [] && live != []
  {
    Sum(Distinct(baseline + live), Gap(baseline, live)) / 2
  }

  lemma AbsentShare(buckets: seq<int>, b: int)
    requires buckets != [] && b !in buckets
    ensures Share(buckets, b) == 0
  {
    CountIsMultiplicity(buckets, b);
  }

  /** Both histograms, compared bucket by bucket over the union of their keys. */
  method TotalVariation(baseline: seq<int>, live: seq<int>) returns (distance: int)
    requires baseline != [] && live != []
    ensures distance == TotalVariationBp(baseline, live)
  {
    var left := HistogramBp(baseline);
    var right := HistogramBp(live);
    var keys := Distinct(baseline + live);
    var total := 0;
    for i := 0 to |keys|
      invariant total == Sum(keys[..i], Gap(baseline, live))
    {
      var b := keys[i];
      if b !in left {
        AbsentShare(baseline, b);
      }
      if b !in right {
        AbsentShare(live, b);
      }
      var l, r := if b in left then left[b] else 0, if b in right then right[b] else 0;
      assert keys[..i + 1] == keys[..i] + [b];
      SumSnoc(keys[..i], b, Gap(baseline, live));
      total := total + Abs(l - r);
    }
    assert keys[..|keys|] == keys;
    return total / 2;
  }

  // ------------------------------------------------------------ total variation

  lemma {:induction false} NoDupMultiset(s: seq<int>, x: int)
    requires NoDup(s)
    ensures multiset(s)[x] == if x in s then 1 else 0
  {
    if s != [] {
      assert s == [s[0]] + s[1..];
      assert NoDup(s[1..]) by {
        forall i, j | 0 <= i < j < |s[1..]|
          ensures s[1..][i] != s[1..][j]
        {
          assert s[i + 1] != s[j + 1];
        }
      }
      NoDupMultiset(s[1..], x);
      assert s[0] !in s[1..];
    }
  }

  lemma SameMembersSameMultiset(a: seq<int>, b: seq<int>)
    requires NoDup(a) && NoDup(b) && forall x :: x in a <==> x in b
    ensures multiset(a) == multiset(b)
  {
    forall x
      ensures multiset(a)[x] == multiset(b)[x]
    {
      NoDupMultiset(a, x);
      NoDupMultiset(b, x);
    }
  }

  lemma {:induction false} SumAgree(s: seq<int>, f: int -> int, g: int -> int)
    requires forall x :: x in s ==> f(x) == g(x)
    ensures Sum(s, f) == Sum(s, g)
  {
    if s != [] {
      SumAgree(s[1..], f, g);
      var x := s[0];
      assert x in s && f(x) == g(x);
    }
  }

  lemma TotalVariationSymmetric(baseline: seq<int>, live: seq<int>)
    requires baseline != [] && live != []
    ensures TotalVariationBp(baseline, live) == TotalVariationBp(live, baseline)
  {
    var a, b := Distinct(baseline + live), Distinct(live + baseline);
    UnionCommutes(baseline, live);
    SameMembersSameMultiset(a, b);
    hide Distinct, Gap;
    SumPermutation(a, b, Gap(baseline, live));
    GapSymmetric(baseline, live);
    SumAgree(b, Gap(baseline, live), Gap(live, baseline));
  }

  lemma UnionCommutes(a: seq<int>, b: seq<int>)
    ensures forall x :: x in a + b <==> x in b + a
  {
  }

  lemma GapSymmetric(baseline: seq<int>, live: seq<int>)
    requires baseline != [] && live != []
    ensures forall x :: Gap(baseline, live)(x) == Gap(live, baseline)(x)
  {
    hide Share;
  }

  function CountIn(values: seq<int>): int -> int {
    b => Count(values, b)
  }

  function ShareOf(values: seq<int>): int -> int
    requires values != []
  {
    b => Share(values, b)
  }

  lemma {:induction false} SumOfOneHit(keys: seq<int>, head: int, rest: seq<int>)
    requires NoDup(keys)
    ensures Sum(keys, CountIn([head] + rest)) == Sum(keys, CountIn(rest)) + (if head in keys then 1 else 0)
  {
    if keys != [] {
      var tail := keys[1..];
      assert keys == [keys[0]] + tail;
      assert NoDup(tail) && keys[0] !in tail by {
        forall i, j | 0 <= i < j < |tail|
          ensures tail[i] != tail[j]
        {
          assert keys[i + 1] != keys[j + 1];
        }
      }
      SumOfOneHit(tail, head, rest);
      assert ([head] + rest)[1..] == rest;
    }
  }

  /** Different buckets never count an element twice. */
  lemma {:induction false} CountsWithinLength(keys: seq<int>, values: seq<int>)
    requires NoDup(keys)
    ensures Sum(keys, CountIn(values)) <= |values|
  {
    if values == [] {
      ZeroSum(keys, CountIn(values));
    } else {
      CountsWithinLength(keys, values[1..]);
      SumOfOneHit(keys, values[0], values[1..]);
      assert values == [values[0]] + values[1..];
    }
  }

  lemma FloorTimes(c: nat, n: nat)
    requires n > 0
    ensures 0 <= n * (c * BP / n) <= c * BP
  {
    var q := c * BP / n;
    assert c * BP == n * q + c * BP % n;
  }

  lemma {:induction false} SharesWithinCounts(keys: seq<int>, values: seq<int>)
    requires values != []
    ensures |values| * Sum(keys, ShareOf(values)) <= BP * Sum(keys, CountIn(values))
  {
    if keys != [] {
      SharesWithinCounts(keys[1..], values);
      var n := |values|;
      var x, rest := Share(values, keys[0]), Sum(keys[1..], ShareOf(values));
      var c, counts := Count(values, keys[0]), Sum(keys[1..], CountIn(values));
      FloorTimes(c, n);
      assert n * (x + rest) == n * x + n * rest;
      assert BP * (c + counts) == c * BP + BP * counts;
    }
  }

  /** A histogram's shares add up to at most the whole. */
  lemma SharesWithinWhole(keys: seq<int>, values: seq<int>)
    requires NoDup(keys) && values != []
    ensures Sum(keys, ShareOf(values)) <= BP
  {
    SharesWithinCounts(keys, values);
    CountsWithinLength(keys, values);
    var s, n := Sum(keys, ShareOf(values)), |values|;
    assert n * s <= BP * n;
    if s > BP {
      MulGrows(n, BP, s);
    }
  }

  lemma MulGrows(n: nat, a: int, b: int)
    requires n > 0 && a < b
    ensures n * a < n * b
  {
  }

  lemma {:induction false} GapWithinShares(keys: seq<int>, baseline: seq<int>, live: seq<int>)
    requires baseline != [] && live != []
    ensures 0 <= Sum(keys, Gap(baseline, live)) <= Sum(keys, ShareOf(baseline)) + Sum(keys, ShareOf(live))
  {
    if keys != [] {
      GapWithinShares(keys[1..], baseline, live);
      ShareNonNegative(baseline, keys[0]);
      ShareNonNegative(live, keys[0]);
    }
  }

  lemma ShareNonNegative(values: seq<int>, b: int)
    requires values != []
    ensures Share(values, b) >= 0
  {
  }

  lemma TotalVariationBounded(baseline: seq<int>, live: seq<int>)
    requires baseline != [] && live != []
    ensures 0 <= TotalVariationBp(baseline, live) <= BP
  {
    var keys := Distinct(baseline + live);
    GapWithinShares(keys, baseline, live);
    SharesWithinWhole(keys, baseline);
    SharesWithinWhole(keys, live);
  }

  ghost predicate AllIn(values: seq<int>, b: int) { forall i :: 0 <= i < |values| ==> values[i] == b }

  lemma {:induction false} ConstantCount(values: seq<int>, b: int)
    requires AllIn(values, b)
    ensures Count(values, b) == |values|
  {
    if values != [] {
      assert forall i :: 0 <= i < |values[1..]| ==> values[1..][i] == values[i + 1];
      ConstantCount(values[1..], b);
    }
  }

  lemma MulDivSame(n: nat, x: int)
    requires n > 0
    ensures n * x / n == x
  {
    var q := n * x / n;
    assert n * q <= n * x < n * (q + 1);
    if q < x {
      MulGrows(n, q + 1, x + 1);
    } else if q > x {
      MulGrows(n, x, q);
    }
  }

  lemma ConstantShare(values: seq<int>, b: int)
    requires values != [] && AllIn(values, b)
    ensures Share(values, b) == BP
  {
    ConstantCount(values, b);
    MulDivSame(|values|, BP);
  }

  /** The bound is reached: two windows that each sit in one bucket of their own are as far apart as possible. */
  lemma OppositeWindows(baseline: seq<int>, live: seq<int>, a: int, b: int)
    requires baseline != [] && live != [] && a != b
    requires AllIn(baseline, a) && AllIn(live, b)
    ensures TotalVariationBp(baseline, live) == BP
  {
    var keys := Distinct(baseline + live);
    var both := baseline + live;
    assert both[0] == a && both[|baseline|] == b;
    forall x
      ensures x in keys <==> x in [a, b]
    {
      if x in both {
        var i :| 0 <= i < |both| && both[i] == x;
      }
    }
    SameMembersSameMultiset(keys, [a, b]);
    SumPermutation(keys, [a, b], Gap(baseline, live));
    ConstantShare(baseline, a);
    ConstantShare(live, b);
    AbsentShare(baseline, b);
    AbsentShare(live, a);
    SumFew(a, b, b, Gap(baseline, live));
  }

  // ------------------------------------------------------------ the monitor

  function SeverityOf(name: SignalName, delta: int): Severity {
    var (warning, severe) := match name
      case NarrationParseRate => (100_000, 250_000)
      case Nonconformity => (2_000, 4_000)
      case AmountBuckets => (2_000, 4_000)
      case DateLag => (2, 5)
      case FeeRate => (100, 300);
    if delta >= severe then Severe else if delta >= warning then Warning else Healthy
  }

  function MakeSignal(name: SignalName, baseline: int, live: int, delta: int): Signal {
    Signal(name, baseline, live, delta, SeverityOf(name, delta))
  }

  function Worse(a: Severity, b: Severity): Severity {
    if a == Severe || b == Severe then Severe
    else if a == Warning || b == Warning then Warning
    else Healthy
  }

  function WorstOf(signals: seq<Signal>): Severity {
    if signals == [] then Healthy else Worse(signals[0].severity, WorstOf(signals[1..]))
  }

  function ScoresOf(w: seq<Observation>): seq<int> { Map(w, (o: Observation) => o.narrationScorePpm) }
  function BucketsOf(w: seq<Observation>): seq<int> { Map(w, (o: Observation) => o.amountBucket) }
  function LagsOf(w: seq<Observation>): seq<int> { Map(w, (o: Observation) => o.dateLagDays) }
  function FeesOf(w: seq<Observation>): seq<int> { Map(w, (o: Observation) => o.feeRateBp) }
  function ReferencesOf(w: seq<Observation>): seq<int> { Map(w, (o: Observation) => o.referencePpm) }

  function CountBelow(values: seq<int>, bound: int): nat {
    if values == [] then 0 else (if values[0] < bound then 1 else 0) + CountBelow(values[1..], bound)
  }

  /** The five signals, in the order the report lists them. */
  function Signals(baseline: seq<Observation>, window: seq<Observation>): seq<Signal>
    requires baseline != [] && window != []
  {
    var baseParse, liveParse := MeanPpm(ReferencesOf(baseline)), MeanPpm(ReferencesOf(window));
    var p10 := Percentile(ScoresOf(baseline), 10);
    var liveTail := CountBelow(ScoresOf(window), p10) * BP / |window|;
    var baseBuckets, liveBuckets := BucketsOf(baseline), BucketsOf(window);
    var baseLag, liveLag := Median(LagsOf(baseline)), Median(LagsOf(window));
    var baseFee, liveFee := Median(FeesOf(baseline)), Median(FeesOf(window));
    [ MakeSignal(NarrationParseRate, baseParse, liveParse, Max(0, baseParse - liveParse)),
      MakeSignal(Nonconformity, NOMINAL_TAIL_BP, liveTail, Max(0, liveTail - NOMINAL_TAIL_BP)),
      MakeSignal(AmountBuckets, Median(baseBuckets), Median(liveBuckets), TotalVariationBp(baseBuckets, liveBuckets)),
      MakeSignal(DateLag, baseLag, liveLag, Abs(liveLag - baseLag)),
      MakeSignal(FeeRate, baseFee, liveFee, Abs(liveFee - baseFee)) ]
  }

  /** A calibration window that was large enough to characterise; the hash sees the rows in sorted order. */
  datatype DriftMonitor = DriftMonitor(baseline: seq<Observation>, minWindow: int, hash: seq<Observation> -> string) {

    ghost predicate Valid() {
      minWindow >= 1 && |baseline| >= minWindow
    }

    function Observe(window: seq<Observation>): DriftReport
      requires Valid()
    {
      if |window| < minWindow then
        DriftReport(Undersized, |window|, HashOf(window), HashOf(baseline), [], false)
      else
        var signals := Signals(baseline, window);
        DriftReport(WorstOf(signals), |window|, HashOf(window), HashOf(baseline), signals, true)
    }

    function HashOf(window: seq<Observation>): string {
      hash(Sort(window, ObservationLe))
    }
  }

  lemma {:induction false} WorstMeans(signals: seq<Signal>)
    requires forall s :: s in signals ==> s.severity != Undersized
    ensures WorstOf(signals) == Severe <==> exists s :: s in signals && s.severity == Severe
    ensures WorstOf(signals) == Healthy <==> forall s :: s in signals ==> s.severity == Healthy
    ensures WorstOf(signals) != Undersized
  {
    if signals != [] {
      assert signals == [signals[0]] + signals[1..];
      WorstMeans(signals[1..]);
    }
  }

  /** A scored window is as bad as its worst signal; a window below the minimum is refused, not scored. */
  lemma SeverityIsWorst(m: DriftMonitor, window: seq<Observation>)
    requires m.Valid()
    ensures var r := m.Observe(window);
            && (r.usable <==> |window| >= m.minWindow)
            && (r.severity == Undersized <==> !r.usable)
            && (r.usable ==> (r.severity == Severe <==> exists s :: s in r.signals && s.severity == Severe))
            && (r.usable ==> (r.severity == Healthy <==> forall s :: s in r.signals ==> s.severity == Healthy))
  {
    hide TotalVariationBp, Median, Percentile, MeanPpm, CountBelow;
    if |window| >= m.minWindow {
      WorstMeans(Signals(m.baseline, window));
    }
  }

  // ------------------------------------------------------------ order independence

  function KeyOf(o: Observation): seq<int> {
    [o.narrationScorePpm, o.amountBucket, o.dateLagDays, o.feeRateBp, o.referencePpm]
  }

  predicate KeyLe(a: seq<int>, b: seq<int>) {
    if a == [] then true
    else if b == [] then false
    else a[0] < b[0] || (a[0] == b[0] && KeyLe(a[1..], b[1..]))
  }

  /** Tuple order of the rows' keys. */
  predicate ObservationLe(a: Observation, b: Observation) {
    KeyLe(KeyOf(a), KeyOf(b))
  }

  lemma {:induction false} KeyLeTotal(a: seq<int>, b: seq<int>)
    ensures KeyLe(a, b) || KeyLe(b, a)
    ensures KeyLe(a, b) && KeyLe(b, a) ==> a == b
  {
    if a != [] && b != [] && a[0] == b[0] {
      KeyLeTotal(a[1..], b[1..]);
      assert a == [a[0]] + a[1..] && b == [b[0]] + b[1..];
    }
  }

  lemma {:induction false} KeyLeTrans(a: seq<int>, b: seq<int>, c: seq<int>)
    requires KeyLe(a, b) && KeyLe(b, c)
    ensures KeyLe(a, c)
  {
    if a != [] && b != [] && c != [] && a[0] == b[0] == c[0] {
      KeyLeTrans(a[1..], b[1..], c[1..]);
    }
  }

  lemma KeyInjective(a: Observation, b: Observation)
    requires KeyOf(a) == KeyOf(b)
    ensures a == b
  {
    assert forall i :: 0 <= i < 5 ==> KeyOf(a)[i] == KeyOf(b)[i];
    assert KeyOf(a)[0] == KeyOf(b)[0] && KeyOf(a)[1] == KeyOf(b)[1] && KeyOf(a)[2] == KeyOf(b)[2];
    assert KeyOf(a)[3] == KeyOf(b)[3] && KeyOf(a)[4] == KeyOf(b)[4];
  }

  lemma ObservationOrder()
    ensures TotalOrder(ObservationLe)
  {
    forall a, b
      ensures ObservationLe(a, b) || ObservationLe(b, a)
      ensures ObservationLe(a, b) && ObservationLe(b, a) ==> a == b
    {
      KeyLeTotal(KeyOf(a), KeyOf(b));
      if KeyOf(a) == KeyOf(b) {
        KeyInjective(a, b);
      }
    }
    forall a, b, c | ObservationLe(a, b) && ObservationLe(b, c)
      ensures ObservationLe(a, c)
    {
      KeyLeTrans(KeyOf(a), KeyOf(b), KeyOf(c));
    }
  }

  lemma {:induction false} MapPermutes(a: seq<Observation>, b: seq<Observation>, f: Observation -> int)
    requires multiset(a) == multiset(b)
    ensures multiset(Map(a, f)) == multiset(Map(b, f))
  {
    if a == [] {
      assert |multiset(b)| == 0;
      assert Map(a, f) == [] && Map(b, f) == [];
    } else {
      assert a[0] in multiset(b);
      var i :| 0 <= i < |b| && b[i] == a[0];
      MultisetRemoveAt(a, 0);
      MultisetRemoveAt(b, i);
      MapWithout(a, 0, f);
      MapWithout(b, i, f);
      hide Map;
      MapPermutes(RemoveAt(a, 0), RemoveAt(b, i), f);
    }
  }

  /** Mapping a list adds one image to mapping the list without that element. */
  lemma MapWithout(s: seq<Observation>, i: nat, f: Observation -> int)
    requires i < |s|
    ensures multiset(Map(s, f)) == multiset(Map(RemoveAt(s, i), f)) + multiset{f(s[i])}
  {
    var m := Map(s, f);
    assert Map(RemoveAt(s, i), f) == RemoveAt(m, i);
    MultisetRemoveAt(m, i);
    assert m[i] in multiset(m);
    PutBack(multiset(m), multiset(RemoveAt(m, i)) + multiset{m[i]}, m[i]);
  }

  lemma PutBack(a: multiset<int>, b: multiset<int>, x: int)
    requires x in a && x in b && a - multiset{x} == b - multiset{x}
    ensures a == b
  {
    assert a == a - multiset{x} + multiset{x};
    assert b == b - multiset{x} + multiset{x};
  }

  lemma PermutedStatistics(a: seq<int>, b: seq<int>)
    requires multiset(a) == multiset(b)
    ensures |a| == |b| && Median(a) == Median(b) && MeanPpm(a) == MeanPpm(b)
    ensures Percentile(a, 10) == Percentile(b, 10)
    ensures forall x :: Count(a, x) == Count(b, x)
    ensures forall bound :: CountBelow(a, bound) == CountBelow(b, bound)
  {
    assert |multiset(a)| == |multiset(b)|;
    IntOrder();
    SortForgetsOrder(a, b, IntLe);
    SumPermutation(a, b, Identity);
    forall x
      ensures Count(a, x) == Count(b, x)
    {
      CountIsMultiplicity(a, x);
      CountIsMultiplicity(b, x);
    }
    forall bound
      ensures CountBelow(a, bound) == CountBelow(b, bound)
    {
      CountBelowIsSum(a, bound);
      CountBelowIsSum(b, bound);
      SumPermutation(a, b, Below(bound));
    }
  }

  function Below(bound: int): int -> int {
    x => if x < bound then 1 else 0
  }

  lemma {:induction false} CountBelowIsSum(values: seq<int>, bound: int)
    ensures CountBelow(values, bound) == Sum(values, Below(bound))
  {
    if values != [] {
      CountBelowIsSum(values[1..], bound);
    }
  }

  lemma TotalVariationPermuted(base: seq<int>, a: seq<int>, b: seq<int>)
    requires base != [] && a != [] && multiset(a) == multiset(b)
    ensures b != [] && TotalVariationBp(base, a) == TotalVariationBp(base, b)
  {
    assert |multiset(a)| == |multiset(b)|;
    var ka, kb := Distinct(base + a), Distinct(base + b);
    assert forall x :: x in a <==> x in multiset(a);
    assert forall x :: x in b <==> x in multiset(b);
    SameMembersSameMultiset(ka, kb);
    SumPermutation(ka, kb, Gap(base, a));
    forall x
      ensures Gap(base, a)(x) == Gap(base, b)(x)
    {
      CountIsMultiplicity(a, x);
      CountIsMultiplicity(b, x);
    }
    SumAgree(kb, Gap(base, a), Gap(base, b));
  }

  lemma SignalsPermuted(baseline: seq<Observation>, a: seq<Observation>, b: seq<Observation>)
    requires baseline != [] && a != [] && multiset(a) == multiset(b)
    ensures b != [] && Signals(baseline, a) == Signals(baseline, b)
  {
    hide TotalVariationBp, Median, Percentile, MeanPpm;
    assert |multiset(a)| == |multiset(b)|;
    MapPermutes(a, b, (o: Observation) => o.narrationScorePpm);
    MapPermutes(a, b, (o: Observation) => o.amountBucket);
    MapPermutes(a, b, (o: Observation) => o.dateLagDays);
    MapPermutes(a, b, (o: Observation) => o.feeRateBp);
    MapPermutes(a, b, (o: Observation) => o.referencePpm);
    PermutedStatistics(ScoresOf(a), ScoresOf(b));
    PermutedStatistics(BucketsOf(a), BucketsOf(b));
    PermutedStatistics(LagsOf(a), LagsOf(b));
    PermutedStatistics(FeesOf(a), FeesOf(b));
    PermutedStatistics(ReferencesOf(a), ReferencesOf(b));
    TotalVariationPermuted(BucketsOf(baseline), BucketsOf(a), BucketsOf(b));
  }

  /** The report, hash included, does not depend on the order of the window. */
  lemma ObserveForgetsOrder(m: DriftMonitor, a: seq<Observation>, b: seq<Observation>)
    requires m.Valid() && multiset(a) == multiset(b)
    ensures m.Observe(a) == m.Observe(b)
  {
    hide Signals;
    assert |multiset(a)| == |multiset(b)|;
    ObservationOrder();
    SortForgetsOrder(a, b, ObservationLe);
    if |a| >= m.minWindow {
      SignalsPermuted(m.baseline, a, b);
    }
  }

  // ------------------------------------------------------------ the calibration window is healthy

  lemma {:induction false} NoneBelow(values: seq<int>, bound: int)
    requires forall i :: 0 <= i < |values| ==> values[i] >= bound
    ensures CountBelow(values, bound) == 0
  {
    if values != [] {
      NoneBelow(values[1..], bound);
    }
  }

  lemma {:induction false} CountBelowConcat(a: seq<int>, b: seq<int>, bound: int)
    ensures CountBelow(a + b, bound) == CountBelow(a, bound) + CountBelow(b, bound)
    ensures CountBelow(a, bound) <= |a|
  {
    if a == [] {
      assert a + b == b;
    } else {
      assert (a + b)[1..] == a[1..] + b;
      CountBelowConcat(a[1..], b, bound);
    }
  }

  /** At most floor((n - 1) / 10) scores lie strictly below the tenth percentile. */
  lemma TailBelowPercentile(values: seq<int>)
    requires values != []
    ensures CountBelow(values, Percentile(values, 10)) <= (|values| - 1) / 10
  {
    var s := SortInts(values);
    IntOrder();
    SortPermutes(values, IntLe);
    SortSorts(values, IntLe);
    PermutedStatistics(values, s);
    var idx := (|values| - 1) * 10 / 100;
    var low, high := s[..idx], s[idx..];
    forall i | 0 <= i < |high|
      ensures high[i] >= s[idx]
    {
      if i > 0 {
        assert IntLe(s[idx], s[idx + i]);
      }
    }
    NoneBelow(high, s[idx]);
    CountBelowConcat(low, high, s[idx]);
    assert s == low + high;
  }

  lemma TailShare(count: nat, n: nat)
    requires n > 0 && count <= (n - 1) / 10
    ensures count * BP / n <= NOMINAL_TAIL_BP
  {
    assert count * 10 <= n - 1;
    var q := count * BP / n;
    assert q * n <= count * BP <= NOMINAL_TAIL_BP * (n - 1);
    if q > NOMINAL_TAIL_BP {
      MulGrows(n, NOMINAL_TAIL_BP, q);
    }
  }

  lemma NoDistanceToSelf(values: seq<int>)
    requires values != []
    ensures TotalVariationBp(values, values) == 0
  {
    forall b
      ensures Gap(values, values)(b) == 0
    {
      var share := Share(values, b);
      assert Gap(values, values)(b) == Abs(share - share);
    }
    ZeroSum(Distinct(values + values), Gap(values, values));
  }

  lemma SelfIsHealthy(baseline: seq<Observation>)
    requires baseline != []
    ensures forall i :: 0 <= i < 5 ==> Signals(baseline, baseline)[i].severity == Healthy
  {
    TailBelowPercentile(ScoresOf(baseline));
    TailShare(CountBelow(ScoresOf(baseline), Percentile(ScoresOf(baseline), 10)), |baseline|);
    NoDistanceToSelf(BucketsOf(baseline));
  }

  /** Any reordering of the calibration window is scored healthy. */
  lemma BaselineIsHealthy(m: DriftMonitor, window: seq<Observation>)
    requires m.Valid() && multiset(window) == multiset(m.baseline)
    ensures m.Observe(window).usable && m.Observe(window).severity == Healthy
  {
    hide Signals;
    ObserveForgetsOrder(m, window, m.baseline);
    SelfIsHealthy(m.baseline);
    var s := Signals(m.baseline, m.baseline);
    SignalCount(m.baseline, m.baseline);
    assert WorstOf(s[5..]) == Healthy;
    assert s[4..][1..] == s[5..] && s[3..][1..] == s[4..] && s[2..][1..] == s[3..] && s[1..][1..] == s[2..];
    assert WorstOf(s[4..]) == Healthy;
    assert WorstOf(s[3..]) == Healthy;
    assert WorstOf(s[2..]) == Healthy;
    assert WorstOf(s[1..]) == Healthy;
  }

  lemma SignalCount(baseline: seq<Observation>, window: seq<Observation>)
    requires baseline != [] && window != []
    ensures |Signals(baseline, window)| == 5
  {
  }

  // ------------------------------------------------------------ amount buckets

  function Pow10(n: nat): nat {
    if n == 0 then 1 else 10 * Pow10(n - 1)
  }

  /** The order of magnitude: the number of times the amount can be cut by ten and stay at least ten. */
  method AmountBucket(amountPaise: int) returns (bucket: nat)
    ensures amountPaise < 10 ==> bucket == 0
    ensures amountPaise >= 1 ==> Pow10(bucket) <= amountPaise < Pow10(bucket + 1)
  {
    var amount := amountPaise;
    bucket := 0;
    while amount >= 10
      invariant amountPaise < 10 ==> bucket == 0 && amount == amountPaise
      invariant amountPaise >= 1 ==> amount >= 1
      invariant amountPaise >= 1 ==> amount * Pow10(bucket) <= amountPaise < (amount + 1) * Pow10(bucket)
      decreases amount
    {
      ghost var next, p := amount / 10, Pow10(bucket);
      assert 10 * next <= amount < 10 * next + 10;
      TenTimes(next, amount, p);
      amount := amount / 10;
      bucket := bucket + 1;
    }
    if amountPaise >= 1 {
      TopDigit(amount, Pow10(bucket));
    }
  }

  lemma TenTimes(next: int, amount: int, p: nat)
    requires 10 * next <= amount < 10 * next + 10
    ensures next * (10 * p) <= amount * p
    ensures (amount + 1) * p <= (next + 1) * (10 * p)
  {
    TenMoves(next, p);
    TenMoves(next + 1, p);
    MulLeInt(10 * next, amount, p);
    MulLeInt(amount + 1, 10 * next + 10, p);
  }

  lemma TenMoves(x: int, p: nat)
    ensures x * (10 * p) == (10 * x) * p
  {
  }

  lemma TopDigit(amount: int, p: nat)
    requires 1 <= amount < 10
    ensures p <= amount * p && (amount + 1) * p <= 10 * p
  {
  }
}
