/** What each drift signal detects, by the rows of the two windows. */
module DriftDetection {
  import opened Prelude
  import opened Sorting
  import opened Drift

  // ------------------------------------------------------------ statistics by rank and by quotient

  function LessThan(bound: int): int -> bool { x => x < bound }
  function MoreThan(bound: int): int -> bool { x => x > bound }

  function CountLess(values: seq<int>, bound: int): nat { |Filter(values, LessThan(bound))| }
  function CountMore(values: seq<int>, bound: int): nat { |Filter(values, MoreThan(bound))| }

  /** A value with at most `low` smaller ones and at most `high` larger ones. */
  ghost predicate HasRank(values: seq<int>, x: int, low: int, high: int) {
    x in values && CountLess(values, x) <= low && CountMore(values, x) <= high
  }

  /** The lower median. */
  ghost predicate IsMedian(values: seq<int>, x: int) { HasRank(values, x, (|values| - 1) / 2, |values| / 2) }

  /** The value that a tenth of the others may lie below. */
  ghost predicate IsTenthPercentile(values: seq<int>, x: int) {
    HasRank(values, x, (|values| - 1) / 10, |values| - 1 - (|values| - 1) / 10)
  }

  /** The mean, rounded down. */
  ghost predicate IsMean(values: seq<int>, x: int) { x * |values| <= Sum(values, Identity) < (x + 1) * |values| }

  /** A bucket's share of the rows in basis points, rounded down. */
  ghost predicate IsShare(values: seq<int>, b: int, share: int) {
    share * |values| <= multiset(values)[b] * 10_000 < (share + 1) * |values|
  }

  lemma {:induction false} FilterSplit(a: seq<int>, b: seq<int>, bound: int)
    ensures CountLess(a + b, bound) == CountLess(a, bound) + CountLess(b, bound)
    ensures CountMore(a + b, bound) == CountMore(a, bound) + CountMore(b, bound)
  {
    FilterConcat(a, b, LessThan(bound));
    FilterConcat(a, b, MoreThan(bound));
  }

  lemma {:induction false} FilterShort(values: seq<int>, p: int -> bool)
    ensures |Filter(values, p)| <= |values|
  {
    if values != [] {
      FilterShort(values[1..], p);
    }
  }

  lemma {:induction false} CountsAgree(values: seq<int>, bound: int)
    ensures CountLess(values, bound) == CountBelow(values, bound)
    ensures CountMore(values, bound) == |values| - CountBelow(values, bound + 1)
  {
    if values != [] {
      CountsAgree(values[1..], bound);
    }
  }

  /** Two values cannot both stand at one rank. */
  lemma RankIsUnique(values: seq<int>, x: int, y: int, low: int, high: int)
    requires HasRank(values, x, low, high) && HasRank(values, y, low, high) && low + high == |values| - 1
    ensures x == y
  {
    CountsAgree(values, x);
    CountsAgree(values, y);
    if x < y {
      CountBelowGrows(values, x + 1, y);
    } else if y < x {
      CountBelowGrows(values, y + 1, x);
    }
  }

  lemma {:induction false} CountBelowGrows(values: seq<int>, a: int, b: int)
    requires a <= b
    ensures CountBelow(values, a) <= CountBelow(values, b)
  {
    if values != [] {
      CountBelowGrows(values[1..], a, b);
    }
  }

  lemma SortedHasRank(s: seq<int>, i: nat)
    requires i < |s| && SortedBy(s, IntLe)
    ensures HasRank(s, s[i], i, |s| - 1 - i)
  {
    var x, low, high := s[i], s[..i], s[i + 1..];
    assert s == low + ([x] + high);
    assert [x][1..] == [];
    FilterSplit(low, [x] + high, x);
    FilterSplit([x], high, x);
    FilterShort(low, LessThan(x));
    FilterShort(high, MoreThan(x));
    forall y | y in low
      ensures y <= x
    {
      var k :| 0 <= k < |low| && low[k] == y;
      assert IntLe(s[k], s[i]);
    }
    forall y | y in high
      ensures y >= x
    {
      var k :| 0 <= k < |high| && high[k] == y;
      assert IntLe(s[i], s[i + 1 + k]);
    }
    FilterEmpty(high, LessThan(x));
    FilterEmpty(low, MoreThan(x));
  }

  /** The element of the sorted list at an index is the value of that rank. */
  lemma RankExactly(values: seq<int>, i: nat, x: int)
    requires i < |values|
    ensures |SortInts(values)| == |values|
    ensures HasRank(values, x, i, |values| - 1 - i) <==> x == SortInts(values)[i]
  {
    hide HasRank;
    var s := SortInts(values);
    IntOrder();
    SortSorts(values, IntLe);
    SortPermutes(values, IntLe);
    SortedHasRank(s, i);
    SameRank(values, s, s[i], i, |values| - 1 - i);
    if HasRank(values, x, i, |values| - 1 - i) {
      RankIsUnique(values, x, s[i], i, |values| - 1 - i);
    }
  }

  lemma SameRank(values: seq<int>, s: seq<int>, x: int, low: int, high: int)
    requires multiset(values) == multiset(s) && HasRank(s, x, low, high)
    ensures HasRank(values, x, low, high)
  {
    PermutedStatistics(values, s);
    CountsAgree(values, x);
    CountsAgree(s, x);
    assert x in multiset(s);
  }

  lemma MedianExactly(values: seq<int>, x: int)
    requires values != []
    ensures IsMedian(values, x) <==> x == Median(values)
  {
    hide HasRank, SortInts;
    RankExactly(values, (|values| - 1) / 2, x);
    assert |values| - 1 - (|values| - 1) / 2 == |values| / 2;
  }

  lemma PercentileExactly(values: seq<int>, x: int)
    requires values != []
    ensures IsTenthPercentile(values, x) <==> x == Percentile(values, 10)
  {
    hide HasRank, SortInts;
    RankExactly(values, (|values| - 1) / 10, x);
    assert (|values| - 1) * 10 / 100 == (|values| - 1) / 10;
  }

  lemma FloorExactly(x: int, a: int, n: int)
    requires n > 0
    ensures x * n <= a < (x + 1) * n <==> x == a / n
  {
    var q := a / n;
    assert a == n * q + a % n;
    if x < q {
      MulLeInt(x + 1, q, n);
    } else if x > q {
      MulLeInt(q + 1, x, n);
    }
  }

  lemma MeanExactly(values: seq<int>, x: int)
    requires values != []
    ensures IsMean(values, x) <==> x == MeanPpm(values)
  {
    FloorExactly(x, Sum(values, Identity), |values|);
  }

  lemma ShareExactly(values: seq<int>, b: int, share: int)
    requires values != []
    ensures IsShare(values, b, share) <==> share == Share(values, b)
  {
    CountIsMultiplicity(values, b);
    FloorExactly(share, Count(values, b) * BP, |values|);
  }

  // ------------------------------------------------------------ total variation over any list of buckets

  /** Half the summed differences of the shares, rounded down, over a list that holds every bucket of either window once. */
  ghost predicate IsDistance(baseline: seq<int>, live: seq<int>, distance: int) {
    exists keys: seq<int>, left: int -> int, right: int -> int ::
      && NoDup(keys) && (forall b :: b in baseline || b in live ==> b in keys)
      && (forall b :: IsShare(baseline, b, left(b)) && IsShare(live, b, right(b)))
      && 2 * distance <= Sum(keys, Between(left, right)) < 2 * distance + 2
  }

  function Between(left: int -> int, right: int -> int): int -> int { b => if left(b) < right(b) then right(b) - left(b) else left(b) - right(b) }

  lemma {:induction false} ZerosDropOut(keys: seq<int>, p: int -> bool, f: int -> int)
    requires forall b :: b in keys && !p(b) ==> f(b) == 0
    ensures Sum(keys, f) == Sum(Filter(keys, p), f)
  {
    if keys != [] {
      assert keys == [keys[0]] + keys[1..];
      ZerosDropOut(keys[1..], p, f);
      var rest := Filter(keys[1..], p);
      if p(keys[0]) {
        assert ([keys[0]] + rest)[1..] == rest;
      } else {
        var b := keys[0];
        assert b in keys && !p(b);
      }
    }
  }

  lemma GapOverKeys(baseline: seq<int>, live: seq<int>, keys: seq<int>)
    requires baseline != [] && live != [] && NoDup(keys) && forall b :: b in baseline || b in live ==> b in keys
    ensures Sum(keys, Gap(baseline, live)) == Sum(Distinct(baseline + live), Gap(baseline, live))
  {
    hide Gap, Sum;
    var present: int -> bool := b => b in baseline + live;
    forall b | b in keys && !present(b)
      ensures Gap(baseline, live)(b) == 0
    {
      NoGap(baseline, live, b);
    }
    ZerosDropOut(keys, present, Gap(baseline, live));
    FilterNoDup(keys, present);
    var kept, all := Filter(keys, present), Distinct(baseline + live);
    forall b
      ensures b in kept <==> b in all
    {
    }
    SameMembersSameMultiset(kept, all);
    SumPermutation(kept, all, Gap(baseline, live));
  }

  lemma NoGap(baseline: seq<int>, live: seq<int>, b: int)
    requires baseline != [] && live != [] && b !in baseline && b !in live
    ensures Gap(baseline, live)(b) == 0
  {
    AbsentShare(baseline, b);
    AbsentShare(live, b);
  }

  lemma DistanceExactly(baseline: seq<int>, live: seq<int>, distance: int)
    requires baseline != [] && live != []
    ensures IsDistance(baseline, live, distance) <==> distance == TotalVariationBp(baseline, live)
  {
    hide Sum, Gap, Distinct, IsShare;
    if IsDistance(baseline, live, distance) {
      var keys: seq<int>, left: int -> int, right: int -> int :| NoDup(keys) && (forall b :: b in baseline || b in live ==> b in keys)
                               && (forall b :: IsShare(baseline, b, left(b)) && IsShare(live, b, right(b)))
                               && 2 * distance <= Sum(keys, Between(left, right)) < 2 * distance + 2;
      SharesAreGaps(baseline, live, left, right);
      SumAgree(keys, Between(left, right), Gap(baseline, live));
      GapOverKeys(baseline, live, keys);
    }
    if distance == TotalVariationBp(baseline, live) {
      var keys, left, right := Distinct(baseline + live), ShareOf(baseline), ShareOf(live);
      forall b
        ensures IsShare(baseline, b, left(b)) && IsShare(live, b, right(b))
      {
        ShareExactly(baseline, b, left(b));
        ShareExactly(live, b, right(b));
      }
      EveryBucket(baseline, live);
      SharesAreGaps(baseline, live, left, right);
      SumAgree(keys, Between(left, right), Gap(baseline, live));
    }
  }

  lemma EveryBucket(baseline: seq<int>, live: seq<int>)
    ensures NoDup(Distinct(baseline + live)) && forall b :: b in baseline || b in live ==> b in Distinct(baseline + live)
  {
  }

  lemma SharesAreGaps(baseline: seq<int>, live: seq<int>, left: int -> int, right: int -> int)
    requires baseline != [] && live != []
    requires forall b :: IsShare(baseline, b, left(b)) && IsShare(live, b, right(b))
    ensures forall b :: Between(left, right)(b) == Gap(baseline, live)(b)
  {
    hide IsShare, Share;
    forall b
      ensures Between(left, right)(b) == Gap(baseline, live)(b)
    {
      assert IsShare(baseline, b, left(b)) && IsShare(live, b, right(b));
      ShareExactly(baseline, b, left(b));
      ShareExactly(live, b, right(b));
    }
  }

  // ------------------------------------------------------------ what is detected

  /** The share of rows whose reference could be read fell by at least this much. */
  ghost predicate ParseRateFell(baseline: seq<Observation>, window: seq<Observation>, least: int) {
    exists a, b :: IsMean(ReferencesOf(baseline), a) && IsMean(ReferencesOf(window), b) && a - b >= least
  }

  /** At least this share of the live scores lies below the baseline's tenth percentile. */
  ghost predicate TailGrew(baseline: seq<Observation>, window: seq<Observation>, bp: int) {
    exists p :: IsTenthPercentile(ScoresOf(baseline), p) && CountLess(ScoresOf(window), p) * 10_000 >= bp * |window|
  }

  ghost predicate AmountsMoved(baseline: seq<Observation>, window: seq<Observation>, bp: int) {
    exists d :: IsDistance(BucketsOf(baseline), BucketsOf(window), d) && d >= bp
  }

  /** The medians lie at least this far apart, either way. */
  ghost predicate MedianMoved(baseline: seq<int>, window: seq<int>, least: int) {
    exists a, b :: IsMedian(baseline, a) && IsMedian(window, b) && (a - b >= least || b - a >= least)
  }

  ghost predicate SevereShift(baseline: seq<Observation>, window: seq<Observation>) {
    || ParseRateFell(baseline, window, 250_000) || TailGrew(baseline, window, 5_000) || AmountsMoved(baseline, window, 4_000)
    || MedianMoved(LagsOf(baseline), LagsOf(window), 5) || MedianMoved(FeesOf(baseline), FeesOf(window), 300)
  }

  ghost predicate Shift(baseline: seq<Observation>, window: seq<Observation>) {
    || ParseRateFell(baseline, window, 100_000) || TailGrew(baseline, window, 3_000) || AmountsMoved(baseline, window, 2_000)
    || MedianMoved(LagsOf(baseline), LagsOf(window), 2) || MedianMoved(FeesOf(baseline), FeesOf(window), 100)
  }

  lemma ParseExactly(baseline: seq<Observation>, window: seq<Observation>, least: int)
    requires baseline != [] && window != []
    ensures ParseRateFell(baseline, window, least) <==> MeanPpm(ReferencesOf(baseline)) - MeanPpm(ReferencesOf(window)) >= least
  {
    hide IsMean, MeanPpm;
    forall x
      ensures IsMean(ReferencesOf(baseline), x) <==> x == MeanPpm(ReferencesOf(baseline))
      ensures IsMean(ReferencesOf(window), x) <==> x == MeanPpm(ReferencesOf(window))
    {
      MeanExactly(ReferencesOf(baseline), x);
      MeanExactly(ReferencesOf(window), x);
    }
    assert IsMean(ReferencesOf(baseline), MeanPpm(ReferencesOf(baseline)));
    assert IsMean(ReferencesOf(window), MeanPpm(ReferencesOf(window)));
  }

  lemma QuotientReaches(a: int, n: int, limit: int)
    requires n > 0
    ensures a / n >= limit <==> a >= limit * n
  {
    var q := a / n;
    FloorExactly(q, a, n);
    if q >= limit {
      MulLeInt(limit, q, n);
    } else {
      MulLeInt(q + 1, limit, n);
    }
  }

  lemma TailExactly(baseline: seq<Observation>, window: seq<Observation>, bp: int)
    requires baseline != [] && window != []
    ensures TailGrew(baseline, window, bp)
       <==> CountBelow(ScoresOf(window), Percentile(ScoresOf(baseline), 10)) * BP / |window| >= bp
  {
    hide IsTenthPercentile, Percentile, CountLess, CountBelow;
    var p := Percentile(ScoresOf(baseline), 10);
    forall x
      ensures IsTenthPercentile(ScoresOf(baseline), x) <==> x == p
    {
      PercentileExactly(ScoresOf(baseline), x);
    }
    CountsAgree(ScoresOf(window), p);
    QuotientReaches(CountBelow(ScoresOf(window), p) * BP, |window|, bp);
  }

  lemma AmountsExactly(baseline: seq<Observation>, window: seq<Observation>, bp: int)
    requires baseline != [] && window != []
    ensures AmountsMoved(baseline, window, bp) <==> TotalVariationBp(BucketsOf(baseline), BucketsOf(window)) >= bp
  {
    hide IsDistance, TotalVariationBp;
    forall d
      ensures IsDistance(BucketsOf(baseline), BucketsOf(window), d) <==> d == TotalVariationBp(BucketsOf(baseline), BucketsOf(window))
    {
      DistanceExactly(BucketsOf(baseline), BucketsOf(window), d);
    }
    assert IsDistance(BucketsOf(baseline), BucketsOf(window), TotalVariationBp(BucketsOf(baseline), BucketsOf(window)));
  }

  lemma MediansExactly(baseline: seq<int>, window: seq<int>, least: int)
    requires baseline != [] && window != []
    ensures MedianMoved(baseline, window, least) <==> Median(baseline) - Median(window) >= least || Median(window) - Median(baseline) >= least
  {
    hide IsMedian, Median;
    forall x
      ensures IsMedian(baseline, x) <==> x == Median(baseline)
      ensures IsMedian(window, x) <==> x == Median(window)
    {
      MedianExactly(baseline, x);
      MedianExactly(window, x);
    }
    assert IsMedian(baseline, Median(baseline)) && IsMedian(window, Median(window));
  }

  /** The grade of a signal whose delta reaches neither, one or both of two limits. */
  function Graded(delta: int, warning: int, severe: int): Severity {
    if delta >= severe then Severe else if delta >= warning then Warning else Healthy
  }

  lemma SignalsGraded(m: DriftMonitor, window: seq<Observation>)
    requires m.Valid() && |window| >= m.minWindow
    ensures var s, base := m.Observe(window).signals, m.baseline;
            && |s| == 5
            && s[0].name == NarrationParseRate
            && s[0].severity == Graded(Max(0, MeanPpm(ReferencesOf(base)) - MeanPpm(ReferencesOf(window))), 100_000, 250_000)
            && s[1].name == Nonconformity
            && s[1].severity == Graded(Max(0, CountBelow(ScoresOf(window), Percentile(ScoresOf(base), 10)) * BP / |window| - 1_000),
                                       2_000, 4_000)
            && s[2].name == AmountBuckets
            && s[2].severity == Graded(TotalVariationBp(BucketsOf(base), BucketsOf(window)), 2_000, 4_000)
            && s[3].name == DateLag && s[3].severity == Graded(Abs(Median(LagsOf(window)) - Median(LagsOf(base))), 2, 5)
            && s[4].name == FeeRate && s[4].severity == Graded(Abs(Median(FeesOf(window)) - Median(FeesOf(base))), 100, 300)
  {
    hide MeanPpm, Percentile, CountBelow, TotalVariationBp, Median;
  }

  /** The five signals in the order of the report, each severe or at least a warning by its own rows. */
  lemma SignalsDetect(m: DriftMonitor, window: seq<Observation>)
    requires m.Valid() && |window| >= m.minWindow
    ensures var s, base := m.Observe(window).signals, m.baseline;
            && |s| == 5
            && s[0].name == NarrationParseRate && (s[0].severity == Severe <==> ParseRateFell(base, window, 250_000))
            && (s[0].severity != Healthy <==> ParseRateFell(base, window, 100_000))
            && s[1].name == Nonconformity && (s[1].severity == Severe <==> TailGrew(base, window, 5_000))
            && (s[1].severity != Healthy <==> TailGrew(base, window, 3_000))
            && s[2].name == AmountBuckets && (s[2].severity == Severe <==> AmountsMoved(base, window, 4_000))
            && (s[2].severity != Healthy <==> AmountsMoved(base, window, 2_000))
            && s[3].name == DateLag && (s[3].severity == Severe <==> MedianMoved(LagsOf(base), LagsOf(window), 5))
            && (s[3].severity != Healthy <==> MedianMoved(LagsOf(base), LagsOf(window), 2))
            && s[4].name == FeeRate && (s[4].severity == Severe <==> MedianMoved(FeesOf(base), FeesOf(window), 300))
            && (s[4].severity != Healthy <==> MedianMoved(FeesOf(base), FeesOf(window), 100))
            && forall x :: x in s ==> x.severity != Undersized
  {
    hide ParseRateFell, TailGrew, AmountsMoved, MedianMoved, MeanPpm, Percentile, CountBelow, TotalVariationBp, Median, Signals;
    var base := m.baseline;
    SignalsGraded(m, window);
    FiveOnly(m.Observe(window).signals);
    ParseExactly(base, window, 250_000);
    ParseExactly(base, window, 100_000);
    TailExactly(base, window, 5_000);
    TailExactly(base, window, 3_000);
    AmountsExactly(base, window, 4_000);
    AmountsExactly(base, window, 2_000);
    MediansExactly(LagsOf(base), LagsOf(window), 5);
    MediansExactly(LagsOf(base), LagsOf(window), 2);
    MediansExactly(FeesOf(base), FeesOf(window), 300);
    MediansExactly(FeesOf(base), FeesOf(window), 100);
  }

  /** A window that is large enough is severe exactly on a severe shift of one statistic, and healthy exactly without any shift. */
  lemma DriftIsDetected(m: DriftMonitor, window: seq<Observation>)
    requires m.Valid()
    ensures var r := m.Observe(window);
            if |window| < m.minWindow then r.severity == Undersized && !r.usable
            else
              && r.usable && (r.severity == Severe <==> SevereShift(m.baseline, window))
              && (r.severity == Healthy <==> !Shift(m.baseline, window))
              && (r.severity == Warning <==> Shift(m.baseline, window) && !SevereShift(m.baseline, window))
  {
    hide ParseRateFell, TailGrew, AmountsMoved, MedianMoved, Signals, WorstOf;
    if |window| >= m.minWindow {
      SignalsDetect(m, window);
      var s := m.Observe(window).signals;
      assert s[0] in s && s[1] in s && s[2] in s && s[3] in s && s[4] in s;
      WorstMeans(s);
      NeverOnlyWorse(s);
    }
  }

  lemma {:induction false} NeverOnlyWorse(signals: seq<Signal>)
    ensures WorstOf(signals) == Severe || WorstOf(signals) == Warning || WorstOf(signals) == Healthy
  {
    if signals != [] {
      NeverOnlyWorse(signals[1..]);
    }
  }

  lemma FiveOnly(s: seq<Signal>)
    requires |s| == 5
    ensures forall x :: x in s <==> x == s[0] || x == s[1] || x == s[2] || x == s[3] || x == s[4]
  {
  }

  /** The two figures and the distance that each signal reports. */
  lemma SignalsReport(m: DriftMonitor, window: seq<Observation>)
    requires m.Valid() && |window| >= m.minWindow
    ensures var s, base := m.Observe(window).signals, m.baseline;
            && |s| == 5
            && IsMean(ReferencesOf(base), s[0].baseline) && IsMean(ReferencesOf(window), s[0].live)
            && s[0].delta == Max(0, s[0].baseline - s[0].live)
            && s[1].baseline == 1_000 && s[1].delta == Max(0, s[1].live - 1_000)
            && (exists p :: IsTenthPercentile(ScoresOf(base), p)
                            && s[1].live * |window| <= CountLess(ScoresOf(window), p) * 10_000 < (s[1].live + 1) * |window|)
            && IsMedian(BucketsOf(base), s[2].baseline) && IsMedian(BucketsOf(window), s[2].live)
            && IsDistance(BucketsOf(base), BucketsOf(window), s[2].delta)
            && IsMedian(LagsOf(base), s[3].baseline) && IsMedian(LagsOf(window), s[3].live)
            && s[3].delta == Abs(s[3].live - s[3].baseline)
            && IsMedian(FeesOf(base), s[4].baseline) && IsMedian(FeesOf(window), s[4].live)
            && s[4].delta == Abs(s[4].live - s[4].baseline)
  {
    hide IsMean, IsMedian, IsDistance, IsTenthPercentile, MeanPpm, Percentile, CountBelow, CountLess, TotalVariationBp, Median,
         SeverityOf;
    var base := m.baseline;
    var p := Percentile(ScoresOf(base), 10);
    MeanExactly(ReferencesOf(base), MeanPpm(ReferencesOf(base)));
    MeanExactly(ReferencesOf(window), MeanPpm(ReferencesOf(window)));
    PercentileExactly(ScoresOf(base), p);
    CountsAgree(ScoresOf(window), p);
    var tail := CountBelow(ScoresOf(window), p) * BP;
    FloorExactly(tail / |window|, tail, |window|);
    DistanceExactly(BucketsOf(base), BucketsOf(window), TotalVariationBp(BucketsOf(base), BucketsOf(window)));
    MediansHold(BucketsOf(base), BucketsOf(window));
    MediansHold(LagsOf(base), LagsOf(window));
    MediansHold(FeesOf(base), FeesOf(window));
  }

  lemma MediansHold(a: seq<int>, b: seq<int>)
    requires a != [] && b != []
    ensures IsMedian(a, Median(a)) && IsMedian(b, Median(b))
  {
    hide IsMedian, Median;
    MedianExactly(a, Median(a));
    MedianExactly(b, Median(b));
  }

  /** Without collisions two windows have one hash exactly when they hold the same rows, in whatever order. */
  lemma HashIdentifiesRows(m: DriftMonitor, a: seq<Observation>, b: seq<Observation>)
    requires m.Valid() && forall x, y :: m.hash(x) == m.hash(y) ==> x == y
    ensures m.Observe(a).windowHash == m.Observe(b).windowHash <==> multiset(a) == multiset(b)
    ensures m.Observe(a).n == |a| && (m.Observe(a).baselineHash == m.Observe(b).windowHash <==> multiset(m.baseline) == multiset(b))
  {
    hide Signals, WorstOf;
    SameHash(m, a, b);
    SameHash(m, m.baseline, b);
  }

  lemma SameHash(m: DriftMonitor, a: seq<Observation>, b: seq<Observation>)
    requires forall x, y :: m.hash(x) == m.hash(y) ==> x == y
    ensures m.HashOf(a) == m.HashOf(b) <==> multiset(a) == multiset(b)
  {
    ObservationOrder();
    SortPermutes(a, ObservationLe);
    SortPermutes(b, ObservationLe);
    if multiset(a) == multiset(b) {
      SortForgetsOrder(a, b, ObservationLe);
    }
  }
}
