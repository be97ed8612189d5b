/** Split conformal abstention over exact reals. */
module Conformal {
  import opened Prelude
  import opened Sorting

  const FALLBACK_Q_HAT: real := 0.05

  datatype ConformalDecision = IsMatch | NonMatch | Unclear

  predicate RealLe(a: real, b: real) {
    a <= b
  }

  lemma RealOrder()
    ensures TotalOrder(RealLe)
  {
  }

  function Ceil(x: real): int {
    -((-x).Floor)
  }

  function Nonconformity(probs: seq<real>): seq<real> {
    seq(|probs|, i requires 0 <= i < |probs| => 1.0 - probs[i])
  }

  function Clamp(low: int, x: int, high: int): int {
    var y := if x < low then low else x;
    if y > high then high else y
  }

  /** `ceil((n + 1) * (1 - alpha))`, the conformal rank. */
  function Rank(n: nat, alpha: real): int {
    Ceil((n + 1) as real * (1.0 - alpha))
  }

  /** `min(n - 1, max(0, ceil(q_level * n) - 1))` with `q_level = min(1, ceil((n + 1)(1 - alpha)) / n)`. */
  function QuantileIndex(n: nat, alpha: real): int
    requires n > 0
  {
    var ratio := Rank(n, alpha) as real / n as real;
    var level := if ratio > 1.0 then 1.0 else ratio;
    Clamp(0, Ceil(level * n as real) - 1, n - 1)
  }

  function ConformalThreshold(probs: seq<real>, alpha: real): real {
    var scores := Sort(Nonconformity(probs), RealLe);
    if probs == [] then FALLBACK_Q_HAT
    else
      SortPermutes(Nonconformity(probs), RealLe);
      scores[QuantileIndex(|scores|, alpha)]
  }

  function Decide(p: real, qHat: real): ConformalDecision {
    var inMatch := 1.0 - p <= qHat;
    var inNonMatch := p <= qHat;
    if inMatch && !inNonMatch then IsMatch
    else if inNonMatch && !inMatch then NonMatch
    else Unclear
  }

  /** How many calibration matches the threshold keeps in the match set. */
  function Covered(probs: seq<real>, qHat: real): nat {
    if probs == [] then 0
    else (if 1.0 - probs[0] <= qHat then 1 else 0) + Covered(probs[1..], qHat)
  }

  // ------------------------------------------------------------ the index

  lemma MulDiv(k: int, n: nat)
    requires n > 0
    ensures k as real / n as real * n as real == k as real
  {
  }

  /** The two roundings cancel: the index is one less than min(n, max(1, ceil((n + 1)(1 - alpha)))). */
  lemma IndexIsRank(n: nat, alpha: real)
    requires n > 0
    ensures QuantileIndex(n, alpha) + 1 == Clamp(1, Rank(n, alpha), n)
  {
    hide Rank;
    var k := Rank(n, alpha);
    var ratio := k as real / n as real;
    MulDiv(k, n);
    if ratio > 1.0 {
      assert k > n by {
        if k <= n {
          DivMonotone(k, n);
        }
      }
      assert 1.0 * n as real == n as real;
    } else {
      assert k <= n by {
        if k > n {
          DivAbove(k, n);
        }
      }
      assert Ceil(ratio * n as real) == k;
    }
  }

  lemma DivMonotone(k: int, n: nat)
    requires n > 0 && k <= n
    ensures k as real / n as real <= 1.0
  {
    var q := k as real / n as real;
    MulDiv(k, n);
    if q > 1.0 {
      assert (q - 1.0) * n as real > 0.0;
    }
  }

  lemma MulLe(x: real, y: real, z: real)
    requires z >= 0.0
    ensures x <= y ==> x * z <= y * z
  {
  }

  lemma DivAbove(k: int, n: nat)
    requires n > 0 && k > n
    ensures k as real / n as real > 1.0
  {
    var q := k as real / n as real;
    MulDiv(k, n);
    MulLe(q, 1.0, n as real);
  }

  // ------------------------------------------------------------ coverage

  function CountLe(s: seq<real>, q: real): nat {
    if s == [] then 0 else (if s[0] <= q then 1 else 0) + CountLe(s[1..], q)
  }

  lemma {:induction false} CoveredIsCountLe(probs: seq<real>, q: real)
    ensures Covered(probs, q) == CountLe(Nonconformity(probs), q)
  {
    if probs != [] {
      CoveredIsCountLe(probs[1..], q);
      assert Nonconformity(probs)[1..] == Nonconformity(probs[1..]);
    }
  }

  lemma {:induction false} CountLeConcat(a: seq<real>, b: seq<real>, q: real)
    ensures CountLe(a + b, q) == CountLe(a, q) + CountLe(b, q)
  {
    if a == [] {
      assert a + b == b;
    } else {
      assert (a + b)[1..] == a[1..] + b;
      CountLeConcat(a[1..], b, q);
    }
  }

  lemma {:induction false} CountLeInsert(x: real, s: seq<real>, q: real)
    ensures CountLe(Insert(x, s, RealLe), q) == CountLe(s, q) + (if x <= q then 1 else 0)
  {
    if s != [] && !RealLe(x, s[0]) {
      CountLeInsert(x, s[1..], q);
      var r := Insert(x, s, RealLe);
      assert r[1..] == Insert(x, s[1..], RealLe);
    } else {
      assert ([x] + s)[1..] == s;
    }
  }

  lemma {:induction false} CountLeSort(s: seq<real>, q: real)
    ensures CountLe(Sort(s, RealLe), q) == CountLe(s, q)
  {
    if s != [] {
      CountLeSort(s[1..], q);
      CountLeInsert(s[0], Sort(s[1..], RealLe), q);
    }
  }

  lemma {:induction false} CountLeAll(s: seq<real>, q: real)
    requires forall i :: 0 <= i < |s| ==> s[i] <= q
    ensures CountLe(s, q) == |s|
  {
    if s != [] {
      CountLeAll(s[1..], q);
    }
  }

  /** The score at a sorted position bounds at least that many scores from above. */
  lemma RankCovered(scores: seq<real>, idx: nat)
    requires SortedBy(scores, RealLe) && idx < |scores|
    ensures CountLe(scores, scores[idx]) >= idx + 1
  {
    var low, high := scores[..idx + 1], scores[idx + 1..];
    forall i | 0 <= i < |low|
      ensures low[i] <= scores[idx]
    {
      if i < idx {
        assert RealLe(scores[i], scores[idx]);
      }
    }
    CountLeAll(low, scores[idx]);
    assert scores == low + high;
    CountLeConcat(low, high, scores[idx]);
  }

  function Scores(probs: seq<real>): (scores: seq<real>)
    ensures |scores| == |probs|
  {
    SortPermutes(Nonconformity(probs), RealLe);
    Sort(Nonconformity(probs), RealLe)
  }

  /** The threshold is the score at the conformal rank, the ranks counted from one and kept inside the list. */
  lemma ThresholdIsRanked(probs: seq<real>, alpha: real) returns (idx: nat)
    requires probs != []
    ensures idx + 1 == Clamp(1, Rank(|probs|, alpha), |probs|)
    ensures idx < |probs| && ConformalThreshold(probs, alpha) == Scores(probs)[idx]
    ensures SortedBy(Scores(probs), RealLe)
  {
    hide Rank;
    RealOrder();
    SortSorts(Nonconformity(probs), RealLe);
    IndexIsRank(|probs|, alpha);
    idx := QuantileIndex(|probs|, alpha);
    var scores := Scores(probs);
    assert ConformalThreshold(probs, alpha) == scores[idx];
  }

  /** At least min(n, ceil((n + 1)(1 - alpha))) of the n calibration matches stay within the threshold. */
  lemma Coverage(probs: seq<real>, alpha: real)
    requires probs != []
    ensures var n := |probs|;
            var need := Rank(n, alpha);
            Covered(probs, ConformalThreshold(probs, alpha)) >= (if need < n then need else n)
  {
    hide Rank, ConformalThreshold;
    var idx := ThresholdIsRanked(probs, alpha);
    var q := Scores(probs)[idx];
    RankCovered(Scores(probs), idx);
    CountLeSort(Nonconformity(probs), q);
    CoveredIsCountLe(probs, q);
  }

  /** A calibration match within the threshold is never called a non-match; the others always are, or are unclear. */
  lemma CoveredNeverNonMatch(p: real, qHat: real)
    ensures 1.0 - p <= qHat ==> Decide(p, qHat) != NonMatch
    ensures Decide(p, qHat) == NonMatch <==> p <= qHat < 1.0 - p
    ensures Decide(p, qHat) == IsMatch <==> 1.0 - p <= qHat < p
  {
  }

  function MissCount(probs: seq<real>, qHat: real): nat {
    if probs == [] then 0
    else (if Decide(probs[0], qHat) == NonMatch then 1 else 0) + MissCount(probs[1..], qHat)
  }

  lemma {:induction false} MissesAreUncovered(probs: seq<real>, qHat: real)
    ensures MissCount(probs, qHat) + Covered(probs, qHat) <= |probs|
  {
    if probs != [] {
      MissesAreUncovered(probs[1..], qHat);
    }
  }

  /** So `decide` calls at most n - min(n, ceil((n + 1)(1 - alpha))) of the true matches non-matches. */
  lemma MissesBounded(probs: seq<real>, alpha: real)
    requires probs != []
    ensures var n := |probs|;
            var need := Rank(n, alpha);
            MissCount(probs, ConformalThreshold(probs, alpha)) <= (if need < n then n - need else 0)
  {
    hide Rank, ConformalThreshold;
    Coverage(probs, alpha);
    MissesAreUncovered(probs, ConformalThreshold(probs, alpha));
  }

  lemma RankAntitone(n: nat, alpha: real, beta: real)
    requires alpha <= beta
    ensures Rank(n, beta) <= Rank(n, alpha)
  {
    MulLe(1.0 - beta, 1.0 - alpha, (n + 1) as real);
    assert (n + 1) as real * (1.0 - beta) <= (n + 1) as real * (1.0 - alpha);
  }

  /** A larger tolerated error rate never raises the threshold. */
  lemma ThresholdAntitone(probs: seq<real>, alpha: real, beta: real)
    requires alpha <= beta
    ensures ConformalThreshold(probs, beta) <= ConformalThreshold(probs, alpha)
  {
    hide Rank;
    if probs != [] {
      var i := ThresholdIsRanked(probs, beta);
      var j := ThresholdIsRanked(probs, alpha);
      RankAntitone(|probs|, alpha, beta);
      if i < j {
        assert RealLe(Scores(probs)[i], Scores(probs)[j]);
      }
    }
  }

  // ------------------------------------------------------------ exactly that share

  function StrictlyBelow(q: real): real -> int { x => if x < q then 1 else 0 }

  lemma {:induction false} SumWithinLength(s: seq<real>, q: real)
    ensures 0 <= Sum(s, StrictlyBelow(q)) <= |s|
  {
    if s != [] {
      SumWithinLength(s[1..], q);
    }
  }

  lemma BelowRank(scores: seq<real>, idx: nat)
    requires SortedBy(scores, RealLe) && idx < |scores|
    ensures Sum(scores, StrictlyBelow(scores[idx])) <= idx
  {
    var q, low, high := scores[idx], scores[..idx], scores[idx..];
    forall x | x in high
      ensures x >= q
    {
      var k :| 0 <= k < |high| && high[k] == x;
      assert k == 0 || RealLe(scores[idx], scores[idx + k]);
    }
    assert scores == low + high;
    SumConcat(low, high, StrictlyBelow(q));
    SumWithinLength(low, q);
    ZeroSum(high, StrictlyBelow(q));
  }

  /** Of n calibration matches either all lie within the threshold or at least (n + 1)(1 - alpha), strictly within it none or fewer. */
  lemma CoverageShare(probs: seq<real>, alpha: real)
    requires probs != []
    ensures var q, share := ConformalThreshold(probs, alpha), (|probs| + 1) as real * (1.0 - alpha);
            && (Covered(probs, q) == |probs| || Covered(probs, q) as real >= share)
            && (Sum(Nonconformity(probs), StrictlyBelow(q)) == 0 || Sum(Nonconformity(probs), StrictlyBelow(q)) as real < share)
  {
    hide ConformalThreshold;
    var idx := ThresholdIsRanked(probs, alpha);
    var q := Scores(probs)[idx];
    Coverage(probs, alpha);
    MissesAreUncovered(probs, q);
    BelowRank(Scores(probs), idx);
    SortPermutes(Nonconformity(probs), RealLe);
    SumPermutation(Nonconformity(probs), Scores(probs), StrictlyBelow(q));
    SumWithinLength(Nonconformity(probs), q);
  }
}
