/** Rupee-weighted authorisation of probabilistic decisions. */
module RiskControl {
  import opened Prelude
  import opened Sorting

  const SCORE_PPM := 1_000_000
  const RISK_BP := 10_000

  datatype RiskBudget = RiskBudget(maxLossBp: int, minCalibrationCases: int, confidenceLevelBp: int)

  predicate ValidBudget(b: RiskBudget) {
    0 <= b.maxLossBp <= RISK_BP && b.minCalibrationCases >= 1 && 0 < b.confidenceLevelBp < RISK_BP
  }

  datatype RiskCalibration = RiskCalibration(calibrationId: string, thresholdPpm: int, lossUpperBoundBp: int,
                                             safeCoverageBp: int, n: int, authority: bool)

  /** One calibration case; `correct` says whether resolving it automatically would have been correct. */
  datatype Case = Case(score: int, correct: bool, amount: int)

  datatype RiskError = InvalidBudget | LengthMismatch | ScoreOutOfRange | NegativeAmount

  /** The Hoeffding-shaped allowance for (effective cases, confidence, thresholds searched), rounded up. */
  type Allowance = (int, int, int) -> nat

  function IsSelected(threshold: int): Case -> bool {
    (c: Case) => c.score >= threshold && c.amount > 0
  }

  function AmountOf(c: Case): int { c.amount }

  function WrongAmountOf(c: Case): int { if c.correct then 0 else c.amount }

  function SquareOf(c: Case): int { c.amount * c.amount }

  function Selected(cases: seq<Case>, threshold: int): seq<Case> {
    Filter(cases, IsSelected(threshold))
  }

  function SelectedTotal(cases: seq<Case>, threshold: int): int {
    Sum(Selected(cases, threshold), AmountOf)
  }

  function SelectedWrong(cases: seq<Case>, threshold: int): int {
    Sum(Selected(cases, threshold), WrongAmountOf)
  }

  function EffectiveCases(total: int, squared: int): int
    requires squared > 0
  {
    total * total / squared
  }

  function UpperBoundBp(wrong: int, total: int, squared: int, confidence: int, thresholds: int, margin: Allowance): int
    requires total > 0 && squared > 0
  {
    var observed := (wrong * RISK_BP + total - 1) / total;
    var bound := observed + margin(EffectiveCases(total, squared), confidence, thresholds);
    if bound > RISK_BP then RISK_BP else bound
  }

  // ------------------------------------------------------------ the effective case count

  ghost predicate AllPositive(s: seq<Case>) {
    forall i :: 0 <= i < |s| ==> s[i].amount > 0
  }

  lemma {:induction false} TotalsPositive(s: seq<Case>)
    requires AllPositive(s)
    ensures Sum(s, AmountOf) >= |s| && Sum(s, SquareOf) >= |s|
  {
    if s != [] {
      TotalsPositive(s[1..]);
      assert s[0].amount * s[0].amount >= 1;
    }
  }

  lemma SpreadStep(q: int, t: int, n: int, x: int, a: int)
    requires q - 2 * (a * t) + n * (a * a) >= 0
    ensures (x * x + q) - 2 * (a * (x + t)) + (n + 1) * (a * a) >= 0
  {
    var ax, at, aa, xx := a * x, a * t, a * a, x * x;
    Distribute(a, x, t);
    Distribute(aa, n, 1);
    DifferenceSquared(x, a);
    assert aa * (n + 1) == (n + 1) * aa && aa * n == n * aa && aa * 1 == aa;
  }

  lemma Distribute(a: int, x: int, y: int)
    ensures a * (x + y) == a * x + a * y
  {
  }

  lemma DifferenceSquared(x: int, a: int)
    ensures x * x - 2 * (a * x) + a * a >= 0
  {
    Distribute(x - a, x, -a);
    assert (x - a) * x == x * x - a * x && (x - a) * (-a) == a * a - a * x;
    SquareNonNegative(x - a);
  }

  lemma SquareNonNegative(d: int)
    ensures d * d >= 0
  {
  }

  /** The sum of squared distances from a, expanded. */
  lemma {:induction false} SpreadIsNonNegative(s: seq<Case>, a: int)
    ensures Sum(s, SquareOf) - 2 * (a * Sum(s, AmountOf)) + |s| * (a * a) >= 0
  {
    if s == [] {
      assert a * 0 == 0;
    } else {
      SpreadIsNonNegative(s[1..], a);
      SpreadStep(Sum(s[1..], SquareOf), Sum(s[1..], AmountOf), |s[1..]|, s[0].amount, a);
    }
  }

  lemma CauchyStep(q: int, t: int, n: int, x: int)
    requires t * t <= n * q && q - 2 * (x * t) + n * (x * x) >= 0
    ensures (x + t) * (x + t) <= (n + 1) * (x * x + q)
  {
    assert (x + t) * (x + t) == x * x + 2 * (x * t) + t * t;
    assert (n + 1) * (x * x + q) == n * (x * x) + x * x + n * q + q;
  }

  /** Cauchy-Schwarz for the selected amounts. */
  lemma {:induction false} CauchySchwarz(s: seq<Case>)
    ensures Sum(s, AmountOf) * Sum(s, AmountOf) <= |s| * Sum(s, SquareOf)
  {
    if s != [] {
      CauchySchwarz(s[1..]);
      SpreadIsNonNegative(s[1..], s[0].amount);
      CauchyStep(Sum(s[1..], SquareOf), Sum(s[1..], AmountOf), |s[1..]|, s[0].amount);
    }
  }

  lemma {:induction false} SquareDominates(s: seq<Case>)
    requires AllPositive(s)
    ensures Sum(s, SquareOf) <= Sum(s, AmountOf) * Sum(s, AmountOf)
  {
    if s != [] {
      SquareDominates(s[1..]);
      TotalsPositive(s[1..]);
      var x, q, t := s[0].amount, Sum(s[1..], SquareOf), Sum(s[1..], AmountOf);
      assert x * t >= 0;
      assert (x + t) * (x + t) == x * x + 2 * (x * t) + t * t;
    }
  }

  lemma QuotientBounds(a: int, b: int, n: int)
    requires b > 0 && b <= a <= n * b
    ensures 1 <= a / b <= n
  {
    var q := a / b;
    FloorBounds(a, b);
    assert (n + 1) * b == n * b + b;
    if q >= n + 1 {
      MulLeInt(n + 1, q, b);
    }
    if q <= 0 {
      MulLeInt(q + 1, 1, b);
    }
  }

  lemma FloorBounds(a: int, b: int)
    requires b > 0
    ensures a / b * b <= a < (a / b + 1) * b
  {
    var q, r := a / b, a % b;
    assert a == b * q + r;
  }

  /** Concentrated exposure lowers the effective case count, but never below one nor above the real count. */
  lemma EffectiveCaseBounds(cases: seq<Case>, threshold: int)
    requires Selected(cases, threshold) != []
    ensures Sum(Selected(cases, threshold), SquareOf) > 0
    ensures 1 <= EffectiveCases(SelectedTotal(cases, threshold), Sum(Selected(cases, threshold), SquareOf))
              <= |Selected(cases, threshold)|
  {
    var s := Selected(cases, threshold);
    assert forall i :: 0 <= i < |s| ==> s[i] in s;
    TotalsPositive(s);
    SquareDominates(s);
    CauchySchwarz(s);
    QuotientBounds(Sum(s, AmountOf) * Sum(s, AmountOf), Sum(s, SquareOf), |s|);
  }

  // ------------------------------------------------------------ admissible thresholds

  function BoundAt(cases: seq<Case>, threshold: int, budget: RiskBudget, thresholds: int, margin: Allowance): int
    requires Selected(cases, threshold) != []
  {
    EffectiveCaseBounds(cases, threshold);
    SelectedTotalPositive(cases, threshold);
    UpperBoundBp(SelectedWrong(cases, threshold), SelectedTotal(cases, threshold),
                 Sum(Selected(cases, threshold), SquareOf), budget.confidenceLevelBp, thresholds, margin)
  }

  lemma SelectedTotalPositive(cases: seq<Case>, threshold: int)
    ensures SelectedTotal(cases, threshold) >= |Selected(cases, threshold)|
    ensures 0 <= SelectedWrong(cases, threshold) <= SelectedTotal(cases, threshold)
  {
    var s := Selected(cases, threshold);
    assert forall i :: 0 <= i < |s| ==> s[i] in s;
    TotalsPositive(s);
    WrongWithinTotal(s);
  }

  lemma {:induction false} WrongWithinTotal(s: seq<Case>)
    requires AllPositive(s)
    ensures 0 <= Sum(s, WrongAmountOf) <= Sum(s, AmountOf)
  {
    if s != [] {
      WrongWithinTotal(s[1..]);
    }
  }

  /** A searched threshold with enough positive-amount cases and a bound inside the budget. */
  ghost predicate Admissible(cases: seq<Case>, threshold: int, budget: RiskBudget, margin: Allowance) {
    && (exists i :: 0 <= i < |cases| && cases[i].score == threshold)
    && |Selected(cases, threshold)| >= budget.minCalibrationCases >= 1
    && BoundAt(cases, threshold, budget, ScoreCount(cases), margin) <= budget.maxLossBp
  }

  lemma CeilDivBounds(a: int, b: int, limit: int)
    requires b > 0 && (a + b - 1) / b <= limit
    ensures a <= limit * b
  {
    var q := (a + b - 1) / b;
    assert q * b >= a;
    assert q * b <= limit * b;
  }

  /** Wrong paise stay within the budgeted share of the selected paise at every admissible threshold. */
  lemma AdmissibleLossWithinBudget(cases: seq<Case>, threshold: int, budget: RiskBudget, margin: Allowance)
    requires ValidBudget(budget) && Admissible(cases, threshold, budget, margin)
    ensures SelectedWrong(cases, threshold) * RISK_BP <= budget.maxLossBp * SelectedTotal(cases, threshold)
  {
    SelectedTotalPositive(cases, threshold);
    var wrong, total := SelectedWrong(cases, threshold), SelectedTotal(cases, threshold);
    var observed := (wrong * RISK_BP + total - 1) / total;
    if observed <= budget.maxLossBp {
      CeilDivBounds(wrong * RISK_BP, total, budget.maxLossBp);
    } else {
      assert budget.maxLossBp == RISK_BP;
    }
  }

  // ------------------------------------------------------------ the searched thresholds

  function ScoresOf(cases: seq<Case>): set<int> {
    set i | 0 <= i < |cases| :: cases[i].score
  }

  function ScoreCount(cases: seq<Case>): int {
    |ScoresOf(cases)|
  }

  function ScoreOf(c: Case): int { c.score }

  lemma DistinctScores(cases: seq<Case>)
    ensures Elems(Distinct(Map(cases, ScoreOf))) == ScoresOf(cases)
  {
    var scores := Map(cases, ScoreOf);
    forall x
      ensures x in scores <==> x in ScoresOf(cases)
    {
      if x in ScoresOf(cases) {
        var i :| 0 <= i < |cases| && cases[i].score == x;
        assert scores[i] == ScoreOf(cases[i]) == x;
      }
      if x in scores {
        var i :| 0 <= i < |scores| && scores[i] == x;
        assert ScoreOf(cases[i]) == x;
      }
    }
  }

  /** `sorted(set(scores), reverse=True)`, read from the last element to the first. */
  function Ascending(cases: seq<Case>): seq<int> {
    SortInts(Distinct(Map(cases, ScoreOf)))
  }

  lemma AscendingScores(cases: seq<Case>)
    ensures Elems(Ascending(cases)) == ScoresOf(cases) && |Ascending(cases)| == ScoreCount(cases)
    ensures forall i, j :: 0 <= i < j < |Ascending(cases)| ==> Ascending(cases)[i] < Ascending(cases)[j]
  {
    DistinctScores(cases);
    IntOrder();
    SortSorts(Distinct(Map(cases, ScoreOf)), IntLe);
    SortPermutes(Distinct(Map(cases, ScoreOf)), IntLe);
    SortElems(Distinct(Map(cases, ScoreOf)), IntLe);
    SortNoDup(Distinct(Map(cases, ScoreOf)), IntLe);
    CardinalityNoDup(Ascending(cases));
    forall i, j | 0 <= i < j < |Ascending(cases)|
      ensures Ascending(cases)[i] < Ascending(cases)[j]
    {
      assert IntLe(Ascending(cases)[i], Ascending(cases)[j]);
    }
  }

  // ------------------------------------------------------------ the fit

  function Unavailable(id: string, n: int): RiskCalibration {
    RiskCalibration(id, SCORE_PPM, RISK_BP, 0, n, false)
  }

  function Authorised(id: string, cases: seq<Case>, threshold: int, bound: int): RiskCalibration
    requires Sum(cases, AmountOf) > 0
  {
    RiskCalibration(id, threshold, bound, SelectedTotal(cases, threshold) * RISK_BP / Sum(cases, AmountOf),
                    |cases|, true)
  }

  /** The best admissible threshold: most selected rupees, then the highest threshold. */
  ghost predicate IsBest(cases: seq<Case>, threshold: int, budget: RiskBudget, margin: Allowance) {
    && Admissible(cases, threshold, budget, margin)
    && forall t :: Admissible(cases, t, budget, margin) ==>
         SelectedTotal(cases, t) < SelectedTotal(cases, threshold)
         || (SelectedTotal(cases, t) == SelectedTotal(cases, threshold) && t <= threshold)
  }

  predicate ScoresInRange(cases: seq<Case>) {
    forall i :: 0 <= i < |cases| ==> 0 <= cases[i].score <= SCORE_PPM
  }

  predicate ValidCases(cases: seq<Case>) {
    ScoresInRange(cases) && forall i :: 0 <= i < |cases| ==> cases[i].amount >= 0
  }

  ghost predicate IsFit(id: string, cases: seq<Case>, budget: RiskBudget, margin: Allowance, c: RiskCalibration) {
    && (c.authority <==> exists t :: Admissible(cases, t, budget, margin))
    && (c.authority ==>
          && IsBest(cases, c.thresholdPpm, budget, margin)
          && Sum(cases, AmountOf) > 0
          && c == Authorised(id, cases, c.thresholdPpm,
                             BoundAt(cases, c.thresholdPpm, budget, ScoreCount(cases), margin)))
    && (!c.authority ==> c == Unavailable(id, |cases|))
  }

  lemma {:induction false} FilteredSumWithin(cases: seq<Case>, p: Case -> bool)
    requires ValidCases(cases)
    ensures Sum(Filter(cases, p), AmountOf) <= Sum(cases, AmountOf)
    ensures |Filter(cases, p)| <= |cases|
  {
    if cases != [] {
      FilteredSumWithin(cases[1..], p);
      assert ([cases[0]] + Filter(cases[1..], p))[1..] == Filter(cases[1..], p);
    }
  }

  method FitRupeeRisk(scores: seq<int>, labels: seq<bool>, amounts: seq<int>, budget: RiskBudget,
                      id: string, margin: Allowance)
    returns (r: Result<RiskCalibration, RiskError>)
    ensures !ValidBudget(budget) ==> r == Err(InvalidBudget)
    ensures ValidBudget(budget) && !(|scores| == |labels| == |amounts|) ==> r == Err(LengthMismatch)
    ensures ValidBudget(budget) && |scores| == |labels| == |amounts| ==>
              var cases := Zip(scores, labels, amounts);
              if ValidCases(cases) then r.Ok? && IsFit(id, cases, budget, margin, r.value)
              else r == Err(if ScoresInRange(cases) then NegativeAmount else ScoreOutOfRange)
  {
    if !ValidBudget(budget) {
      return Err(InvalidBudget);
    }
    if |scores| != |labels| || |scores| != |amounts| {
      return Err(LengthMismatch);
    }
    var cases := Zip(scores, labels, amounts);
    if !ScoresInRange(cases) {
      return Err(ScoreOutOfRange);
    }
    if exists i :: 0 <= i < |cases| && cases[i].amount < 0 {
      return Err(NegativeAmount);
    }
    var fit := Search(cases, budget, id, margin);
    r := Ok(fit);
  }

  function Zip(scores: seq<int>, labels: seq<bool>, amounts: seq<int>): seq<Case>
    requires |scores| == |labels| == |amounts|
  {
    seq(|scores|, i requires 0 <= i < |scores| => Case(scores[i], labels[i], amounts[i]))
  }

  lemma TooLittleToAuthorise(cases: seq<Case>, t: int, budget: RiskBudget, margin: Allowance)
    requires ValidBudget(budget) && ValidCases(cases)
    requires |cases| < budget.minCalibrationCases || Sum(cases, AmountOf) == 0
    ensures !Admissible(cases, t, budget, margin)
  {
    FilteredSumWithin(cases, IsSelected(t));
    SelectedTotalPositive(cases, t);
  }

  lemma ScoreIsSearched(cases: seq<Case>, t: int)
    ensures t in ScoresOf(cases) <==> exists i :: 0 <= i < |cases| && cases[i].score == t
  {
  }

  /** The loop over thresholds, highest first; a candidate replaces the best only with strictly more rupees. */
  method Search(cases: seq<Case>, budget: RiskBudget, id: string, margin: Allowance) returns (c: RiskCalibration)
    requires ValidBudget(budget) && ValidCases(cases)
    ensures IsFit(id, cases, budget, margin, c)
  {
    hide BoundAt, SelectedTotal, Selected, Ascending, ScoresOf, Distinct, Map;
    var totalValue := Sum(cases, AmountOf);
    AscendingScores(cases);
    if |cases| < budget.minCalibrationCases || totalValue == 0 {
      forall t
        ensures !Admissible(cases, t, budget, margin)
      {
        TooLittleToAuthorise(cases, t, budget, margin);
      }
      return Unavailable(id, |cases|);
    }
    assert totalValue > 0 by {
      SumNonNegative(cases, AmountOf);
    }
    var thresholds := Ascending(cases);
    var best: Option<RiskCalibration> := None;
    var bestTotal := -1;
    var k := |thresholds|;
    while k > 0
      invariant 0 <= k <= |thresholds|
      invariant best.None? ==> bestTotal == -1
      invariant best.None? ==> forall j :: k <= j < |thresholds| ==> !Admissible(cases, thresholds[j], budget, margin)
      invariant best.Some? ==>
                  && Admissible(cases, best.value.thresholdPpm, budget, margin)
                  && bestTotal == SelectedTotal(cases, best.value.thresholdPpm)
                  && best.value == Authorised(id, cases, best.value.thresholdPpm,
                                              BoundAt(cases, best.value.thresholdPpm, budget, ScoreCount(cases), margin))
                  && (exists j :: k <= j < |thresholds| && thresholds[j] == best.value.thresholdPpm)
                  && forall j :: k <= j < |thresholds| && Admissible(cases, thresholds[j], budget, margin) ==>
                       SelectedTotal(cases, thresholds[j]) < bestTotal
                       || (SelectedTotal(cases, thresholds[j]) == bestTotal && thresholds[j] <= best.value.thresholdPpm)
    {
      k := k - 1;
      var threshold := thresholds[k];
      assert threshold in Elems(thresholds);
      ScoreIsSearched(cases, threshold);
      var selected := Selected(cases, threshold);
      if |selected| >= budget.minCalibrationCases {
        var bound := BoundAt(cases, threshold, budget, |thresholds|, margin);
        if bound <= budget.maxLossBp {
          assert Admissible(cases, threshold, budget, margin);
          SelectedTotalPositive(cases, threshold);
          var selectedTotal := SelectedTotal(cases, threshold);
          var candidate := Authorised(id, cases, threshold, bound);
          if selectedTotal > bestTotal
             || (selectedTotal == bestTotal && best.Some? && candidate.thresholdPpm > best.value.thresholdPpm) {
            best, bestTotal := Some(candidate), selectedTotal;
          }
        }
      }
    }
    forall t | Admissible(cases, t, budget, margin)
      ensures exists j :: 0 <= j < |thresholds| && thresholds[j] == t
    {
      ScoreIsSearched(cases, t);
      assert t in Elems(thresholds);
    }
    if best.Some? {
      return best.value;
    }
    return Unavailable(id, |cases|);
  }

  // ------------------------------------------------------------ use of the calibration

  predicate RiskAuthorized(score: int, amount: int, c: RiskCalibration) {
    amount > 0 && c.authority && score >= c.thresholdPpm
  }

  function IsAuthorized(c: RiskCalibration): Case -> bool {
    (k: Case) => RiskAuthorized(k.score, k.amount, c)
  }

  /** Replayed on its own calibration batch, the fitted rule resolves wrongly at most the budgeted share of the paise. */
  lemma CalibrationLossWithinBudget(id: string, cases: seq<Case>, budget: RiskBudget, margin: Allowance, c: RiskCalibration)
    requires ValidBudget(budget) && IsFit(id, cases, budget, margin, c)
    ensures var resolved := Filter(cases, IsAuthorized(c));
            Sum(resolved, WrongAmountOf) * RISK_BP <= budget.maxLossBp * Sum(resolved, AmountOf)
    ensures c.authority ==> |Filter(cases, IsAuthorized(c))| >= budget.minCalibrationCases
  {
    if c.authority {
      SameFilter(cases, IsAuthorized(c), IsSelected(c.thresholdPpm));
      AdmissibleLossWithinBudget(cases, c.thresholdPpm, budget, margin);
    } else {
      NothingFiltered(cases, IsAuthorized(c));
    }
  }

  lemma {:induction false} SameFilter(cases: seq<Case>, p: Case -> bool, q: Case -> bool)
    requires forall x :: p(x) == q(x)
    ensures Filter(cases, p) == Filter(cases, q)
  {
    if cases != [] {
      SameFilter(cases[1..], p, q);
    }
  }

  lemma {:induction false} NothingFiltered(cases: seq<Case>, p: Case -> bool)
    requires forall x :: !p(x)
    ensures Filter(cases, p) == []
  {
    if cases != [] {
      NothingFiltered(cases[1..], p);
    }
  }
}
