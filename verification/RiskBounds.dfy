/** The rupee-risk fit in plain arithmetic: which thresholds it may authorise, and what it reports about the one it takes. */
module RiskBounds {
  import opened Prelude
  import opened RiskControl

  // ------------------------------------------------------------ sums over all cases

  function Picked(threshold: int, f: Case -> int): Case -> int {
    (c: Case) => if c.score >= threshold && c.amount > 0 then f(c) else 0
  }

  function One(c: Case): int { 1 }

  function CountAt(cases: seq<Case>, t: int): int { Sum(cases, Picked(t, One)) }
  function TotalAt(cases: seq<Case>, t: int): int { Sum(cases, Picked(t, (c: Case) => c.amount)) }
  function WrongAt(cases: seq<Case>, t: int): int { Sum(cases, Picked(t, (c: Case) => if c.correct then 0 else c.amount)) }
  function SquareAt(cases: seq<Case>, t: int): int { Sum(cases, Picked(t, (c: Case) => c.amount * c.amount)) }

  lemma {:induction false} SumPicked(cases: seq<Case>, t: int, f: Case -> int, g: Case -> int)
    requires forall c: Case :: f(c) == g(c)
    ensures Sum(Selected(cases, t), f) == Sum(cases, Picked(t, g))
  {
    if cases != [] {
      var c, rest := cases[0], Selected(cases[1..], t);
      SumPicked(cases[1..], t, f, g);
      assert ([c] + rest)[1..] == rest;
    }
  }

  lemma {:induction false} CountPicked(cases: seq<Case>, t: int)
    ensures |Selected(cases, t)| == CountAt(cases, t)
  {
    if cases != [] {
      CountPicked(cases[1..], t);
      assert Picked(t, One)(cases[0]) == if IsSelected(t)(cases[0]) then One(cases[0]) else 0;
    }
  }

  lemma SelectedSums(cases: seq<Case>, t: int)
    ensures |Selected(cases, t)| == CountAt(cases, t)
    ensures SelectedTotal(cases, t) == TotalAt(cases, t) && SelectedWrong(cases, t) == WrongAt(cases, t)
    ensures Sum(Selected(cases, t), SquareOf) == SquareAt(cases, t)
  {
    hide Selected, Sum;
    CountPicked(cases, t);
    SumPicked(cases, t, AmountOf, (c: Case) => c.amount);
    SumPicked(cases, t, WrongAmountOf, (c: Case) => if c.correct then 0 else c.amount);
    SumPicked(cases, t, SquareOf, (c: Case) => c.amount * c.amount);
  }

  function SearchedScores(cases: seq<Case>): set<int> { set c | c in cases :: c.score }

  lemma SameScores(cases: seq<Case>)
    ensures ScoreCount(cases) == |SearchedScores(cases)|
    ensures forall t :: t in SearchedScores(cases) <==> exists i :: 0 <= i < |cases| && cases[i].score == t
  {
    forall t
      ensures t in SearchedScores(cases) <==> exists i :: 0 <= i < |cases| && cases[i].score == t
    {
      if i :| 0 <= i < |cases| && cases[i].score == t {
        assert cases[i] in cases;
      }
    }
    assert ScoresOf(cases) == SearchedScores(cases);
  }

  // ------------------------------------------------------------ quotients

  /** The effective number of cases: how often the summed squares fit into the squared sum. */
  ghost predicate IsEffective(k: int, total: int, squares: int) {
    k * squares <= total * total < (k + 1) * squares
  }

  lemma QuotientExactly(k: int, a: int, b: int)
    requires b > 0
    ensures k * b <= a < (k + 1) * b <==> k == a / b
  {
    var q := a / b;
    assert a == b * q + a % b;
    if k < q {
      MulLeInt(k + 1, q, b);
    } else if k > q {
      MulLeInt(q + 1, k, b);
    }
  }

  /** The least x with a <= x * b. */
  lemma CeilingExactly(x: int, a: int, b: int)
    requires b > 0
    ensures (x - 1) * b < a <= x * b <==> x == (a + b - 1) / b
  {
    QuotientExactly(x, a + b - 1, b);
    assert (x - 1) * b == x * b - b && (x + 1) * b == x * b + b;
  }

  lemma CeilingWithin(a: int, b: int, limit: int)
    requires b > 0
    ensures (a + b - 1) / b <= limit <==> a <= limit * b
  {
    var x := (a + b - 1) / b;
    CeilingExactly(x, a, b);
    if x <= limit {
      MulLeInt(x, limit, b);
    } else {
      MulLeInt(limit, x - 1, b);
    }
  }

  // ------------------------------------------------------------ admissible thresholds

  /** Room for the allowance: the wrong paise fit into what the budget leaves after it. */
  ghost predicate WithinBudget(wrong: int, total: int, allowance: int, maxLossBp: int) {
    maxLossBp >= 10_000 || wrong * 10_000 <= (maxLossBp - allowance) * total
  }

  ghost predicate Affordable(cases: seq<Case>, t: int, budget: RiskBudget, margin: Allowance) {
    && t in SearchedScores(cases)
    && CountAt(cases, t) >= budget.minCalibrationCases
    && exists k :: IsEffective(k, TotalAt(cases, t), SquareAt(cases, t))
                   && WithinBudget(WrongAt(cases, t), TotalAt(cases, t),
                                   margin(k, budget.confidenceLevelBp, |SearchedScores(cases)|), budget.maxLossBp)
  }

  lemma EffectiveExactly(k: int, total: int, squares: int)
    requires squares > 0
    ensures IsEffective(k, total, squares) <==> k == EffectiveCases(total, squares)
  {
    QuotientExactly(k, total * total, squares);
  }

  lemma BoundWithin(wrong: int, total: int, squares: int, budget: RiskBudget, n: int, margin: Allowance)
    requires total > 0 && squares > 0 && ValidBudget(budget)
    ensures UpperBoundBp(wrong, total, squares, budget.confidenceLevelBp, n, margin) <= budget.maxLossBp
       <==> WithinBudget(wrong, total, margin(EffectiveCases(total, squares), budget.confidenceLevelBp, n), budget.maxLossBp)
  {
    var allowance := margin(EffectiveCases(total, squares), budget.confidenceLevelBp, n);
    CeilingWithin(wrong * 10_000, total, budget.maxLossBp - allowance);
  }

  /** A threshold is admissible exactly when it is affordable. */
  lemma AdmissibleExactly(cases: seq<Case>, t: int, budget: RiskBudget, margin: Allowance)
    requires ValidBudget(budget)
    ensures Admissible(cases, t, budget, margin) <==> Affordable(cases, t, budget, margin)
  {
    hide Selected, CountAt, TotalAt, WrongAt, SquareAt, IsEffective, WithinBudget, EffectiveCases, UpperBoundBp, ScoreCount,
         SearchedScores;
    SelectedSums(cases, t);
    SameScores(cases);
    if CountAt(cases, t) >= budget.minCalibrationCases {
      EffectiveCaseBounds(cases, t);
      SelectedTotalPositive(cases, t);
      var total, squares := TotalAt(cases, t), SquareAt(cases, t);
      BoundWithin(WrongAt(cases, t), total, squares, budget, |SearchedScores(cases)|, margin);
      forall k
        ensures IsEffective(k, total, squares) <==> k == EffectiveCases(total, squares)
      {
        EffectiveExactly(k, total, squares);
      }
    }
  }

  // ------------------------------------------------------------ the fit

  /** The least of the whole and the rounded-up observed loss with its allowance. */
  ghost predicate IsUpperBound(bound: int, wrong: int, total: int, allowance: int) {
    exists observed :: (observed - 1) * total < wrong * 10_000 <= observed * total && bound == Min(10_000, observed + allowance)
  }

  lemma ReportedBound(wrong: int, total: int, squares: int, confidence: int, n: int, margin: Allowance)
    requires total > 0 && squares > 0
    ensures IsUpperBound(UpperBoundBp(wrong, total, squares, confidence, n, margin), wrong, total,
                         margin(EffectiveCases(total, squares), confidence, n))
  {
    CeilingExactly((wrong * 10_000 + total - 1) / total, wrong * 10_000, total);
  }

  /** Authority exactly when some threshold is affordable; then the richest such, the highest on ties, with its bound and coverage. */
  lemma FitExactly(id: string, cases: seq<Case>, budget: RiskBudget, margin: Allowance, c: RiskCalibration)
    requires ValidBudget(budget) && IsFit(id, cases, budget, margin, c)
    ensures c.authority <==> exists t :: Affordable(cases, t, budget, margin)
    ensures c.authority ==> IsRichest(cases, c.thresholdPpm, budget, margin)
    ensures c.authority ==>
              && (exists k :: IsEffective(k, TotalAt(cases, c.thresholdPpm), SquareAt(cases, c.thresholdPpm))
                              && IsUpperBound(c.lossUpperBoundBp, WrongAt(cases, c.thresholdPpm), TotalAt(cases, c.thresholdPpm),
                                              margin(k, budget.confidenceLevelBp, |SearchedScores(cases)|)))
              && c.safeCoverageBp * Sum(cases, AmountOf) <= TotalAt(cases, c.thresholdPpm) * 10_000
                 < (c.safeCoverageBp + 1) * Sum(cases, AmountOf)
    ensures c.calibrationId == id && c.n == |cases|
    ensures !c.authority ==> c.thresholdPpm == 1_000_000 && c.lossUpperBoundBp == 10_000 && c.safeCoverageBp == 0
  {
    hide Admissible, Affordable, CountAt, TotalAt, WrongAt, SquareAt, IsEffective, IsUpperBound, BoundAt, SearchedScores, Sum,
         SelectedTotal, IsRichest;
    forall t
      ensures Admissible(cases, t, budget, margin) <==> Affordable(cases, t, budget, margin)
    {
      AdmissibleExactly(cases, t, budget, margin);
    }
    if c.authority {
      var t := c.thresholdPpm;
      BestIsRichest(cases, t, budget, margin);
      BoundReported(cases, t, budget, margin);
      SelectedSums(cases, t);
      QuotientExactly(c.safeCoverageBp, TotalAt(cases, t) * 10_000, Sum(cases, AmountOf));
    }
  }

  ghost predicate IsRichest(cases: seq<Case>, threshold: int, budget: RiskBudget, margin: Allowance) {
    && Affordable(cases, threshold, budget, margin)
    && forall t :: Affordable(cases, t, budget, margin) ==>
         TotalAt(cases, t) < TotalAt(cases, threshold) || (TotalAt(cases, t) == TotalAt(cases, threshold) && t <= threshold)
  }

  lemma BestIsRichest(cases: seq<Case>, threshold: int, budget: RiskBudget, margin: Allowance)
    requires ValidBudget(budget) && IsBest(cases, threshold, budget, margin)
    ensures IsRichest(cases, threshold, budget, margin)
  {
    hide Admissible, Affordable, SelectedTotal, TotalAt;
    AdmissibleExactly(cases, threshold, budget, margin);
    SelectedSums(cases, threshold);
    forall t | Affordable(cases, t, budget, margin)
      ensures TotalAt(cases, t) < TotalAt(cases, threshold) || (TotalAt(cases, t) == TotalAt(cases, threshold) && t <= threshold)
    {
      AdmissibleExactly(cases, t, budget, margin);
      SelectedSums(cases, t);
    }
  }

  lemma BoundReported(cases: seq<Case>, t: int, budget: RiskBudget, margin: Allowance)
    requires Admissible(cases, t, budget, margin)
    ensures exists k :: IsEffective(k, TotalAt(cases, t), SquareAt(cases, t))
                        && IsUpperBound(BoundAt(cases, t, budget, ScoreCount(cases), margin), WrongAt(cases, t), TotalAt(cases, t),
                                        margin(k, budget.confidenceLevelBp, |SearchedScores(cases)|))
  {
    hide Selected, TotalAt, WrongAt, SquareAt, IsEffective, IsUpperBound, EffectiveCases, UpperBoundBp, SearchedScores, ScoreCount;
    SelectedSums(cases, t);
    SameScores(cases);
    EffectiveCaseBounds(cases, t);
    SelectedTotalPositive(cases, t);
    var total, squares := TotalAt(cases, t), SquareAt(cases, t);
    ReportedBound(WrongAt(cases, t), total, squares, budget.confidenceLevelBp, |SearchedScores(cases)|, margin);
    EffectiveExactly(EffectiveCases(total, squares), total, squares);
  }
}
