/** The verdict of every order by its rows, the probability of its match, and the amounts. */
module VerdictTable {
  import opened Prelude
  import opened Sorting
  import opened Dates
  import opened Models
  import opened Enumeration
  import opened ComponentAssignment
  import opened Recon
  import opened ReconSafety
  import opened Refunds
  import Money

  // ------------------------------------------------------------ in terms of rows and numbers

  ghost predicate Undisputed(b: Batch, o: Order) {
    forall e :: e in b.events && e.Dispute? && e.orderId == o.orderId ==> !e.status.Open?
  }

  ghost predicate WithoutGatewayRows(b: Batch, o: Order) {
    forall c :: c in b.captures ==> c.orderId != o.orderId
  }

  /** Captures and refunds only, one refund at least, and nothing left of the captures after fees and taxes. */
  ghost predicate RefundedInFull(b: Batch, o: Order) {
    && (forall c :: c in b.captures && c.orderId == o.orderId ==> c.status.Captured? || c.status.RefundStatus?)
    && (exists c :: c in b.captures && c.orderId == o.orderId && c.status.RefundStatus?)
    && Sum(CapsOf(b, o.orderId), NetOf) == 0
  }

  /** Two rows of the statement carry the credit's UTR. */
  ghost predicate RepeatedUtr(b: Batch, t: BankTxn) {
    t.utr != "" && exists i, j :: 0 <= i < j < |b.bank| && b.bank[i].utr == t.utr && b.bank[j].utr == t.utr
  }

  /** Conformally a match and nothing else, and likely enough for what a wrong silence would cost. */
  ghost predicate Sure(cfg: Config, o: Order, p: real) {
    var lost := o.amountPaise * 6 / 10;
    1.0 - p <= cfg.qHat < p && p * (lost + 80_000) as real >= lost as real
  }

  /** Conformally no match and nothing else. */
  ghost predicate RuledOut(cfg: Config, p: real) {
    p <= cfg.qHat < 1.0 - p
  }

  /** Listed tax evidence of the order over exactly this amount. */
  ghost predicate ProvenTax(b: Batch, o: Order, amount: int) {
    exists e :: e in b.events && e.TdsEvidence? && e.orderId == o.orderId && e.amountPaise == amount
  }

  ghost predicate StatutoryNet(invoice: int, x: int) {
    x == invoice - invoice * 100 / 10_000 || x == invoice - invoice * 200 / 10_000 || x == invoice - invoice * 1000 / 10_000
  }

  // ------------------------------------------------------------ the engine's tests in these terms

  lemma {:induction false} RepeatedExactly(bank: seq<BankTxn>, utr: string)
    ensures |Filter(bank, WithUtr(utr))| > 0 <==> exists i :: 0 <= i < |bank| && bank[i].utr == utr
    ensures |Filter(bank, WithUtr(utr))| > 1 <==> exists i, j :: 0 <= i < j < |bank| && bank[i].utr == utr && bank[j].utr == utr
  {
    if bank != [] {
      var rest := bank[1..];
      RepeatedExactly(rest, utr);
      assert forall i :: 0 <= i < |rest| ==> rest[i] == bank[i + 1];
      assert forall i :: 0 < i < |bank| ==> bank[i] == rest[i - 1];
    }
  }

  lemma UtrCountExactly(b: Batch, t: BankTxn)
    ensures UtrCount(b, t.utr) > 1 <==> RepeatedUtr(b, t)
  {
    RepeatedExactly(b.bank, t.utr);
  }

  lemma QuotientAtLeast(p: real, m: int, n: int)
    requires n > 0
    ensures p >= m as real / n as real <==> p * n as real >= m as real
  {
    var q, d := m as real / n as real, n as real;
    assert q * d == m as real;
    if p >= q {
      assert (p - q) * d >= 0.0;
    } else {
      assert (q - p) * d > 0.0;
    }
  }

  lemma ClassifiedExactly(eng: Engine, cfg: Config, o: Order, w: real)
    requires o.amountPaise > 0
    ensures Classify(eng, cfg, o, w).IsMatch? <==> Sure(cfg, o, eng.pMatch(w))
    ensures Classify(eng, cfg, o, w).NonMatch? <==> RuledOut(cfg, eng.pMatch(w))
  {
    QuotientAtLeast(eng.pMatch(w), o.amountPaise * 6 / 10, o.amountPaise * 6 / 10 + 80_000);
  }

  lemma UndisputedExactly(b: Batch, o: Order)
    ensures Undisputed(b, o) <==> OpenDisputes(b, o.orderId) == []
    ensures WithoutGatewayRows(b, o) <==> CapsOf(b, o.orderId) == []
  {
    FilterEmpty(b.events, OpenDisputeOf(o.orderId));
    FilterEmpty(b.captures, OfOrder(o.orderId));
  }

  lemma RefundedExactly(b: Batch, o: Order)
    ensures RefundedInFull(b, o) <==> IsRefundNetZero(CapsOf(b, o.orderId))
  {
    hide Sum;
    var caps := CapsOf(b, o.orderId);
    assert forall c :: c in caps <==> c in b.captures && c.orderId == o.orderId;
    if RefundedInFull(b, o) {
      var c :| c in b.captures && c.orderId == o.orderId && c.status.RefundStatus?;
      assert c in caps && IsRefund(c);
    }
  }

  // ------------------------------------------------------------ the table

  lemma ChosenRow(b: Batch, eng: Engine, cfg: Config, o: Order, hits: map<string, Hit>, pool: seq<BankTxn>, t: BankTxn,
                  cands: seq<Candidate>, w: real)
    requires o.amountPaise > 0 && OpenDisputes(b, o.orderId) == [] && NeedsFuzzy(b)(o)
    requires FirstCredit(pool, WithId(t.txnId)) == Some(t) && WeightOf(cands, t.txnId) == Some(w)
    ensures var v := Resolve(b, eng, cfg, o, hits, pool, Match(Some(t.txnId), false), cands);
            var netZero, e := IsRefundNetZero(CapsOf(b, o.orderId)), FuzzyEvidence(eng, cfg, o, t, w);
            if UtrCount(b, t.utr) > 1 then v == Abstain(o, PlainEvidence(Pass4Fuzzy, [t.txnId], ManualPath, false))
            else match Classify(eng, cfg, o, w)
                 case IsMatch => v == ResolveMatch(b, o, t, e, netZero)
                 case Unclear => v == Abstain(o, e)
                 case NonMatch => v == ResolveUnmatched(b, o, CapsOf(b, o.orderId), netZero, Some(e))
  {
    hide Classify, UtrCount, FirstProof, Money.TdsRateBp, CoverageEnd, EngineDelta, FirstCredit, WeightOf, OpenDisputes, CapsOf,
         ResolveMatch, ResolveUnmatched, Sum;
    SearchedRows(CapsOf(b, o.orderId));
  }

  /** A searched order has no chargeback row, and no failed row without a refund. */
  lemma SearchedRows(caps: seq<Capture>)
    requires caps == [] || IsRefundNetZero(caps)
    ensures Filter(caps, IsChargeback) == [] && Filter(caps, IsFailed) == []
    ensures caps == [] ==> Filter(caps, IsCaptured) == []
  {
    FilterEmpty(caps, IsChargeback);
    FilterEmpty(caps, IsFailed);
  }

  lemma OpenRow(b: Batch, eng: Engine, cfg: Config, o: Order, hits: map<string, Hit>, pool: seq<BankTxn>, m: Match,
                cands: seq<Candidate>)
    requires o.amountPaise > 0 && OpenDisputes(b, o.orderId) == [] && NeedsFuzzy(b)(o)
    requires m.tie || m.txn.None?
    ensures var v := Resolve(b, eng, cfg, o, hits, pool, m, cands);
            var caps, netZero := CapsOf(b, o.orderId), IsRefundNetZero(CapsOf(b, o.orderId));
            if m.tie then v == Abstain(o, PlainEvidence(Pass4Fuzzy, TxnsOf(cands), ManualPath, false))
            else v == ResolveUnmatched(b, o, caps, netZero,
                                       if cands == [] then None
                                       else Some(Evidence(Pass4Rejected, TxnsOf(cands), ProbabilisticPath, CalibrationId(cfg),
                                                          false, eng.toPpm(eng.pMatch(Strongest(cands))), cfg.authority)))
  {
    hide Classify, UtrCount, FirstProof, Money.TdsRateBp, CoverageEnd, EngineDelta, FirstCredit, WeightOf, OpenDisputes, CapsOf,
         ResolveMatch, ResolveUnmatched, Sum, Strongest;
    SearchedRows(CapsOf(b, o.orderId));
  }

  lemma ProofExactly(b: Batch, o: Order, amount: int)
    ensures FirstProof(TdsProofs(b, o.orderId), amount).Some? <==> ProvenTax(b, o, amount)
    ensures FirstProof(TdsProofs(b, o.orderId), amount).Some? ==> FirstProof(TdsProofs(b, o.orderId), amount).value.TdsEvidence?
  {
    hide FirstProof;
    assert forall e :: e in TdsProofs(b, o.orderId) <==> e in b.events && e.TdsEvidence? && e.orderId == o.orderId;
  }

  lemma ExplainedMeans(b: Batch, o: Order, x: int)
    requires Validated(b) && o in b.orders && ExplainedAmount(b, o, x) && x != o.amountPaise
    ensures x < o.amountPaise
    ensures !ProvenTax(b, o, o.amountPaise - x) ==> StatutoryNet(o.amountPaise, x)
    ensures x > 0 ==> (StatutoryNet(o.amountPaise, x) <==> Money.TdsRateBp(o.amountPaise, x).Some?)
  {
    assert ValidOrder(o);
    Money.TdsRateExact(o.amountPaise, x);
    forall bp | bp in Money.STATUTORY_TDS_RATES_BP
      ensures 0 <= Money.PctBp(o.amountPaise, bp)
    {
      Money.PctBpBounds(o.amountPaise, bp);
    }
    forall bp
      ensures bp in Money.STATUTORY_TDS_RATES_BP <==> bp == 100 || bp == 200 || bp == 1000
    {
    }
    assert forall e :: e in TdsProofs(b, o.orderId) ==> e in b.events && ValidEvent(e);
    assert 100 in Money.STATUTORY_TDS_RATES_BP && 200 in Money.STATUTORY_TDS_RATES_BP && 1000 in Money.STATUTORY_TDS_RATES_BP;
    if x == o.amountPaise - o.amountPaise * 100 / 10_000 {
      assert x == o.amountPaise - Money.PctBp(o.amountPaise, 100);
    }
    if x == o.amountPaise - o.amountPaise * 200 / 10_000 {
      assert x == o.amountPaise - Money.PctBp(o.amountPaise, 200);
    }
    if x == o.amountPaise - o.amountPaise * 1000 / 10_000 {
      assert x == o.amountPaise - Money.PctBp(o.amountPaise, 1000);
    }
  }

  lemma PaidRow(b: Batch, o: Order, t: BankTxn, e: Evidence)
    requires Validated(b) && o in b.orders && t in Credits(b) && ExplainedAmount(b, o, t.amountPaise)
    ensures var v, short := ResolveMatch(b, o, t, e, false), o.amountPaise - t.amountPaise;
            && short >= 0
            && (v.verdict.PaidOutOfBand? <==> short == 0)
            && (v.verdict.PaidNetOfTds? <==> short > 0 && ProvenTax(b, o, short))
            && (v.verdict.PossibleTdsWithholding? <==> short > 0 && !ProvenTax(b, o, short))
            && v.moneyReceivedPaise == if v.verdict.PossibleTdsWithholding? then 0 else t.amountPaise
    ensures e.sourceRows == [t.txnId] ==> t.txnId in ResolveMatch(b, o, t, e, false).evidence.sourceRows
  {
    hide FirstProof, ExplainedAmount, Money.TdsRateBp, ProvenTax, StatutoryNet;
    assert ValidBankTxn(t);
    ProofExactly(b, o, o.amountPaise - t.amountPaise);
    if t.amountPaise != o.amountPaise {
      ExplainedMeans(b, o, t.amountPaise);
    } else {
      Money.TdsRateExact(o.amountPaise, t.amountPaise);
    }
  }

  // ------------------------------------------------------------ over every run

  /** The credit the assignment chose is the row with its id, and its weight is its score. */
  lemma ChosenIsScoredRow(b: Batch, eng: Engine, cfg: Config, r: Run, o: Order, t: BankTxn)
    requires IsRun(b, eng, cfg, r) && o in b.orders && t in b.bank && MatchOf(r, o.orderId).txn == Some(t.txnId)
    ensures NeedsFuzzy(b)(o) && t in Credits(b) && ExplainedAmount(b, o, t.amountPaise)
    ensures FirstCredit(r.pool, WithId(t.txnId)) == Some(t)
    ensures WeightOf(CandsOf(r, o.orderId), t.txnId) == Some(eng.score(o, t))
  {
    hide IsRun, FirstCredit, WeightOf, CandidatesOf, ExplainedAmount, CandidateAmounts, NeedsFuzzy, TxnIds;
    RunIsValidated(b, eng, cfg, r);
    var txn := ChosenCredit(b, eng, cfg, r, o);
    UniqueById(b.bank, txn, t);
    CandidateAmountMembers(b, o, t.amountPaise);
    AssignedAreFuzzy(b, eng, cfg, r, o);
    PossibleIsListed(b, eng, cfg, r, o, t);
  }

  /** An order without gateway rows whose match is not contested: which verdict it gets, exactly. */
  lemma MatchedVerdict(b: Batch, eng: Engine, cfg: Config, r: Run, o: Order, t: BankTxn)
    requires IsRun(b, eng, cfg, r) && o in b.orders && Undisputed(b, o) && WithoutGatewayRows(b, o)
    requires t in b.bank && MatchOf(r, o.orderId) == Match(Some(t.txnId), false)
    ensures o.orderId in r.verdicts
    ensures var v, p, short := r.verdicts[o.orderId], eng.pMatch(eng.score(o, t)), o.amountPaise - t.amountPaise;
            var matched := !RepeatedUtr(b, t) && Sure(cfg, o, p);
            && short >= 0
            && (v.verdict.PaidOutOfBand? <==> matched && short == 0)
            && (v.verdict.PaidNetOfTds? <==> matched && short > 0 && ProvenTax(b, o, short))
            && (v.verdict.PossibleTdsWithholding? <==> matched && short > 0 && !ProvenTax(b, o, short))
            && (v.verdict.GenuinelyUnpaid? <==> !RepeatedUtr(b, t) && RuledOut(cfg, p))
            && (v.verdict.Ambiguous? <==> RepeatedUtr(b, t) || (!Sure(cfg, o, p) && !RuledOut(cfg, p)))
            && v.moneyReceivedPaise == (if matched && (short == 0 || ProvenTax(b, o, short)) then t.amountPaise else 0)
            && t.txnId in v.evidence.sourceRows
    ensures t.amountPaise != o.amountPaise && !ProvenTax(b, o, o.amountPaise - t.amountPaise) ==>
              StatutoryNet(o.amountPaise, t.amountPaise)
  {
    hide IsRun, Resolve, ResolveMatch, Classify, UtrCount, ExplainedAmount, ProvenTax, StatutoryNet, Sure, RuledOut, RepeatedUtr,
         FirstCredit, WeightOf, IsRefundNetZero, CoverageEnd, EngineDelta, Undisputed, WithoutGatewayRows, OpenDisputes, CapsOf;
    RunIsValidated(b, eng, cfg, r);
    RunVerdict(b, eng, cfg, r, o);
    UndisputedExactly(b, o);
    ChosenIsScoredRow(b, eng, cfg, r, o, t);
    var w := eng.score(o, t);
    ChosenRow(b, eng, cfg, o, r.settled.hits, r.pool, t, CandsOf(r, o.orderId), w);
    UtrCountExactly(b, t);
    ClassifiedExactly(eng, cfg, o, w);
    PaidRow(b, o, t, FuzzyEvidence(eng, cfg, o, t, w));
    NothingRefunded();
    if t.amountPaise != o.amountPaise {
      ExplainedMeans(b, o, t.amountPaise);
    }
  }

  lemma NothingRefunded()
    ensures !IsRefundNetZero([])
  {
  }

  /** The scored evidence of that verdict: authorised exactly by a calibration in force whose threshold it reaches. */
  lemma MatchedEvidence(b: Batch, eng: Engine, cfg: Config, r: Run, o: Order, t: BankTxn)
    requires IsRun(b, eng, cfg, r) && o in b.orders && Undisputed(b, o) && WithoutGatewayRows(b, o)
    requires t in b.bank && MatchOf(r, o.orderId) == Match(Some(t.txnId), false)
    ensures o.orderId in r.verdicts
    ensures var v, ppm := r.verdicts[o.orderId], eng.toPpm(eng.pMatch(eng.score(o, t)));
            && (v.evidence.automationPath.ProbabilisticPath? <==> !RepeatedUtr(b, t) && !v.verdict.PossibleTdsWithholding?)
            && (v.evidence.automationPath.ProbabilisticPath? ==>
                  && v.evidence.scorePpm == ppm && v.evidence.authorityState == cfg.authority
                  && (v.evidence.riskAuthorized <==>
                        cfg.riskCalibration.Some? && cfg.riskCalibration.value.authority
                        && ppm >= cfg.riskCalibration.value.thresholdPpm)
                  && v.evidence.riskCalibrationId
                     == (if cfg.riskCalibration.Some? then cfg.riskCalibration.value.calibrationId else ""))
            && (!v.evidence.automationPath.ProbabilisticPath? ==> !v.evidence.riskAuthorized)
  {
    hide IsRun, Resolve, Classify, UtrCount, ExplainedAmount, ProvenTax, RepeatedUtr, FirstProof, Money.TdsRateBp,
         FirstCredit, WeightOf, IsRefundNetZero, CoverageEnd, EngineDelta, Undisputed, WithoutGatewayRows, OpenDisputes, CapsOf;
    RunIsValidated(b, eng, cfg, r);
    RunVerdict(b, eng, cfg, r, o);
    UndisputedExactly(b, o);
    ChosenIsScoredRow(b, eng, cfg, r, o, t);
    ChosenRow(b, eng, cfg, o, r.settled.hits, r.pool, t, CandsOf(r, o.orderId), eng.score(o, t));
    UtrCountExactly(b, t);
    NothingRefunded();
  }

  lemma {:induction false} StrongestIsMaximum(cands: seq<Candidate>)
    requires cands != []
    ensures forall c :: c in cands ==> c.weight <= Strongest(cands)
    ensures exists c :: c in cands && c.weight == Strongest(cands)
  {
    assert cands == [cands[0]] + cands[1..];
    assert cands[0] in cands;
    if |cands| > 1 {
      StrongestIsMaximum(cands[1..]);
      var c :| c in cands[1..] && c.weight == Strongest(cands[1..]);
      assert c in cands;
    }
  }

  ghost predicate BestScore(b: Batch, eng: Engine, r: Run, o: Order, w: real) {
    && (exists t :: PossiblePayment(b, eng, r, o, t) && eng.score(o, t) == w)
    && forall t :: PossiblePayment(b, eng, r, o, t) ==> eng.score(o, t) <= w
  }

  /** The candidates' strongest weight is the best score of a possible payment. */
  lemma StrongestScore(b: Batch, eng: Engine, cfg: Config, r: Run, o: Order)
    requires IsRun(b, eng, cfg, r) && o in b.orders && NeedsFuzzy(b)(o) && CandsOf(r, o.orderId) != []
    ensures BestScore(b, eng, r, o, Strongest(CandsOf(r, o.orderId)))
  {
    hide IsRun, Strongest, PossiblePayment, NeedsFuzzy, CandidateAmounts, IdsUnique, ScoreTable, WeightOf, ExplainedAmount;
    AssignedAreFuzzy(b, eng, cfg, r, o);
    RunPool(b, eng, cfg, r);
    var cands, txns := CandsOf(r, o.orderId), CandidateTxns(CandidateAmounts(b, o), r.pool);
    StrongestIsMaximum(cands);
    forall t
      ensures t in txns <==> PossiblePayment(b, eng, r, o, t)
    {
      CandidateTxnMembers(CandidateAmounts(b, o), r.pool, t);
      CandidateAmountMembers(b, o, t.amountPaise);
      PoolMembersOnly(b, eng, r, o, t);
    }
    CandidatesScored(eng, o, txns);
  }

  lemma PoolMembersOnly(b: Batch, eng: Engine, r: Run, o: Order, t: BankTxn)
    requires r.pool == FuzzyPool(b, eng, r.settled.consumed)
    ensures PossiblePayment(b, eng, r, o, t) <==> t in r.pool && ExplainedAmount(b, o, t.amountPaise)
  {
    hide ExplainedAmount;
  }

  lemma CandidatesScored(eng: Engine, o: Order, txns: seq<BankTxn>)
    ensures forall t :: t in txns ==> Candidate(t.txnId, eng.score(o, t)) in ScoreAll(eng, o, txns)
    ensures forall c :: c in ScoreAll(eng, o, txns) ==> exists t :: t in txns && c == Candidate(t.txnId, eng.score(o, t))
  {
    var all := ScoreAll(eng, o, txns);
    forall t | t in txns
      ensures Candidate(t.txnId, eng.score(o, t)) in all
    {
      var i :| 0 <= i < |txns| && txns[i] == t;
      assert all[i] == Candidate(t.txnId, eng.score(o, t));
    }
    forall c | c in all
      ensures exists t :: t in txns && c == Candidate(t.txnId, eng.score(o, t))
    {
      var i :| 0 <= i < |all| && all[i] == c;
      assert txns[i] in txns;
    }
  }

  lemma CandidatesArePossible(b: Batch, eng: Engine, cfg: Config, r: Run, o: Order)
    requires IsRun(b, eng, cfg, r) && o in b.orders && NeedsFuzzy(b)(o)
    ensures forall id :: id in TxnsOf(CandsOf(r, o.orderId)) <==> exists t :: PossiblePayment(b, eng, r, o, t) && t.txnId == id
  {
    hide IsRun, PossiblePayment, NeedsFuzzy, CandidateAmounts, IdsUnique, ExplainedAmount;
    AssignedAreFuzzy(b, eng, cfg, r, o);
    RunPool(b, eng, cfg, r);
    var cands, txns := CandsOf(r, o.orderId), CandidateTxns(CandidateAmounts(b, o), r.pool);
    forall t
      ensures t in txns <==> PossiblePayment(b, eng, r, o, t)
    {
      CandidateTxnMembers(CandidateAmounts(b, o), r.pool, t);
      CandidateAmountMembers(b, o, t.amountPaise);
      PoolMembersOnly(b, eng, r, o, t);
    }
    TxnsListed(eng, o, txns);
  }

  lemma TxnsListed(eng: Engine, o: Order, txns: seq<BankTxn>)
    ensures forall id :: id in TxnsOf(ScoreAll(eng, o, txns)) <==> exists t :: t in txns && t.txnId == id
  {
    var ids := TxnsOf(ScoreAll(eng, o, txns));
    forall id
      ensures id in ids <==> exists t :: t in txns && t.txnId == id
    {
      if id in ids {
        var i :| 0 <= i < |ids| && ids[i] == id;
        assert txns[i] in txns;
      }
      if t :| t in txns && t.txnId == id {
        var i :| 0 <= i < |txns| && txns[i] == t;
        assert ids[i] == id;
      }
    }
  }

  /** Without a choice: a contested order is ambiguous, any other is unpaid, on the best rejected score if there is one. */
  lemma UnmatchedVerdict(b: Batch, eng: Engine, cfg: Config, r: Run, o: Order)
    requires IsRun(b, eng, cfg, r) && o in b.orders && Undisputed(b, o) && WithoutGatewayRows(b, o)
    requires MatchOf(r, o.orderId).tie || MatchOf(r, o.orderId).txn.None?
    ensures o.orderId in r.verdicts
    ensures var v := r.verdicts[o.orderId];
            && (if MatchOf(r, o.orderId).tie then v.verdict.Ambiguous? else v.verdict.GenuinelyUnpaid?)
            && v.moneyReceivedPaise == 0 && !(v.evidence.automationPath.ProbabilisticPath? && v.evidence.riskAuthorized)
            && (forall id :: id in v.evidence.sourceRows <==> exists t :: PossiblePayment(b, eng, r, o, t) && t.txnId == id)
            && (v.verdict.GenuinelyUnpaid? ==>
                  && (v.bankCoverageOk <==> FeedReaches(b, o.dueDate))
                  && (v.evidence.passUsed.Exhausted? <==> forall t :: !PossiblePayment(b, eng, r, o, t))
                  && (!v.evidence.passUsed.Exhausted? ==>
                        && v.evidence.passUsed.Pass4Rejected? && v.evidence.automationPath.ProbabilisticPath?
                        && exists w :: BestScore(b, eng, r, o, w) && v.evidence.scorePpm == eng.toPpm(eng.pMatch(w))))
  {
    hide IsRun, Resolve, CoverageEnd, EngineDelta, Undisputed, WithoutGatewayRows, OpenDisputes, CapsOf, Strongest,
         BestScore, PossiblePayment, FeedReaches, IsRefundNetZero;
    RunIsValidated(b, eng, cfg, r);
    RunVerdict(b, eng, cfg, r, o);
    UndisputedExactly(b, o);
    NothingRefunded();
    OpenRow(b, eng, cfg, o, r.settled.hits, r.pool, MatchOf(r, o.orderId), CandsOf(r, o.orderId));
    NoCandidatesMeansNoPayment(b, eng, cfg, r, o);
    FeedDatesValid(b);
    CoverageReaches(b, o.dueDate);
    CandidatesArePossible(b, eng, cfg, r, o);
    if CandsOf(r, o.orderId) != [] {
      StrongestScore(b, eng, cfg, r, o);
    }
  }

  lemma FeedDatesValid(b: Batch)
    requires Validated(b)
    ensures forall t :: t in b.bank ==> ValidDate(t.valueDate)
  {
  }

  /** An order refunded in full: repaid by a sure and unrepeated match of any explained amount, otherwise ambiguous. */
  lemma RefundedVerdict(b: Batch, eng: Engine, cfg: Config, r: Run, o: Order)
    requires IsRun(b, eng, cfg, r) && o in b.orders && Undisputed(b, o) && RefundedInFull(b, o)
    ensures o.orderId in r.verdicts
    ensures r.verdicts[o.orderId].verdict.RefundedThenRepaid? || r.verdicts[o.orderId].verdict.Ambiguous?
    ensures r.verdicts[o.orderId].verdict.RefundedThenRepaid?
       <==> exists t :: t in b.bank && MatchOf(r, o.orderId) == Match(Some(t.txnId), false) && !RepeatedUtr(b, t)
                        && Sure(cfg, o, eng.pMatch(eng.score(o, t))) && r.verdicts[o.orderId].moneyReceivedPaise == t.amountPaise
  {
    hide IsRun, Resolve, Classify, Undisputed, OpenDisputes, CapsOf, Sure, RepeatedUtr, UtrCount, RefundedInFull, IsRefundNetZero;
    RunVerdict(b, eng, cfg, r, o);
    UndisputedExactly(b, o);
    RefundedExactly(b, o);
    var m := MatchOf(r, o.orderId);
    if m.tie || m.txn.None? {
      OpenRow(b, eng, cfg, o, r.settled.hits, r.pool, m, CandsOf(r, o.orderId));
    } else {
      var t := ChosenCredit(b, eng, cfg, r, o);
      RefundedMatch(b, eng, cfg, r, o, t);
      forall s | s in b.bank && m.txn == Some(s.txnId)
        ensures s == t
      {
        RunIsValidated(b, eng, cfg, r);
        UniqueById(b.bank, s, t);
      }
    }
  }

  lemma RefundedMatch(b: Batch, eng: Engine, cfg: Config, r: Run, o: Order, t: BankTxn)
    requires IsRun(b, eng, cfg, r) && o in b.orders && OpenDisputes(b, o.orderId) == [] && IsRefundNetZero(CapsOf(b, o.orderId))
    requires t in b.bank && MatchOf(r, o.orderId) == Match(Some(t.txnId), false)
    ensures o.orderId in r.verdicts
    ensures var v := r.verdicts[o.orderId];
            var repaid := !RepeatedUtr(b, t) && Sure(cfg, o, eng.pMatch(eng.score(o, t)));
            if repaid then v.verdict.RefundedThenRepaid? && v.moneyReceivedPaise == t.amountPaise else v.verdict.Ambiguous?
  {
    hide IsRun, Resolve, Classify, OpenDisputes, CapsOf, Sure, RuledOut, RepeatedUtr, UtrCount, IsRefundNetZero, ResolveMatch;
    RunVerdict(b, eng, cfg, r, o);
    ChosenIsScoredRow(b, eng, cfg, r, o, t);
    var w := eng.score(o, t);
    ChosenRow(b, eng, cfg, o, r.settled.hits, r.pool, t, CandsOf(r, o.orderId), w);
    UtrCountExactly(b, t);
    ClassifiedExactly(eng, cfg, o, w);
    RepaidRow(b, o, t, FuzzyEvidence(eng, cfg, o, t, w));
  }

  lemma RepaidRow(b: Batch, o: Order, t: BankTxn, e: Evidence)
    ensures ResolveMatch(b, o, t, e, true).verdict.RefundedThenRepaid?
    ensures ResolveMatch(b, o, t, e, true).moneyReceivedPaise == t.amountPaise
  {
  }

  /** A captured order that is not refunded in full, under the hit of its first captured row's settlement. */
  lemma CapturedVerdict(b: Batch, eng: Engine, cfg: Config, r: Run, o: Order)
    requires IsRun(b, eng, cfg, r) && o in b.orders && Undisputed(b, o) && !RefundedInFull(b, o)
    requires Filter(CapsOf(b, o.orderId), IsCaptured) != []
    requires forall c :: c in b.captures && c.orderId == o.orderId ==> !c.status.ChargebackStatus?
    ensures o.orderId in r.verdicts
    ensures var v, caps := r.verdicts[o.orderId], CapsOf(b, o.orderId);
            var captured, refunds := Filter(caps, IsCaptured), Filter(caps, IsRefund);
            var sid := captured[0].settlementId;
            if sid !in r.settled.hits then v.verdict.Ambiguous? && v.moneyReceivedPaise == 0
            else
              && (v.verdict.PartiallyPaid? <==> refunds != [])
              && (v.verdict.SettledClean? <==>
                    refunds == [] && EngineDelta(LatestCapture(captured), r.settled.hits[sid].credit.valueDate) <= 1)
              && (v.verdict.SettledLate? <==>
                    refunds == [] && EngineDelta(LatestCapture(captured), r.settled.hits[sid].credit.valueDate) > 1)
              && v.moneyReceivedPaise == o.amountPaise + Sum(refunds, CaptureValue) && v.deltaDuePaise == -Sum(refunds, CaptureValue)
              && v.evidence.passUsed == r.settled.hits[sid].pass && v.evidence.automationPath.ExactPath?
              && r.settled.hits[sid].credit.txnId in v.evidence.sourceRows
              && (forall c :: c in captured || c in refunds ==> c.paymentId in v.evidence.sourceRows)
  {
    hide IsRun, Resolve, Undisputed, OpenDisputes, CapsOf, RefundedInFull, IsRefundNetZero, ResolveCaptured, Sum, LatestCapture,
         EngineDelta;
    RunVerdict(b, eng, cfg, r, o);
    UndisputedExactly(b, o);
    RefundedExactly(b, o);
    CapturedRow(b, eng, cfg, o, r.settled.hits, r.pool, MatchOf(r, o.orderId), CandsOf(r, o.orderId));
    SettledRow(b, o, CapsOf(b, o.orderId), r.settled.hits);
  }

  function CaptureValue(c: Capture): int { c.amountPaise }

  lemma CapturedRow(b: Batch, eng: Engine, cfg: Config, o: Order, hits: map<string, Hit>, pool: seq<BankTxn>, m: Match,
                    cands: seq<Candidate>)
    requires o.amountPaise > 0 && OpenDisputes(b, o.orderId) == [] && !IsRefundNetZero(CapsOf(b, o.orderId))
    requires Filter(CapsOf(b, o.orderId), IsCaptured) != []
    requires forall c :: c in b.captures && c.orderId == o.orderId ==> !c.status.ChargebackStatus?
    ensures Resolve(b, eng, cfg, o, hits, pool, m, cands) == ResolveCaptured(b, o, CapsOf(b, o.orderId), hits)
  {
    hide ResolveFuzzy, ResolveCaptured, OpenDisputes, IsRefundNetZero;
    FilterEmpty(CapsOf(b, o.orderId), IsChargeback);
  }

  lemma {:induction false} RefundedIsNegated(refunds: seq<Capture>)
    ensures RefundTotal(refunds) == -Sum(refunds, CaptureValue)
  {
    if refunds != [] {
      RefundedIsNegated(refunds[1..]);
      assert RefundTotal(refunds) == RefundedBy(refunds[0]) + RefundTotal(refunds[1..]);
    }
  }

  lemma SettledRow(b: Batch, o: Order, caps: seq<Capture>, hits: map<string, Hit>)
    requires Filter(caps, IsCaptured) != []
    ensures var v, captured, refunds := ResolveCaptured(b, o, caps, hits), Filter(caps, IsCaptured), Filter(caps, IsRefund);
            var sid := captured[0].settlementId;
            if sid !in hits then v.verdict.Ambiguous? && v.moneyReceivedPaise == 0
            else
              var delay := EngineDelta(LatestCapture(captured), hits[sid].credit.valueDate);
              && v.verdict == (if refunds != [] then PartiallyPaid else if delay <= 1 then SettledClean else SettledLate)
              && v.moneyReceivedPaise == o.amountPaise + Sum(refunds, CaptureValue) && v.deltaDuePaise == -Sum(refunds, CaptureValue)
              && v.evidence.passUsed == hits[sid].pass && v.evidence.automationPath.ExactPath?
              && hits[sid].credit.txnId in v.evidence.sourceRows
              && forall c :: c in captured || c in refunds ==> c.paymentId in v.evidence.sourceRows
  {
    hide LatestCapture, EngineDelta, Filter, RefundTotal, CoverageEnd;
    var captured, refunds := Filter(caps, IsCaptured), Filter(caps, IsRefund);
    RefundedIsNegated(refunds);
    NothingSummed();
    if captured[0].settlementId in hits {
      var ids := PaymentIds(captured + refunds);
      forall c | c in captured || c in refunds
        ensures c.paymentId in ids
      {
        var all := captured + refunds;
        assert c in all;
        var i :| 0 <= i < |all| && all[i] == c;
        assert ids[i] == c.paymentId;
      }
    }
  }

  lemma NothingSummed()
    ensures Sum([], CaptureValue) == 0
  {
  }

  // ------------------------------------------------------------ frozen, failed and unconfirmed orders

  /** Which rows a verdict on gateway rows and disputes cites, exactly. */
  lemma CitedRows(b: Batch, eng: Engine, cfg: Config, r: Run, o: Order)
    requires IsRun(b, eng, cfg, r) && o in b.orders
    ensures o.orderId in r.verdicts
    ensures var v := r.verdicts[o.orderId];
            && (v.verdict.ChargebackOpen? ==>
                  && v.evidence.automationPath.ExactPath?
                  && if Undisputed(b, o) then v.evidence.passUsed.GatewayStatus? && CitesExactly(b, o, v, IsChargeback)
                     else v.evidence.passUsed.FinanceEventDispute?
                          && forall id :: id in v.evidence.sourceRows
                               <==> exists e :: e in b.events && e.Dispute? && e.orderId == o.orderId && e.status.Open? && e.disputeId == id)
            && (v.verdict.FailedNotDebited? ==>
                  v.evidence.automationPath.ExactPath? && v.evidence.passUsed.GatewayStatus? && CitesExactly(b, o, v, IsFailed))
            && (v.evidence.passUsed.NoPass? ==> v.verdict.Ambiguous? && CitesExactly(b, o, v, IsCaptured))
            && (v.evidence.passUsed.NetArithmetic? ==> v.verdict.Ambiguous? && CitesExactly(b, o, v, IsLive))
  {
    hide IsRun, Resolve, CitesExactly, Undisputed, OpenDisputes, CapsOf, HitEvidence;
    RunVerdict(b, eng, cfg, r, o);
    UndisputedExactly(b, o);
    HitPasses(b, eng, cfg, r);
    AllLive(CapsOf(b, o.orderId));
    FrozenRow(b, eng, cfg, o, r.settled.hits, r.pool, MatchOf(r, o.orderId), CandsOf(r, o.orderId));
    OpenEvidence(b, eng, cfg, o, r.settled.hits, r.pool, MatchOf(r, o.orderId), CandsOf(r, o.orderId));
    ListedPayments(b, o, IsChargeback);
    ListedPayments(b, o, IsFailed);
    ListedPayments(b, o, IsCaptured);
    ListedPayments(b, o, IsLive);
    ListedDisputes(b, o);
  }

  lemma HitPasses(b: Batch, eng: Engine, cfg: Config, r: Run)
    requires IsRun(b, eng, cfg, r)
    ensures forall sid :: sid in r.settled.hits ==> IsSettlementPass(r.settled.hits[sid].pass)
  {
    hide IsEdgeTable, Resolve, Settle;
    forall sid | sid in r.settled.hits
      ensures IsSettlementPass(r.settled.hits[sid].pass)
    {
      HitsSound(b, eng, sid);
    }
  }

  /** The gateway rows of the order with this property, and no other row. */
  ghost predicate CitesExactly(b: Batch, o: Order, v: OrderVerdict, p: Capture -> bool) {
    forall id :: id in v.evidence.sourceRows
      <==> exists c :: c in b.captures && c.orderId == o.orderId && p(c) && c.paymentId == id
  }

  lemma ListedPayments(b: Batch, o: Order, p: Capture -> bool)
    ensures forall v: OrderVerdict :: v.evidence.sourceRows == PaymentIds(Filter(CapsOf(b, o.orderId), p)) ==> CitesExactly(b, o, v, p)
  {
    var caps := Filter(CapsOf(b, o.orderId), p);
    forall id
      ensures id in PaymentIds(caps) <==> exists c :: c in b.captures && c.orderId == o.orderId && p(c) && c.paymentId == id
    {
      if id in PaymentIds(caps) {
        var i :| 0 <= i < |caps| && PaymentIds(caps)[i] == id;
        assert caps[i] in caps;
      }
      if c :| c in b.captures && c.orderId == o.orderId && p(c) && c.paymentId == id {
        assert c in caps;
        var i :| 0 <= i < |caps| && caps[i] == c;
        assert PaymentIds(caps)[i] == id;
      }
    }
  }

  lemma ListedDisputes(b: Batch, o: Order)
    ensures forall id :: id in SortStrings(DisputeIds(OpenDisputes(b, o.orderId)))
              <==> exists e :: e in b.events && e.Dispute? && e.orderId == o.orderId && e.status.Open? && e.disputeId == id
  {
    var open := OpenDisputes(b, o.orderId);
    var ids := DisputeIds(open);
    SortElems(ids, StringLe);
    forall id
      ensures id in SortStrings(ids)
         <==> exists e :: e in b.events && e.Dispute? && e.orderId == o.orderId && e.status.Open? && e.disputeId == id
    {
      assert id in Elems(SortStrings(ids)) <==> id in Elems(ids);
      if id in ids {
        var i :| 0 <= i < |open| && ids[i] == id;
        assert open[i] in open;
      }
      if e :| e in b.events && e.Dispute? && e.orderId == o.orderId && e.status.Open? && e.disputeId == id {
        assert e in open;
        var i :| 0 <= i < |open| && open[i] == e;
        assert ids[i] == id;
      }
    }
  }

  lemma FrozenRow(b: Batch, eng: Engine, cfg: Config, o: Order, hits: map<string, Hit>, pool: seq<BankTxn>, m: Match,
                  cands: seq<Candidate>)
    requires o.amountPaise > 0
    ensures var v, caps := Resolve(b, eng, cfg, o, hits, pool, m, cands), CapsOf(b, o.orderId);
            && (v.verdict.ChargebackOpen? ==>
                  && v.evidence.automationPath.ExactPath?
                  && if OpenDisputes(b, o.orderId) == [] then
                       v.evidence.passUsed.GatewayStatus? && v.evidence.sourceRows == PaymentIds(Filter(caps, IsChargeback))
                     else v.evidence.passUsed.FinanceEventDispute?
                          && v.evidence.sourceRows == SortStrings(DisputeIds(OpenDisputes(b, o.orderId))))
            && (v.verdict.FailedNotDebited? ==>
                  v.evidence.automationPath.ExactPath? && v.evidence.passUsed.GatewayStatus?
                  && v.evidence.sourceRows == PaymentIds(Filter(caps, IsFailed)))
  {
    hide Filter, Classify, UtrCount, ResolveMatch, CoverageEnd, EngineDelta, FirstCredit, WeightOf, OpenDisputes,
         CapsOf, Sum, PaymentIds, Strongest, IsRefundNetZero, FuzzyEvidence, SortStrings, DisputeIds;
    MatchedNotFrozen(b, o);
  }

  lemma MatchedNotFrozen(b: Batch, o: Order)
    ensures forall t, e, netZero :: var v := ResolveMatch(b, o, t, e, netZero).verdict; !v.ChargebackOpen? && !v.FailedNotDebited?
  {
  }

  lemma OpenEvidence(b: Batch, eng: Engine, cfg: Config, o: Order, hits: map<string, Hit>, pool: seq<BankTxn>, m: Match,
                     cands: seq<Candidate>)
    requires o.amountPaise > 0 && forall sid :: sid in hits ==> IsSettlementPass(hits[sid].pass)
    ensures var v, caps := Resolve(b, eng, cfg, o, hits, pool, m, cands), CapsOf(b, o.orderId);
            && (v.evidence.passUsed.NoPass? ==> v.verdict.Ambiguous? && v.evidence.sourceRows == PaymentIds(Filter(caps, IsCaptured)))
            && (v.evidence.passUsed.NetArithmetic? ==>
                  v.verdict.Ambiguous? && v.evidence.sourceRows == PaymentIds(caps) && IsRefundNetZero(caps))
  {
    hide Filter, Classify, UtrCount, ResolveMatch, CoverageEnd, EngineDelta, FirstCredit, WeightOf, OpenDisputes,
         CapsOf, Sum, PaymentIds, Strongest, IsRefundNetZero, SortStrings, DisputeIds, RefundTotal, LatestCapture;
    MatchedPass(b, o);
  }

  lemma MatchedPass(b: Batch, o: Order)
    ensures forall t, e: Evidence, netZero :: e.passUsed.Pass4Fuzzy? ==>
              var p := ResolveMatch(b, o, t, e, netZero).evidence.passUsed; p.Pass4Fuzzy? || p.Pass4FuzzyTdsEvidence?
  {
  }

  lemma AllLive(caps: seq<Capture>)
    ensures (forall c :: c in caps ==> IsLive(c)) ==> Filter(caps, IsLive) == caps
  {
    if forall c :: c in caps ==> IsLive(c) {
      KeepsAll(caps, IsLive);
    }
  }

  lemma {:induction false} KeepsAll<T>(s: seq<T>, p: T -> bool)
    requires forall x :: x in s ==> p(x)
    ensures Filter(s, p) == s
  {
    if s != [] {
      assert s == [s[0]] + s[1..];
      KeepsAll(s[1..], p);
    }
  }
}
