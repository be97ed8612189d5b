/** Verdicts whose certificates are issued and refused: several open disputes, and a match that is classified away. */
module RefusalProofs {
  import opened Prelude
  import opened Dates
  import opened Models
  import opened Assignment
  import opened Enumeration
  import opened ComponentAssignment
  import opened Matching
  import opened Recon
  import opened ReconSafety
  import opened SourceRows
  import opened Certificates
  import opened Verifier
  import opened ProofCompleteness
  import opened SettlementProofs
  import opened Refunds
  import opened UnpaidProofs
  import opened FrozenProofs
  import Money

  // ------------------------------------------------------------ several open disputes

  function DisputedOrder(): Order { Order("o", "i", "c", "n", 100, Date(2025, 6, 1), Gateway) }

  function FirstDispute(): FinanceEvent { Dispute("d", "p", "o", 60, Open, Date(2025, 6, 2)) }

  function SecondDispute(): FinanceEvent { Dispute("e", "p", "o", 40, Open, Date(2025, 6, 3)) }

  /** An invoice of 100 with two open disputes over parts of it. */
  function TwoDisputes(): Batch { Batch([DisputedOrder()], [], [], [FirstDispute(), SecondDispute()]) }

  lemma TwoDisputesRows()
    ensures Validated(TwoDisputes()) && WellKeyed(RowsOf(TwoDisputes()))
    ensures OpenDisputes(TwoDisputes(), "o") == [FirstDispute(), SecondDispute()]
  {
    var rows := RowsOf(TwoDisputes());
    FilterTwo(FirstDispute(), SecondDispute(), OpenDisputeOf("o"));
    assert rows == [OrderRow(DisputedOrder()), EventRow(FirstDispute()), EventRow(SecondDispute())];
    assert RowId(rows[0]) == "o" && RowId(rows[1]) == "d" && RowId(rows[2]) == "e";
    assert RowIds(rows) == ["o", "d", "e"];
  }

  lemma DisputedBranch(b: Batch, eng: Engine, cfg: Config, o: Order, hits: map<string, Hit>, pool: seq<BankTxn>,
                       m: Match, cands: seq<Candidate>)
    requires o.amountPaise > 0 && OpenDisputes(b, o.orderId) != []
    ensures var v := Resolve(b, eng, cfg, o, hits, pool, m, cands);
            v.verdict.ChargebackOpen? && v.evidence.passUsed.FinanceEventDispute?
  {
  }

  /** Every run freezes an order with open disputes; with several of them the verifier accepts no certificate of it. */
  lemma ManyDisputesRejected(b: Batch, eng: Engine, cfg: Config, r: Run, o: Order, k: Check)
    requires IsRun(b, eng, cfg, r) && o in b.orders && |OpenDisputes(b, o.orderId)| > 1
    ensures o.orderId in r.verdicts
    ensures r.verdicts[o.orderId].verdict.ChargebackOpen? && r.verdicts[o.orderId].evidence.passUsed.FinanceEventDispute?
    ensures Fresh(k, o, r.verdicts[o.orderId]) && k.rows == RowsOf(b) ==> !Accepts(k)
  {
    hide IsRun, Fresh, Accepts, RowsOf, Resolve, OpenDisputes;
    RunVerdict(b, eng, cfg, r, o);
    DisputedBranch(b, eng, cfg, o, r.settled.hits, r.pool, MatchOf(r, o.orderId), CandsOf(r, o.orderId));
    if Fresh(k, o, r.verdicts[o.orderId]) && k.rows == RowsOf(b) {
      OtherAcceptedExactly(b, eng, cfg, r, o, k);
    }
  }

  /** The batch with two disputes, in every run. */
  lemma TwoDisputesRejected(eng: Engine, cfg: Config, r: Run, k: Check)
    requires IsRun(TwoDisputes(), eng, cfg, r)
    ensures Validated(TwoDisputes()) && WellKeyed(RowsOf(TwoDisputes())) && "o" in r.verdicts
    ensures r.verdicts["o"].verdict.ChargebackOpen? && r.verdicts["o"].evidence.passUsed.FinanceEventDispute?
    ensures Fresh(k, DisputedOrder(), r.verdicts["o"]) && k.rows == RowsOf(TwoDisputes()) ==> !Accepts(k)
  {
    hide IsRun, Fresh, Accepts, RowsOf, OpenDisputes, Validated, WellKeyed;
    TwoDisputesRows();
    ManyDisputesRejected(TwoDisputes(), eng, cfg, r, DisputedOrder(), k);
  }

  // ------------------------------------------------------------ a match that is classified away

  /** The assignment chose this credit without a tie, and the classifier holds it for no payment. */
  ghost predicate ClassifiedAway(b: Batch, eng: Engine, cfg: Config, r: Run, o: Order, t: BankTxn) {
    && PossiblePayment(b, eng, r, o, t) && UtrCount(b, t.utr) <= 1
    && MatchOf(r, o.orderId) == Match(Some(t.txnId), false)
    && o.amountPaise > 0 && Classify(eng, cfg, o, eng.score(o, t)).NonMatch?
  }

  lemma FuzzyUnpaidBranch(b: Batch, eng: Engine, cfg: Config, o: Order, hits: map<string, Hit>, pool: seq<BankTxn>,
                          m: Match, cands: seq<Candidate>)
    requires o.amountPaise > 0 && ChoiceListed(pool, m, cands)
    requires var v := Resolve(b, eng, cfg, o, hits, pool, m, cands);
             v.verdict.GenuinelyUnpaid? && v.evidence.passUsed.Pass4Fuzzy?
    ensures m.txn.Some? && !m.tie && UtrCount(b, FirstCredit(pool, WithId(m.txn.value)).value.utr) <= 1
    ensures Classify(eng, cfg, o, WeightOf(cands, m.txn.value).value).NonMatch?
  {
    hide Filter, Classify, UtrCount, FirstProof, Money.TdsRateBp, CoverageEnd, EngineDelta, IsRefundNetZero, FirstCredit,
         WeightOf;
  }

  lemma NonMatchBranch(b: Batch, eng: Engine, cfg: Config, o: Order, hits: map<string, Hit>, pool: seq<BankTxn>, t: BankTxn,
                       cands: seq<Candidate>)
    requires o.amountPaise > 0 && CapsOf(b, o.orderId) == [] && OpenDisputes(b, o.orderId) == []
    requires FirstCredit(pool, WithId(t.txnId)) == Some(t) && WeightOf(cands, t.txnId).Some? && UtrCount(b, t.utr) <= 1
    requires Classify(eng, cfg, o, WeightOf(cands, t.txnId).value).NonMatch?
    ensures var v := Resolve(b, eng, cfg, o, hits, pool, Match(Some(t.txnId), false), cands);
            v.verdict.GenuinelyUnpaid? && v.evidence.passUsed.Pass4Fuzzy?
  {
    hide Classify, UtrCount, FirstProof, Money.TdsRateBp, CoverageEnd, EngineDelta, FirstCredit, WeightOf, OpenDisputes, CapsOf;
  }

  /** An order without gateway rows is unpaid after a match exactly when the match was classified away. */
  lemma UnpaidAfterMatchExactly(b: Batch, eng: Engine, cfg: Config, r: Run, o: Order)
    requires IsRun(b, eng, cfg, r) && o in b.orders && CapsOf(b, o.orderId) == [] && OpenDisputes(b, o.orderId) == []
    ensures o.orderId in r.verdicts
    ensures r.verdicts[o.orderId].verdict.GenuinelyUnpaid? && r.verdicts[o.orderId].evidence.passUsed.Pass4Fuzzy?
       <==> exists t :: ClassifiedAway(b, eng, cfg, r, o, t)
  {
    hide IsRun, Resolve, Classify, UtrCount, WeightOf, FirstCredit, CandidatesOf, PossiblePayment, OpenDisputes, CapsOf;
    RunVerdict(b, eng, cfg, r, o);
    if r.verdicts[o.orderId].verdict.GenuinelyUnpaid? && r.verdicts[o.orderId].evidence.passUsed.Pass4Fuzzy? {
      var t := UnpaidAfterMatch(b, eng, cfg, r, o);
    }
    if t :| ClassifiedAway(b, eng, cfg, r, o, t) {
      AwayIsUnpaid(b, eng, cfg, r, o, t);
    }
  }

  lemma UnpaidAfterMatch(b: Batch, eng: Engine, cfg: Config, r: Run, o: Order) returns (t: BankTxn)
    requires IsRun(b, eng, cfg, r) && o in b.orders
    requires r.verdicts[o.orderId].verdict.GenuinelyUnpaid? && r.verdicts[o.orderId].evidence.passUsed.Pass4Fuzzy?
    ensures ClassifiedAway(b, eng, cfg, r, o, t)
  {
    hide IsRun, Resolve, Classify, UtrCount, WeightOf, FirstCredit, CandidatesOf, ExplainedAmount, CandidateAmounts;
    RunVerdict(b, eng, cfg, r, o);
    FuzzyUnpaidBranch(b, eng, cfg, o, r.settled.hits, r.pool, MatchOf(r, o.orderId), CandsOf(r, o.orderId));
    t := ChosenCredit(b, eng, cfg, r, o);
    CandidateAmountMembers(b, o, t.amountPaise);
    AssignedAreFuzzy(b, eng, cfg, r, o);
    PossibleIsListed(b, eng, cfg, r, o, t);
  }

  lemma AwayIsUnpaid(b: Batch, eng: Engine, cfg: Config, r: Run, o: Order, t: BankTxn)
    requires IsRun(b, eng, cfg, r) && o in b.orders && CapsOf(b, o.orderId) == [] && OpenDisputes(b, o.orderId) == []
    requires ClassifiedAway(b, eng, cfg, r, o, t)
    ensures o.orderId in r.verdicts
    ensures r.verdicts[o.orderId].verdict.GenuinelyUnpaid? && r.verdicts[o.orderId].evidence.passUsed.Pass4Fuzzy?
  {
    hide IsRun, Resolve, Classify, UtrCount, WeightOf, FirstCredit, CandidatesOf, PossiblePayment, OpenDisputes, CapsOf;
    RunVerdict(b, eng, cfg, r, o);
    AssignedAreFuzzy(b, eng, cfg, r, o);
    PossibleIsListed(b, eng, cfg, r, o, t);
    RunPool(b, eng, cfg, r);
    FoundInPool(r.pool, t);
    NonMatchBranch(b, eng, cfg, o, r.settled.hits, r.pool, t, CandsOf(r, o.orderId));
  }

  /** A match classified away scores beyond the tie margin and is still held less likely than not. */
  lemma AwayNeedsDoubt(b: Batch, eng: Engine, cfg: Config, r: Run, o: Order, t: BankTxn)
    requires IsRun(b, eng, cfg, r) && o in b.orders && ClassifiedAway(b, eng, cfg, r, o, t)
    ensures eng.score(o, t) > TIE_MARGIN_POINTS && eng.pMatch(eng.score(o, t)) < 0.5
  {
    hide UtrCount, CandidatesOf, ScoreTable, WeightOf, PossiblePayment, MatchSpec, Resolve, Settle, FuzzyPool, CostFloor;
    AssignedAreFuzzy(b, eng, cfg, r, o);
    PossibleIsListed(b, eng, cfg, r, o, t);
    UnflaggedBeatsMargin(WeightsOf(r.table.cands), r.assignment, o.orderId);
  }

  /** A probability that is at least a half for every score beyond the margin never classifies a match away. */
  lemma SureEngineNeverClassifiesAway(b: Batch, eng: Engine, cfg: Config, r: Run, o: Order)
    requires IsRun(b, eng, cfg, r) && o in b.orders
    requires forall w :: w > TIE_MARGIN_POINTS ==> eng.pMatch(w) >= 0.5
    ensures o.orderId in r.verdicts
    ensures !(r.verdicts[o.orderId].verdict.GenuinelyUnpaid? && r.verdicts[o.orderId].evidence.passUsed.Pass4Fuzzy?)
  {
    hide IsRun, ClassifiedAway;
    RunVerdict(b, eng, cfg, r, o);
    if r.verdicts[o.orderId].verdict.GenuinelyUnpaid? && r.verdicts[o.orderId].evidence.passUsed.Pass4Fuzzy? {
      var t := UnpaidAfterMatch(b, eng, cfg, r, o);
      AwayNeedsDoubt(b, eng, cfg, r, o, t);
    }
  }

  // ------------------------------------------------------------ an input

  function SearchedOrder(): Order { Order("o", "i", "c", "n", 100_000, Date(2025, 6, 1), BankTransfer) }

  function WholeCredit(): BankTxn { BankTxn("t", Date(2025, 6, 4), 100_000, true, "u", "n", 0) }

  /** An invoice without gateway rows, and one free credit of exactly its amount. */
  function OneCandidate(): Batch { Batch([SearchedOrder()], [], [WholeCredit()], []) }

  lemma OneCandidateRows()
    ensures Validated(OneCandidate()) && WellKeyed(RowsOf(OneCandidate()))
    ensures CapsOf(OneCandidate(), "o") == [] && OpenDisputes(OneCandidate(), "o") == []
    ensures Credits(OneCandidate()) == [WholeCredit()] && UtrCount(OneCandidate(), "u") == 1
    ensures SettlementIds(OneCandidate().captures) == []
  {
    var rows := RowsOf(OneCandidate());
    FilterOne(WholeCredit(), IsCredit);
    FilterOne(WholeCredit(), WithUtr("u"));
    assert rows == [OrderRow(SearchedOrder()), BankRow(WholeCredit())];
    assert RowId(rows[0]) == "o" && RowId(rows[1]) == "t";
    assert RowIds(rows) == ["o", "t"];
  }

  lemma OneCandidateAway(eng: Engine, cfg: Config, r: Run)
    requires IsRun(OneCandidate(), eng, cfg, r) && !eng.namesSettlement("n")
    requires eng.score(SearchedOrder(), WholeCredit()) > TIE_MARGIN_POINTS
    requires Classify(eng, cfg, SearchedOrder(), eng.score(SearchedOrder(), WholeCredit())).NonMatch?
    ensures ClassifiedAway(OneCandidate(), eng, cfg, r, SearchedOrder(), WholeCredit())
  {
    hide OverCap, UtrCount, CapsOf, OpenDisputes, Credits, SettlementIds, IsEdgeTable, MatchSpec, Resolve, Classify, RowsOf,
         WellKeyed, Outstanding;
    var b, o, t := OneCandidate(), SearchedOrder(), WholeCredit();
    OneCandidateRows();
    assert Settle(b, eng).consumed == {};
    assert ExplainedAmount(b, o, 100_000);
    OneEdgeIsUncapped(b, eng, cfg, r, o, t);
    assert Favours(b, eng, o, t);
    FavouredStandsOut(b, eng, cfg, r, o, t);
    AssignedAreFuzzy(b, eng, cfg, r, o);
    OutstandingIsChosen(WeightsOf(r.table.cands), r.assignment, "o", "t");
  }

  /** Every run that scores the credit beyond the margin and classifies it away calls the order unpaid, unverifiably. */
  lemma ClassifiedAwayRejected(eng: Engine, cfg: Config, r: Run, k: Check)
    requires IsRun(OneCandidate(), eng, cfg, r) && !eng.namesSettlement("n")
    requires eng.score(SearchedOrder(), WholeCredit()) > TIE_MARGIN_POINTS
    requires Classify(eng, cfg, SearchedOrder(), eng.score(SearchedOrder(), WholeCredit())).NonMatch?
    ensures Validated(OneCandidate()) && WellKeyed(RowsOf(OneCandidate())) && "o" in r.verdicts
    ensures r.verdicts["o"].verdict.GenuinelyUnpaid? && r.verdicts["o"].evidence.passUsed.Pass4Fuzzy?
    ensures Fresh(k, SearchedOrder(), r.verdicts["o"]) && k.rows == RowsOf(OneCandidate()) ==> !Accepts(k)
  {
    hide IsRun, Fresh, Accepts, RowsOf, OpenDisputes, CapsOf, Validated, WellKeyed, ClassifiedAway, Classify;
    OneCandidateRows();
    OneCandidateAway(eng, cfg, r);
    AwayIsUnpaid(OneCandidate(), eng, cfg, r, SearchedOrder(), WholeCredit());
    if Fresh(k, SearchedOrder(), r.verdicts["o"]) && k.rows == RowsOf(OneCandidate()) {
      UnpaidAcceptedExactly(OneCandidate(), eng, cfg, r, SearchedOrder(), k);
    }
  }
}
