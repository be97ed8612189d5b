/** Refunded orders: when a repayment is the whole invoice, and when a refund alone leads to a chase. */
module Refunds {
  import opened Prelude
  import opened Dates
  import opened Models
  import opened Money
  import opened Assignment
  import opened Enumeration
  import opened ComponentAssignment
  import opened Components
  import opened Connectivity
  import opened Matching
  import opened Recon
  import opened ReconSafety
  import opened SourceRows
  import opened Certificates
  import opened Verifier
  import opened ProofSoundness
  import opened ProofCompleteness
  import opened SettlementProofs
  import Conformal
  import Policy

  // ------------------------------------------------------------ what a repayment is

  /** The order's rows are refunded in full, nothing is disputed, and its component is under the cap. */
  ghost predicate Repayable(b: Batch, r: Run, o: Order) {
    && IsRefundNetZero(CapsOf(b, o.orderId)) && OpenDisputes(b, o.orderId) == []
    && !OverCap(WeightsOf(r.table.cands), o.orderId)
  }

  /** A credit a repayment may rest on: a possible payment whose UTR the statement does not repeat. */
  ghost predicate PossibleRepayment(b: Batch, eng: Engine, r: Run, o: Order, t: BankTxn) {
    PossiblePayment(b, eng, r, o, t) && UtrCount(b, t.utr) <= 1
  }

  lemma ChosenIsUncapped(w: Weights, out: map<string, Match>, o: string)
    requires MatchSpec(w, out) && o in w && out[o].txn.Some?
    ensures !OverCap(w, o)
  {
    hide OverCap, Contested, Optimal;
  }

  /** Every repayment of every run is one possible payment, received to the paisa. */
  lemma RepaidReceipt(b: Batch, eng: Engine, cfg: Config, r: Run, o: Order) returns (t: BankTxn)
    requires IsRun(b, eng, cfg, r) && o in b.orders && r.verdicts[o.orderId].verdict.RefundedThenRepaid?
    ensures Repayable(b, r, o) && PossibleRepayment(b, eng, r, o, t)
    ensures r.verdicts[o.orderId].moneyReceivedPaise == t.amountPaise
    ensures r.verdicts[o.orderId].evidence.sourceRows == [t.txnId]
  {
    hide Resolve, ExplainedAmount, OverCap, UtrCount, IsRefundNetZero, FuzzyEvidence, MatchSpec, IsEdgeTable;
    var e: Evidence;
    t, e := PaidByMatch(b, eng, cfg, r, o);
    RepaidIsNetZero(b, o, t, e, IsRefundNetZero(CapsOf(b, o.orderId)));
    AssignedAreFuzzy(b, eng, cfg, r, o);
    ChosenIsUncapped(WeightsOf(r.table.cands), r.assignment, o.orderId);
  }

  lemma RepaidIsNetZero(b: Batch, o: Order, t: BankTxn, e: Evidence, netZero: bool)
    requires ResolveMatch(b, o, t, e, netZero).verdict.RefundedThenRepaid?
    ensures netZero && ResolveMatch(b, o, t, e, netZero).moneyReceivedPaise == t.amountPaise
    ensures ResolveMatch(b, o, t, e, netZero).evidence == e
  {
  }

  // ------------------------------------------------------------ every possible repayment can be chosen

  /** The engine scores this pair beyond the tie margin and every other pair not at all. */
  ghost predicate Favours(b: Batch, eng: Engine, o: Order, t: BankTxn) {
    && eng.score(o, t) > TIE_MARGIN_POINTS
    && forall p, u :: p in b.orders && u in b.bank && !(p == o && u == t) ==> eng.score(p, u) <= 0.0
  }

  lemma CandidateAt(b: Batch, eng: Engine, pool: seq<BankTxn>, o: Order, i: nat)
    requires IdsUnique(pool) && i < |CandidateTxns(CandidateAmounts(b, o), pool)|
    ensures var u, cands := CandidateTxns(CandidateAmounts(b, o), pool)[i], CandidatesOf(b, eng, pool, o);
            && u in pool && u.txnId in ScoreTable(cands) && ScoreTable(cands)[u.txnId] == eng.score(o, u)
            && WeightOf(cands, u.txnId) == Some(eng.score(o, u))
  {
    hide CandidateAmounts, CandidateTxns, ScoreTable, IdsUnique;
    var txns, cands := CandidateTxns(CandidateAmounts(b, o), pool), CandidatesOf(b, eng, pool, o);
    CandidateListValid(b, eng, pool, o);
    ScoreTableAt(cands, i);
    assert cands[i] == Candidate(txns[i].txnId, eng.score(o, txns[i]));
    assert txns[i] in txns;
    CandidateTxnMembers(CandidateAmounts(b, o), pool, txns[i]);
    assert cands[i] in cands;
    var c :| c in cands && c.txn == txns[i].txnId && c.weight == WeightOf(cands, txns[i].txnId).value;
    var k :| 0 <= k < |cands| && cands[k] == c;
    assert TxnsOf(cands)[k] == TxnsOf(cands)[i];
  }

  /** What a listed credit weighs is what the engine scores for one pool row with that id. */
  lemma WeightIsScore(b: Batch, eng: Engine, pool: seq<BankTxn>, o: Order, id: string) returns (u: BankTxn)
    requires IdsUnique(pool) && id in ScoreTable(CandidatesOf(b, eng, pool, o))
    ensures u in pool && u.txnId == id && ScoreTable(CandidatesOf(b, eng, pool, o))[id] == eng.score(o, u)
  {
    hide CandidateAmounts, CandidateTxns, IdsUnique;
    var cands := CandidatesOf(b, eng, pool, o);
    ScoreTableKeys(cands);
    var i :| 0 <= i < |cands| && TxnsOf(cands)[i] == id;
    CandidateAt(b, eng, pool, o, i);
    u := CandidateTxns(CandidateAmounts(b, o), pool)[i];
  }

  lemma PossibleIsListed(b: Batch, eng: Engine, cfg: Config, r: Run, o: Order, t: BankTxn)
    requires IsRun(b, eng, cfg, r) && PossiblePayment(b, eng, r, o, t)
    ensures var cands := CandidatesOf(b, eng, r.pool, o);
            && t in r.pool && t.txnId in ScoreTable(cands) && ScoreTable(cands)[t.txnId] == eng.score(o, t)
            && WeightOf(cands, t.txnId) == Some(eng.score(o, t))
  {
    hide CandidateAmounts, ExplainedAmount, CandidatesOf, ScoreTable, WeightOf, IdsUnique;
    RunPool(b, eng, cfg, r);
    CandidateAmountMembers(b, o, t.amountPaise);
    CandidateTxnMembers(CandidateAmounts(b, o), r.pool, t);
    var txns := CandidateTxns(CandidateAmounts(b, o), r.pool);
    var i :| 0 <= i < |txns| && txns[i] == t;
    CandidateAt(b, eng, r.pool, o, i);
  }

  lemma FavouredStandsOut(b: Batch, eng: Engine, cfg: Config, r: Run, o: Order, t: BankTxn)
    requires IsRun(b, eng, cfg, r) && o in b.orders && NeedsFuzzy(b)(o)
    requires PossiblePayment(b, eng, r, o, t) && Favours(b, eng, o, t)
    ensures Outstanding(WeightsOf(r.table.cands), o.orderId, t.txnId)
  {
    hide CandidatesOf, ScoreTable, PossiblePayment, IsRefundNetZero, MatchSpec, IdsUnique, FuzzyPool, WeightOf;
    var w := WeightsOf(r.table.cands);
    RunPool(b, eng, cfg, r);
    AssignedAreFuzzy(b, eng, cfg, r, o);
    PossibleIsListed(b, eng, cfg, r, o, t);
    forall p, u | p in w && u in w[p] && !(p == o.orderId && u == t.txnId)
      ensures w[p][u] <= 0.0
    {
      var order := OrderById(FuzzyOrders(b), p);
      AssignedAreFuzzy(b, eng, cfg, r, order);
      var txn := WeightIsScore(b, eng, r.pool, order, u);
      PoolMember(b, eng, r.settled.consumed, txn);
      if order == o && txn == t {
        assert false;
      }
    }
  }

  lemma NetZeroIsLive(caps: seq<Capture>)
    requires IsRefundNetZero(caps)
    ensures Filter(caps, IsChargeback) == [] && Filter(caps, IsFailed) == [] && caps != []
  {
    hide Sum;
    FilterEmpty(caps, IsChargeback);
    FilterEmpty(caps, IsFailed);
  }

  lemma RepaidBranch(b: Batch, eng: Engine, cfg: Config, o: Order, hits: map<string, Hit>, pool: seq<BankTxn>, t: BankTxn,
                     cands: seq<Candidate>)
    requires o.amountPaise > 0 && IsRefundNetZero(CapsOf(b, o.orderId)) && OpenDisputes(b, o.orderId) == []
    requires FirstCredit(pool, WithId(t.txnId)) == Some(t) && WeightOf(cands, t.txnId).Some? && UtrCount(b, t.utr) <= 1
    requires Classify(eng, cfg, o, WeightOf(cands, t.txnId).value).IsMatch?
    ensures var v := Resolve(b, eng, cfg, o, hits, pool, Match(Some(t.txnId), false), cands);
            v.verdict.RefundedThenRepaid? && v.moneyReceivedPaise == t.amountPaise
  {
    hide Filter, Classify, UtrCount, FirstProof, TdsRateBp, CoverageEnd, EngineDelta, IsRefundNetZero, FirstCredit,
         WeightOf;
    NetZeroIsLive(CapsOf(b, o.orderId));
  }

  /** A favoured and classified credit repays the order, whatever it is short of the invoice. */
  lemma FavouredIsRepaid(b: Batch, eng: Engine, cfg: Config, r: Run, o: Order, t: BankTxn)
    requires IsRun(b, eng, cfg, r) && o in b.orders && Repayable(b, r, o)
    requires PossibleRepayment(b, eng, r, o, t) && Favours(b, eng, o, t) && o.amountPaise > 0
    requires Classify(eng, cfg, o, eng.score(o, t)).IsMatch?
    ensures r.verdicts[o.orderId].verdict.RefundedThenRepaid? && r.verdicts[o.orderId].moneyReceivedPaise == t.amountPaise
  {
    hide Resolve, IsRefundNetZero, IsEdgeTable, Outstanding, OverCap, UtrCount, Favours, Classify, CandidatesOf,
         WeightOf, PossiblePayment;
    FavouredStandsOut(b, eng, cfg, r, o, t);
    OutstandingIsChosen(WeightsOf(r.table.cands), r.assignment, o.orderId, t.txnId);
    PossibleIsListed(b, eng, cfg, r, o, t);
    AssignedAreFuzzy(b, eng, cfg, r, o);
    RunVerdict(b, eng, cfg, r, o);
    RunPool(b, eng, cfg, r);
    FoundInPool(r.pool, t);
    RepaidBranch(b, eng, cfg, o, r.settled.hits, r.pool, t, CandsOf(r, o.orderId));
  }

  // ------------------------------------------------------------ when the receipt is the invoice

  /** Two engines that read narrations alike; scores and probabilities may differ. */
  ghost predicate SameReading(a: Engine, b: Engine) {
    a.settlementOf == b.settlementOf && a.namesSettlement == b.namesSettlement
  }

  /** An engine of the same reading that is certain of one pair. */
  ghost function Favouring(eng: Engine, o: Order, t: BankTxn): (e: Engine)
    ensures SameReading(eng, e)
  {
    eng.(score := (p: Order, u: BankTxn) => if p == o && u == t then 10.0 else 0.0, pMatch := (w: real) => 1.0)
  }

  const EXACT_CONFIG := Config(Conformal.FALLBACK_Q_HAT, None, None)

  lemma CertainIsMatch(eng: Engine, o: Order, t: BankTxn)
    requires o.amountPaise > 0
    ensures Classify(Favouring(eng, o, t), EXACT_CONFIG, o, Favouring(eng, o, t).score(o, t)).IsMatch?
  {
    assert CostFloor(o.amountPaise) <= 1.0 by {
      ShareAtMostOne(MissedCost(o.amountPaise), Policy.COST_WRONG_CHASE_PAISE);
    }
  }

  lemma ShareAtMostOne(part: int, rest: int)
    requires part >= 0 && rest > 0
    ensures part as real / (part + rest) as real <= 1.0
  {
    var q, whole := part as real / (part + rest) as real, (part + rest) as real;
    assert q * whole == part as real;
    assert (1.0 - q) * whole == whole - part as real;
    PositiveFactor(1.0 - q, whole);
  }

  lemma PositiveFactor(x: real, y: real)
    requires y > 0.0 && x * y >= 0.0
    ensures x >= 0.0
  {
  }

  /** Which credits are possible payments, and which components are capped, does not depend on the scores. */
  lemma SameReadingSameGraph(b: Batch, a: Engine, c: Config, r: Run, e: Engine, d: Config, s: Run, o: Order)
    requires SameReading(a, e) && IsRun(b, a, c, r) && IsRun(b, e, d, s)
    ensures r.settled.consumed == s.settled.consumed && r.pool == s.pool
    ensures forall t :: PossiblePayment(b, a, r, o, t) <==> PossiblePayment(b, e, s, o, t)
    ensures Repayable(b, r, o) <==> Repayable(b, s, o)
  {
    hide IsRefundNetZero, ExplainedAmount, CandidatesOf, MatchSpec, OverCap, Resolve;
    SettleReads(b, a, e, SettlementIds(b.captures));
    PoolReads(b, a, e, r.settled.consumed);
    TableReads(b, a, e, r.pool, r.table, s.table);
    CapIgnoresScores(WeightsOf(r.table.cands), WeightsOf(s.table.cands), o.orderId);
  }

  lemma {:induction false} SettleReads(b: Batch, a: Engine, e: Engine, sids: seq<string>)
    requires SameReading(a, e) && forall sid :: sid in sids ==> GroupOf(b, sid) != []
    ensures SettleUpTo(b, a, sids) == SettleUpTo(b, e, sids)
  {
    if sids != [] {
      SettleReads(b, a, e, sids[..|sids| - 1]);
      NamingReads(a, e, Credits(b), sids[|sids| - 1]);
    }
  }

  lemma {:induction false} NamingReads(a: Engine, e: Engine, credits: seq<BankTxn>, sid: string)
    requires SameReading(a, e)
    ensures CreditNaming(a, credits, sid) == CreditNaming(e, credits, sid)
  {
    if credits != [] {
      NamingReads(a, e, credits[..|credits| - 1], sid);
    }
  }

  lemma PoolReads(b: Batch, a: Engine, e: Engine, consumed: set<string>)
    requires SameReading(a, e)
    ensures FuzzyPool(b, a, consumed) == FuzzyPool(b, e, consumed)
  {
    FilterAgree(Credits(b), InPool(a, consumed), InPool(e, consumed));
  }

  lemma TableReads(b: Batch, a: Engine, e: Engine, pool: seq<BankTxn>, t: EdgeTable, u: EdgeTable)
    requires IsEdgeTable(b, a, pool, t) && IsEdgeTable(b, e, pool, u)
    ensures WeightsOf(t.cands).Keys == WeightsOf(u.cands).Keys
    ensures forall p :: p in WeightsOf(t.cands) ==> WeightsOf(t.cands)[p].Keys == WeightsOf(u.cands)[p].Keys
  {
    hide CandidatesOf, ScoreTable, NeedsFuzzy;
    forall p | p in t.cands
      ensures p in u.cands && ScoreTable(t.cands[p]).Keys == ScoreTable(u.cands[p]).Keys
    {
      var o := OrderById(FuzzyOrders(b), p);
      ScoreTableKeys(t.cands[p]);
      ScoreTableKeys(u.cands[p]);
      SameCandidates(b, a, e, pool, o);
    }
  }

  lemma SameCandidates(b: Batch, a: Engine, e: Engine, pool: seq<BankTxn>, o: Order)
    ensures TxnsOf(CandidatesOf(b, a, pool, o)) == TxnsOf(CandidatesOf(b, e, pool, o))
  {
    hide CandidateTxns, CandidateAmounts;
  }

  /** One run in which the order counts as repaid by less than its invoice, or by more. */
  ghost predicate RepaidOddly(b: Batch, e: Engine, c: Config, s: Run, o: Order) {
    && IsRun(b, e, c, s) && o in b.orders
    && s.verdicts[o.orderId].verdict.RefundedThenRepaid? && s.verdicts[o.orderId].moneyReceivedPaise != o.amountPaise
  }

  /** The feed holds a possible repayment that is not the invoice, for an order that can be repaid at all. */
  ghost predicate Exposed(b: Batch, eng: Engine, r: Run, o: Order) {
    Repayable(b, r, o) && exists t :: PossibleRepayment(b, eng, r, o, t) && t.amountPaise != o.amountPaise
  }

  /**
   * Whatever the scores: a repaid order received its invoice in every run exactly when its batch holds no possible
   * repayment of another amount. The run r only names what was consumed and which components are capped.
   */
  lemma RepaidIsInvoiceExactly(b: Batch, eng: Engine, cfg: Config, r: Run, o: Order)
    requires IsRun(b, eng, cfg, r) && o in b.orders
    ensures (exists e, c, s :: SameReading(eng, e) && RepaidOddly(b, e, c, s, o)) <==> Exposed(b, eng, r, o)
  {
    hide IsRun, PossiblePayment, UtrCount, Repayable, Favours, Classify, Favouring;
    if e, c, s :| SameReading(eng, e) && RepaidOddly(b, e, c, s, o) {
      var t := RepaidReceipt(b, e, c, s, o);
      SameReadingSameGraph(b, eng, cfg, r, e, c, s, o);
      assert PossibleRepayment(b, eng, r, o, t);
    }
    if Exposed(b, eng, r, o) {
      var t :| PossibleRepayment(b, eng, r, o, t) && t.amountPaise != o.amountPaise;
      var s := ExposedRun(b, eng, cfg, r, o, t);
      assert RepaidOddly(b, Favouring(eng, o, t), EXACT_CONFIG, s, o);
    }
  }

  lemma ExposedRun(b: Batch, eng: Engine, cfg: Config, r: Run, o: Order, t: BankTxn) returns (s: Run)
    requires IsRun(b, eng, cfg, r) && o in b.orders && Repayable(b, r, o) && PossibleRepayment(b, eng, r, o, t)
    ensures IsRun(b, Favouring(eng, o, t), EXACT_CONFIG, s)
    ensures s.verdicts[o.orderId].verdict.RefundedThenRepaid? && s.verdicts[o.orderId].moneyReceivedPaise == t.amountPaise
  {
    hide IsRun, PossiblePayment, UtrCount, Repayable, Favours, Classify, Favouring;
    var e := Favouring(eng, o, t);
    RunIsValidated(b, eng, cfg, r);
    assert ValidOrder(o);
    s := RunExists(b, e, EXACT_CONFIG);
    SameReadingSameGraph(b, eng, cfg, r, e, EXACT_CONFIG, s, o);
    CertainIsMatch(eng, o, t);
    FavouringFavours(b, eng, o, t);
    FavouredIsRepaid(b, e, EXACT_CONFIG, s, o, t);
  }

  lemma FavouringFavours(b: Batch, eng: Engine, o: Order, t: BankTxn)
    ensures Favours(b, Favouring(eng, o, t), o, t)
  {
  }

  /** The verifier refuses every certificate of a repayment that is not the invoice. */
  lemma OddRepaymentRejected(b: Batch, eng: Engine, cfg: Config, r: Run, o: Order, k: Check)
    requires RepaidOddly(b, eng, cfg, r, o) && Fresh(k, o, r.verdicts[o.orderId])
    ensures !Accepts(k)
  {
    hide IsRun, Fresh, Accepts, InvoiceOf, Claims, ClaimedCredits, ClaimedCaptures, OrderCaptures;
    RunVerdict(b, eng, cfg, r, o);
    var v := r.verdicts[o.orderId];
    FreshRules(k, o, v);
    FreshSources(k, o, v);
    FreshAmounts(k, o, v);
    if Accepts(k) {
      ClaimsRepaid(k);
      AcceptedScoredRule(k);
    }
  }

  lemma ClaimsRepaid(k: Check)
    requires k.cert.claim.verdict == KnownVerdict(RefundedThenRepaid)
    ensures ClaimsScoredVerdict(k) && Claims(k, RefundedThenRepaid) && !Claims(k, PaidNetOfTds)
  {
  }

  // ------------------------------------------------------------ a short repayment

  function ShortOrder(): Order { Order("o", "i", "c", "n", 100_000, Date(2025, 6, 1), Gateway) }

  function ShortCapture(): Capture { Capture("p", "o", 100_000, 0, 0, Captured, Date(2025, 6, 1), "", "") }

  function ShortRefund(): Capture { Capture("q", "o", -100_000, 0, 0, RefundStatus, Date(2025, 6, 2), "", "") }

  function ShortCredit(): BankTxn { BankTxn("t", Date(2025, 6, 3), 99_000, true, "u", "n", 0) }

  /** An invoice captured and refunded in full, and a free credit one per cent short of it. */
  function ShortRepayment(): Batch { Batch([ShortOrder()], [ShortCapture(), ShortRefund()], [ShortCredit()], []) }

  lemma ShortRows()
    ensures Validated(ShortRepayment())
    ensures CapsOf(ShortRepayment(), "o") == [ShortCapture(), ShortRefund()] && OpenDisputes(ShortRepayment(), "o") == []
    ensures Credits(ShortRepayment()) == [ShortCredit()] && UtrCount(ShortRepayment(), "u") == 1
    ensures SettlementIds(ShortRepayment().captures) == []
  {
    var c, d, t := ShortCapture(), ShortRefund(), ShortCredit();
    FilterTwo(c, d, OfOrder("o"));
    FilterOne(t, IsCredit);
    FilterOne(t, WithUtr("u"));
    assert [c, d][..1] == [c] && [c][..0] == [];
    assert SettlementIds([c]) == [];
  }

  lemma ShortIsNetZero()
    ensures IsRefundNetZero([ShortCapture(), ShortRefund()])
  {
    var c, d := ShortCapture(), ShortRefund();
    SumFew(c, d, d, NetOf);
    assert IsRefund(d) && d in [c, d];
  }

  lemma ShortAmountIsExplained()
    ensures ExplainedAmount(ShortRepayment(), ShortOrder(), 99_000)
  {
    assert 100 in STATUTORY_TDS_RATES_BP && PctBp(100_000, 100) == 1_000;
  }

  /** One order and one credit make at most one edge. */
  lemma OneEdgeIsUncapped(b: Batch, eng: Engine, cfg: Config, r: Run, o: Order, t: BankTxn)
    requires IsRun(b, eng, cfg, r) && b.orders == [o] && b.bank == [t]
    ensures !OverCap(WeightsOf(r.table.cands), o.orderId)
  {
    hide CandidatesOf, ScoreTable, MatchSpec, NeedsFuzzy, Resolve, IdsUnique, Linked;
    var w := WeightsOf(r.table.cands);
    var edge := (OrderNode(o.orderId), TxnNode(t.txnId));
    RunPool(b, eng, cfg, r);
    forall e | e in ComponentLinks(w, o.orderId)
      ensures e in {edge}
    {
      var p, u :| p in w.Keys && u in w[p].Keys && e == (OrderNode(p), TxnNode(u));
      var order := OrderById(FuzzyOrders(b), p);
      AssignedAreFuzzy(b, eng, cfg, r, order);
      var txn := WeightIsScore(b, eng, r.pool, order, u);
      PoolMember(b, eng, r.settled.consumed, txn);
    }
    assert ComponentLinks(w, o.orderId) <= {edge};
    FewElements(ComponentLinks(w, o.orderId), {edge});
  }

  lemma FewElements<T>(a: set<T>, b: set<T>)
    requires a <= b
    ensures |a| <= |b|
  {
    assert |b - a| == |b| - |a|;
  }

  lemma ShortIsKeyed()
    ensures WellKeyed(RowsOf(ShortRepayment()))
  {
    var rows := RowsOf(ShortRepayment());
    assert rows == [OrderRow(ShortOrder()), CaptureRow(ShortCapture()), CaptureRow(ShortRefund()), BankRow(ShortCredit())];
    assert RowId(rows[0]) == "o" && RowId(rows[1]) == "p" && RowId(rows[2]) == "q" && RowId(rows[3]) == "t";
    assert RowIds(rows) == ["o", "p", "q", "t"];
  }

  lemma ShortIsExposed(eng: Engine, cfg: Config, r: Run)
    requires IsRun(ShortRepayment(), eng, cfg, r) && !eng.namesSettlement("n")
    ensures Repayable(ShortRepayment(), r, ShortOrder())
    ensures PossibleRepayment(ShortRepayment(), eng, r, ShortOrder(), ShortCredit())
    ensures Exposed(ShortRepayment(), eng, r, ShortOrder())
  {
    hide OverCap, IsRefundNetZero, UtrCount, ExplainedAmount, CapsOf, OpenDisputes, Credits, SettlementIds,
         IsEdgeTable, MatchSpec, Resolve;
    ShortRows();
    ShortIsNetZero();
    ShortAmountIsExplained();
    OneEdgeIsUncapped(ShortRepayment(), eng, cfg, r, ShortOrder(), ShortCredit());
    assert Settle(ShortRepayment(), eng).consumed == {};
  }

  /**
   * Every run that scores and classifies the short credit as a match calls an invoice of 1000 rupees repaid by 990;
   * the rows are well keyed, so a certificate is issued, and the verifier refuses it.
   */
  lemma RepaidMayBeShort(eng: Engine, cfg: Config, r: Run, k: Check)
    requires IsRun(ShortRepayment(), eng, cfg, r) && !eng.namesSettlement("n")
    requires eng.score(ShortOrder(), ShortCredit()) > TIE_MARGIN_POINTS
    requires Classify(eng, cfg, ShortOrder(), eng.score(ShortOrder(), ShortCredit())).IsMatch?
    ensures r.verdicts["o"].verdict.RefundedThenRepaid? && r.verdicts["o"].moneyReceivedPaise == 99_000
    ensures WellKeyed(RowsOf(ShortRepayment()))
    ensures Fresh(k, ShortOrder(), r.verdicts["o"]) ==> !Accepts(k)
  {
    hide IsRun, PossibleRepayment, Repayable, Classify, Fresh, Accepts, RowsOf;
    var b := ShortRepayment();
    ShortIsExposed(eng, cfg, r);
    RunVerdict(b, eng, cfg, r, ShortOrder());
    assert Favours(b, eng, ShortOrder(), ShortCredit());
    FavouredIsRepaid(b, eng, cfg, r, ShortOrder(), ShortCredit());
    ShortIsKeyed();
    if Fresh(k, ShortOrder(), r.verdicts["o"]) {
      OddRepaymentRejected(b, eng, cfg, r, ShortOrder(), k);
    }
  }

  // ------------------------------------------------------------ a refund alone

  /** Neither captured nor refunded in full: the verdict table falls through to the exhausted search. */
  lemma FallThroughBranch(b: Batch, eng: Engine, cfg: Config, o: Order, hits: map<string, Hit>, pool: seq<BankTxn>)
    requires o.amountPaise > 0 && !IsRefundNetZero(CapsOf(b, o.orderId))
    requires Resolve(b, eng, cfg, o, hits, pool, Match(None, false), []).verdict.GenuinelyUnpaid?
    ensures Resolve(b, eng, cfg, o, hits, pool, Match(None, false), [])
         == OrderVerdict(o.orderId, GenuinelyUnpaid, PlainEvidence(Exhausted, [], ExactPath, true), 0, 0,
                         EngineDelta(CoverageEnd(b), o.dueDate) <= -3)
  {
    hide Filter, CoverageEnd, EngineDelta, IsRefundNetZero;
  }

  /** Whether an unpaid order with gateway rows is chased depends on the feed's dates and the gate alone. */
  lemma RefundOnlyChase(b: Batch, eng: Engine, cfg: Config, r: Run, o: Order, action: Policy.Action, attempts: int,
                        contacts7d: int, llm: Option<real>)
    requires IsRun(b, eng, cfg, r) && o in b.orders && CapsOf(b, o.orderId) != []
    requires r.verdicts[o.orderId].verdict.GenuinelyUnpaid?
    ensures Policy.ChaseAmount(o, r.verdicts[o.orderId]) == o.amountPaise
    ensures Policy.Evaluate(o, r.verdicts[o.orderId], action, attempts, contacts7d, llm).outcome == Policy.Allow
       <==> && FeedReaches(b, o.dueDate)
            && attempts < Policy.MAX_ATTEMPTS && contacts7d < Policy.CONTACT_BUDGET_7D && o.amountPaise >= 133_335
            && (action.AutoCharge? ==> o.channelExpected.Mandate? && o.amountPaise <= Policy.AFA_LIMIT_PAISE)
            && (llm.Some? ==> llm.value >= Policy.LLM_MIN_CONFIDENCE) && !action.OtherAction?
  {
    hide IsRun, IsRefundNetZero, Resolve, FeedReaches, EngineDelta, CoverageEnd, Policy.Evaluate;
    RunVerdict(b, eng, cfg, r, o);
    AssignedAreFuzzy(b, eng, cfg, r, o);
    UnpaidWithGatewayRows(b, eng, cfg, r, o);
    FallThroughBranch(b, eng, cfg, o, r.settled.hits, r.pool);
    BankIsDated(b, eng, cfg, r);
    CoverageReaches(b, o.dueDate);
    Policy.AllowMeans(o, r.verdicts[o.orderId], action, attempts, contacts7d, llm);
  }

  function RefundedOrder(): Order { Order("o", "i", "c", "n", 200_000, Date(2025, 6, 1), Gateway) }

  function LoneRefund(): Capture { Capture("p", "o", -50_000, 0, 0, RefundStatus, Date(2025, 6, 2), "", "") }

  function FullCredit(): BankTxn { BankTxn("t", Date(2025, 6, 4), 200_000, true, "u", "n", 0) }

  /** A refund row without its capture, and a free credit of exactly the invoice three days after the due date. */
  function RefundOnly(): Batch { Batch([RefundedOrder()], [LoneRefund()], [FullCredit()], []) }

  lemma RefundOnlyRows()
    ensures Validated(RefundOnly()) && Credits(RefundOnly()) == [FullCredit()]
    ensures CapsOf(RefundOnly(), "o") == [LoneRefund()] && OpenDisputes(RefundOnly(), "o") == []
    ensures SettlementIds(RefundOnly().captures) == []
    ensures FeedReaches(RefundOnly(), Date(2025, 6, 1))
  {
    FilterOne(LoneRefund(), OfOrder("o"));
    FilterOne(FullCredit(), IsCredit);
    assert RefundOnly().captures[..0] == [];
    assert FullCredit() in RefundOnly().bank && EngineDelta(Date(2025, 6, 1), FullCredit().valueDate) == 3;
  }

  lemma LoneRefundIsUnpaid()
    ensures !IsRefundNetZero([LoneRefund()])
    ensures Filter([LoneRefund()], IsChargeback) == [] && Filter([LoneRefund()], IsCaptured) == []
    ensures Filter([LoneRefund()], IsRefund) == [LoneRefund()]
  {
    var c := LoneRefund();
    SumFew(c, c, c, NetOf);
    FilterOne(c, IsChargeback);
    FilterOne(c, IsCaptured);
    FilterOne(c, IsRefund);
  }

  /** The search never looked: in every run the gate allows a reminder although the whole invoice lies in the feed. */
  lemma ChasedDespitePayment(eng: Engine, cfg: Config, r: Run)
    requires IsRun(RefundOnly(), eng, cfg, r) && !eng.namesSettlement("n")
    ensures PossiblePayment(RefundOnly(), eng, r, RefundedOrder(), FullCredit())
    ensures FullCredit().amountPaise == RefundedOrder().amountPaise
    ensures "o" in r.verdicts
    ensures Policy.Evaluate(RefundedOrder(), r.verdicts["o"], Policy.DraftReminder, 0, 0, None).outcome == Policy.Allow
  {
    hide IsRefundNetZero, CapsOf, OpenDisputes, Credits, SettlementIds, IsEdgeTable, MatchSpec, Resolve, Filter,
         FeedReaches, Policy.Evaluate;
    var b, o := RefundOnly(), RefundedOrder();
    RefundOnlyRows();
    LoneRefundIsUnpaid();
    assert Settle(b, eng).consumed == {};
    assert ExplainedAmount(b, o, 200_000);
    RunVerdict(b, eng, cfg, r, o);
    UnpaidWithGatewayRows(b, eng, cfg, r, o);
    RefundOnlyChase(b, eng, cfg, r, o, Policy.DraftReminder, 0, 0, None);
  }
}
