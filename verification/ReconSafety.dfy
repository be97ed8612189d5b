/** What a whole reconciliation run guarantees, and what the policy gate makes of it. */
module ReconSafety {
  import opened Prelude
  import opened Sorting
  import opened Dates
  import opened Models
  import opened Money
  import opened Enumeration
  import opened ComponentAssignment
  import opened Matching
  import opened Recon
  import Policy

  // ------------------------------------------------------------ settlement hits

  /** The evidence each of the three passes claims for a hit. */
  ghost predicate HitEvidence(b: Batch, eng: Engine, sid: string, h: Hit) {
    && sid != "" && GroupOf(b, sid) != []
    && h.credit in Credits(b)
    && h.credit.amountPaise == GroupNet(b, sid)
    && match h.pass
       case Pass3SettlementId => eng.settlementOf(h.credit.narration) == Some(sid)
       case Pass1ExactUtr => exists c :: c in GroupOf(b, sid) && c.utr != "" && c.utr == h.credit.utr
       case Pass2AmountDate => 0 <= EngineDelta(LatestCapture(GroupOf(b, sid)), h.credit.valueDate) <= 3
       case _ => false
  }

  lemma {:induction false} HitsSoundUpTo(b: Batch, eng: Engine, sids: seq<string>, sid: string)
    requires forall s :: s in sids ==> s != "" && GroupOf(b, s) != []
    requires sid in SettleUpTo(b, eng, sids).hits
    ensures sid in sids && HitEvidence(b, eng, sid, SettleUpTo(b, eng, sids).hits[sid])
    ensures SettleUpTo(b, eng, sids).hits[sid].credit.txnId in SettleUpTo(b, eng, sids).consumed
  {
    var last, rest := sids[|sids| - 1], sids[..|sids| - 1];
    var before := SettleUpTo(b, eng, rest);
    if !(last == sid && HitFor(b, eng, last, before.consumed).Some?) {
      HitsSoundUpTo(b, eng, rest, sid);
    }
  }

  /** Every settlement hit balances: the group's captures less fees and tax are the credit, to the paisa. */
  lemma HitsSound(b: Batch, eng: Engine, sid: string)
    requires sid in Settle(b, eng).hits
    ensures HitEvidence(b, eng, sid, Settle(b, eng).hits[sid])
    ensures Settle(b, eng).hits[sid].credit.txnId in Settle(b, eng).consumed
  {
    GroupsNotEmpty(b);
    HitsSoundUpTo(b, eng, SettlementIds(b.captures), sid);
  }

  /** An exact join is kept whatever was consumed before; any other join avoids the credits of earlier settlements. */
  lemma {:induction false} LaterHitUpTo(b: Batch, eng: Engine, sids: seq<string>, i: nat, j: nat)
    requires NoDup(sids) && forall x :: x in sids ==> x != "" && GroupOf(b, x) != []
    requires i < j < |sids|
    requires sids[i] in SettleUpTo(b, eng, sids).hits && sids[j] in SettleUpTo(b, eng, sids).hits
    ensures var hits, exact := SettleUpTo(b, eng, sids).hits, ExactHit(b, eng, sids[j]);
            if exact.Some? then hits[sids[j]] == exact.value
            else hits[sids[j]].pass.Pass2AmountDate? && hits[sids[i]].credit.txnId != hits[sids[j]].credit.txnId
  {
    hide ExactHit, HitEvidence;
    var n := |sids| - 1;
    var rest := sids[..n];
    assert forall k :: 0 <= k < n ==> sids[k] != sids[n];
    assert forall x :: x in rest ==> x in sids;
    if j == n {
      if sids[n] in SettleUpTo(b, eng, rest).hits {
        HitsSoundUpTo(b, eng, rest, sids[n]);
      }
      HitsSoundUpTo(b, eng, rest, sids[i]);
    } else {
      LaterHitUpTo(b, eng, rest, i, j);
    }
  }

  /** Two settlements share a credit exactly when the later one joins exactly on the credit of the earlier one. */
  lemma CreditSharedExactly(b: Batch, eng: Engine, i: nat, j: nat)
    requires NoDup(TxnIds(b.bank)) && i < j < |SettlementIds(b.captures)|
    requires SettlementIds(b.captures)[i] in Settle(b, eng).hits && SettlementIds(b.captures)[j] in Settle(b, eng).hits
    ensures var hits, s, t := Settle(b, eng).hits, SettlementIds(b.captures)[i], SettlementIds(b.captures)[j];
            hits[s].credit.txnId == hits[t].credit.txnId
            <==> ExactHit(b, eng, t).Some? && ExactHit(b, eng, t).value.credit == hits[s].credit
  {
    hide ExactHit, HitEvidence, TxnIds;
    GroupsNotEmpty(b);
    var sids := SettlementIds(b.captures);
    LaterHitUpTo(b, eng, sids, i, j);
    CreditOfHit(b, eng, sids[i]);
    CreditOfHit(b, eng, sids[j]);
    if Settle(b, eng).hits[sids[i]].credit.txnId == Settle(b, eng).hits[sids[j]].credit.txnId {
      UniqueById(b.bank, Settle(b, eng).hits[sids[i]].credit, Settle(b, eng).hits[sids[j]].credit);
    }
  }

  lemma CreditOfHit(b: Batch, eng: Engine, sid: string)
    requires sid in Settle(b, eng).hits
    ensures Settle(b, eng).hits[sid].credit in b.bank
  {
    HitsSound(b, eng, sid);
  }

  lemma ExactIsNotDated(b: Batch, eng: Engine, sid: string)
    ensures ExactHit(b, eng, sid).Some? ==> !ExactHit(b, eng, sid).value.pass.Pass2AmountDate?
  {
    hide CreditNaming, ExactUtrHit;
  }

  /** Two amount-and-date joins never claim the same credit. */
  lemma DatedHitsDiffer(b: Batch, eng: Engine, s: string, t: string)
    requires s != t && s in Settle(b, eng).hits && t in Settle(b, eng).hits
    requires Settle(b, eng).hits[s].credit.txnId == Settle(b, eng).hits[t].credit.txnId
    ensures !(Settle(b, eng).hits[s].pass.Pass2AmountDate? && Settle(b, eng).hits[t].pass.Pass2AmountDate?)
  {
    hide HitFor, HitEvidence, ExactHit, SettleUpTo;
    GroupsNotEmpty(b);
    ExactIsNotDated(b, eng, s);
    ExactIsNotDated(b, eng, t);
    var sids := SettlementIds(b.captures);
    HitsSoundUpTo(b, eng, sids, s);
    HitsSoundUpTo(b, eng, sids, t);
    var i :| 0 <= i < |sids| && sids[i] == s;
    var j :| 0 <= j < |sids| && sids[j] == t;
    LaterHitUpTo(b, eng, sids, if i < j then i else j, if i < j then j else i);
  }

  /** Two settlements of 100 under one UTR, one credit of 100. */
  function OneUtr(): Batch {
    var day := Date(2025, 6, 2);
    Batch([], [Capture("p", "a", 100, 0, 0, Captured, day, "s", "u"), Capture("q", "b", 100, 0, 0, Captured, day, "z", "u")],
          [BankTxn("t", day, 100, true, "u", "n", 0)], [])
  }

  lemma OneUtrRows()
    ensures Credits(OneUtr()) == OneUtr().bank
    ensures GroupOf(OneUtr(), "s") == [OneUtr().captures[0]] && GroupOf(OneUtr(), "z") == [OneUtr().captures[1]]
    ensures GroupNet(OneUtr(), "s") == GroupNet(OneUtr(), "z") == 100
  {
    var b := OneUtr();
    TwoGroups(b, b.captures[0], b.captures[1]);
    FilterOne(b.bank[0], IsCredit);
  }

  lemma TwoGroups(b: Batch, c: Capture, d: Capture)
    requires b.captures == [c, d] && c.settlementId != d.settlementId
    ensures GroupOf(b, c.settlementId) == [c] && GroupOf(b, d.settlementId) == [d]
    ensures GroupNet(b, c.settlementId) == NetOf(c) && GroupNet(b, d.settlementId) == NetOf(d)
  {
    hide Filter, Sum, NetOf;
    FilterTwo(c, d, InSettlement(c.settlementId));
    FilterTwo(c, d, InSettlement(d.settlementId));
    SumFew(c, c, c, NetOf);
    SumFew(d, d, d, NetOf);
  }

  lemma TwoSettlementIds(c: Capture, d: Capture)
    requires c.settlementId != "" && d.settlementId != "" && c.settlementId != d.settlementId
    ensures SettlementIds([c, d]) == [c.settlementId, d.settlementId]
  {
    assert [c][..0] == [];
    assert SettlementIds([c]) == [c.settlementId];
    assert [c, d][..1] == [c];
  }

  lemma OneUtrHit(eng: Engine, sid: string)
    requires sid == "s" || sid == "z"
    ensures ExactHit(OneUtr(), eng, sid).Some? && ExactHit(OneUtr(), eng, sid).value.credit == OneUtr().bank[0]
  {
    hide Credits, GroupOf, GroupNet;
    var t := OneUtr().bank[0];
    OneUtrRows();
    assert FirstCredit([t], UtrAndAmount("u", 100)) == Some(t);
    assert CreditNaming(eng, [t], sid).Some? ==> CreditNaming(eng, [t], sid).value == t;
  }

  /** Whatever the narrations say, both settlements join exactly and share the credit. */
  lemma OneCreditTwoSettlements(eng: Engine)
    ensures Validated(OneUtr())
    ensures var hits := Settle(OneUtr(), eng).hits;
            "s" in hits && "z" in hits && hits["s"].credit == hits["z"].credit == OneUtr().bank[0]
  {
    hide SettlementIds, Credits, GroupOf, GroupNet, ExactHit;
    OneUtrRows();
    TwoSettlementIds(OneUtr().captures[0], OneUtr().captures[1]);
    OneUtrHit(eng, "s");
    OneUtrHit(eng, "z");
    var sids := ["s", "z"];
    assert sids[..1] == ["s"] && ["s"][..0] == [];
    assert SettleUpTo(OneUtr(), eng, []) == Settled(map[], {});
    assert "s" in SettleUpTo(OneUtr(), eng, ["s"]).hits;
  }

  // ------------------------------------------------------------ pass-4 credits

  lemma IdOf(orders: seq<Order>, o: Order)
    requires o in orders
    ensures o.orderId in OrderIds(orders)
  {
    var i :| 0 <= i < |orders| && orders[i] == o;
    assert OrderIds(orders)[i] == o.orderId;
  }

  lemma SameOrder(orders: seq<Order>, o: Order, p: Order)
    requires NoDup(OrderIds(orders)) && o in orders && p in orders && o.orderId == p.orderId
    ensures o == p
  {
    var i :| 0 <= i < |orders| && orders[i] == o;
    var j :| 0 <= j < |orders| && orders[j] == p;
    assert OrderIds(orders)[i] == OrderIds(orders)[j];
  }

  /** Exactly the fuzzy orders take part in the assignment. */
  lemma AssignedAreFuzzy(b: Batch, eng: Engine, cfg: Config, r: Run, o: Order)
    requires IsRun(b, eng, cfg, r) && o in b.orders
    ensures o.orderId in r.assignment <==> NeedsFuzzy(b)(o)
    ensures o.orderId in r.table.cands <==> NeedsFuzzy(b)(o)
    ensures NeedsFuzzy(b)(o) ==> CandsOf(r, o.orderId) == CandidatesOf(b, eng, r.pool, o)
  {
    assert r.assignment.Keys == r.table.cands.Keys == Elems(OrderIds(FuzzyOrders(b)));
    if NeedsFuzzy(b)(o) {
      IdOf(FuzzyOrders(b), o);
    }
    if o.orderId in OrderIds(FuzzyOrders(b)) {
      var p := OrderById(FuzzyOrders(b), o.orderId);
      SameOrder(b.orders, o, p);
    }
  }

  lemma CandidateMember(b: Batch, eng: Engine, pool: seq<BankTxn>, o: Order, id: string) returns (txn: BankTxn)
    requires id in ScoreTable(CandidatesOf(b, eng, pool, o))
    ensures txn in pool && txn.txnId == id && txn.amountPaise in CandidateAmounts(b, o)
  {
    var cands := CandidatesOf(b, eng, pool, o);
    ScoreTableKeys(cands);
    assert id in TxnsOf(cands);
    var i :| 0 <= i < |cands| && TxnsOf(cands)[i] == id;
    var txns := CandidateTxns(CandidateAmounts(b, o), pool);
    txn := txns[i];
    CandidateTxnMembers(CandidateAmounts(b, o), pool, txn);
  }

  /** The credit pass 4 chose: one pool row, of a candidate amount, taken by no earlier pass. */
  lemma ChosenCredit(b: Batch, eng: Engine, cfg: Config, r: Run, o: Order) returns (txn: BankTxn)
    requires IsRun(b, eng, cfg, r) && o in b.orders && MatchOf(r, o.orderId).txn.Some?
    ensures txn in Credits(b) && txn.txnId == MatchOf(r, o.orderId).txn.value
    ensures txn.txnId !in r.settled.consumed && !eng.namesSettlement(txn.narration)
    ensures txn.amountPaise in CandidateAmounts(b, o)
    ensures FirstCredit(r.pool, WithId(txn.txnId)) == Some(txn)
    ensures WeightOf(CandsOf(r, o.orderId), txn.txnId).Some?
    ensures NeedsFuzzy(b)(o)
  {
    hide IsRun, FirstCredit, WeightOf, FuzzyPool, CandidatesOf, CandidateAmounts, MatchOf;
    AssignedAreFuzzy(b, eng, cfg, r, o);
    RunPool(b, eng, cfg, r);
    ChosenIsScored(b, eng, cfg, r, o);
    var id := MatchOf(r, o.orderId).txn.value;
    txn := CandidateMember(b, eng, r.pool, o, id);
    FoundInPool(r.pool, txn);
    PoolMember(b, eng, r.settled.consumed, txn);
    ListedWeight(CandidatesOf(b, eng, r.pool, o), id);
  }

  lemma RunPool(b: Batch, eng: Engine, cfg: Config, r: Run)
    requires IsRun(b, eng, cfg, r)
    ensures r.pool == FuzzyPool(b, eng, r.settled.consumed) && IdsUnique(r.pool)
  {
    PoolIdsUnique(b, eng, r.settled.consumed);
  }

  lemma PoolMember(b: Batch, eng: Engine, consumed: set<string>, t: BankTxn)
    requires t in FuzzyPool(b, eng, consumed)
    ensures t in Credits(b) && t.txnId !in consumed && !eng.namesSettlement(t.narration)
  {
  }

  lemma ChosenIsScored(b: Batch, eng: Engine, cfg: Config, r: Run, o: Order)
    requires IsRun(b, eng, cfg, r) && o in b.orders && MatchOf(r, o.orderId).txn.Some?
    ensures NeedsFuzzy(b)(o)
    ensures MatchOf(r, o.orderId).txn.value in ScoreTable(CandidatesOf(b, eng, r.pool, o))
  {
    hide CandidatesOf, MatchSpec, ScoreTable;
    AssignedAreFuzzy(b, eng, cfg, r, o);
    var w := WeightsOf(r.table.cands);
    assert o.orderId in w;
    NoCreditTwice(w, r.assignment, o.orderId, o.orderId);
  }

  lemma FoundInPool(pool: seq<BankTxn>, txn: BankTxn)
    requires IdsUnique(pool) && txn in pool
    ensures FirstCredit(pool, WithId(txn.txnId)) == Some(txn)
  {
    hide IdsUnique;
    assert WithId(txn.txnId)(txn);
    var found := FirstCredit(pool, WithId(txn.txnId));
    UniqueById(pool, found.value, txn);
  }

  lemma ListedWeight(cands: seq<Candidate>, id: string)
    requires id in ScoreTable(cands)
    ensures WeightOf(cands, id).Some?
  {
    hide ScoreTable;
    ScoreTableKeys(cands);
    var i :| 0 <= i < |cands| && TxnsOf(cands)[i] == id;
    assert cands[i] in cands;
  }

  /** Over the whole run no credit serves two orders, nor a settlement and an order. */
  lemma NoCreditServesTwice(b: Batch, eng: Engine, cfg: Config, r: Run, o: Order, p: Order)
    requires IsRun(b, eng, cfg, r) && o in b.orders && p in b.orders && o != p
    requires MatchOf(r, o.orderId).txn.Some?
    ensures MatchOf(r, o.orderId).txn != MatchOf(r, p.orderId).txn
    ensures forall sid :: sid in r.settled.hits ==> r.settled.hits[sid].credit.txnId != MatchOf(r, o.orderId).txn.value
  {
    var txn := ChosenCredit(b, eng, cfg, r, o);
    AssignedAreFuzzy(b, eng, cfg, r, o);
    AssignedAreFuzzy(b, eng, cfg, r, p);
    if o.orderId == p.orderId {
      SameOrder(b.orders, o, p);
    }
    if p.orderId in r.assignment {
      NoCreditTwice(WeightsOf(r.table.cands), r.assignment, o.orderId, p.orderId);
    }
    forall sid | sid in r.settled.hits
      ensures r.settled.hits[sid].credit.txnId != txn.txnId
    {
      HitsSound(b, eng, sid);
    }
  }

  // ------------------------------------------------------------ candidate amounts

  lemma {:induction false} NetsOfRatesMembers(amount: int, rates: seq<int>, x: int)
    ensures x in NetsOfRates(amount, rates) <==> exists bp :: bp in rates && x == amount - PctBp(amount, bp)
  {
    if rates != [] {
      NetsOfRatesMembers(amount, rates[1..], x);
      assert rates == [rates[0]] + rates[1..];
    }
  }

  lemma {:induction false} NetsOfProofsMembers(amount: int, proofs: seq<FinanceEvent>, x: int)
    ensures x in NetsOfProofs(amount, proofs)
       <==> exists e :: e in proofs && e.amountPaise < amount && x == amount - e.amountPaise
  {
    if proofs != [] {
      NetsOfProofsMembers(amount, proofs[1..], x);
      assert proofs == [proofs[0]] + proofs[1..];
    }
  }

  /** The invoice itself, a TDS-shaped net of it, or its net of listed evidence. */
  ghost predicate ExplainedAmount(b: Batch, o: Order, x: int) {
    || x == o.amountPaise
    || (exists bp :: bp in STATUTORY_TDS_RATES_BP && x == o.amountPaise - PctBp(o.amountPaise, bp))
    || (exists e :: e in TdsProofs(b, o.orderId) && e.amountPaise < o.amountPaise && x == o.amountPaise - e.amountPaise)
  }

  lemma CandidateAmountMembers(b: Batch, o: Order, x: int)
    ensures x in CandidateAmounts(b, o) <==> ExplainedAmount(b, o, x)
  {
    var rates := NetsOfRates(o.amountPaise, STATUTORY_TDS_RATES_BP);
    var proofs := NetsOfProofs(o.amountPaise, TdsProofs(b, o.orderId));
    var raw := [o.amountPaise] + rates + proofs;
    SortElems(Distinct(raw), IntLe);
    assert x in CandidateAmounts(b, o) <==> x in Elems(CandidateAmounts(b, o));
    assert x in Elems(CandidateAmounts(b, o)) <==> x in raw;
    NetsOfRatesMembers(o.amountPaise, STATUTORY_TDS_RATES_BP, x);
    NetsOfProofsMembers(o.amountPaise, TdsProofs(b, o.orderId), x);
  }

  /** A credit that could be this order's payment: not consumed, not a settlement, of an explained amount. */
  ghost predicate PossiblePayment(b: Batch, eng: Engine, r: Run, o: Order, t: BankTxn) {
    && t in Credits(b) && t.txnId !in r.settled.consumed && !eng.namesSettlement(t.narration)
    && ExplainedAmount(b, o, t.amountPaise)
  }

  /** An order has no candidates exactly when no credit in the feed could be its payment. */
  lemma NoCandidatesMeansNoPayment(b: Batch, eng: Engine, cfg: Config, r: Run, o: Order)
    requires IsRun(b, eng, cfg, r) && o in b.orders && NeedsFuzzy(b)(o)
    ensures CandsOf(r, o.orderId) == [] <==> forall t :: !PossiblePayment(b, eng, r, o, t)
  {
    AssignedAreFuzzy(b, eng, cfg, r, o);
    var txns := CandidateTxns(CandidateAmounts(b, o), r.pool);
    assert |CandsOf(r, o.orderId)| == |txns|;
    forall t
      ensures t in txns <==> PossiblePayment(b, eng, r, o, t)
    {
      CandidateTxnMembers(CandidateAmounts(b, o), r.pool, t);
      CandidateAmountMembers(b, o, t.amountPaise);
    }
    if txns != [] {
      assert txns[0] in txns;
    }
  }

  // ------------------------------------------------------------ never chase money that is there

  /** Some row of the feed is dated at least three days after the due date. */
  ghost predicate FeedReaches(b: Batch, due: Date) {
    exists t :: t in b.bank && EngineDelta(due, t.valueDate) >= 3
  }

  /** The engine's coverage test, on the latest value date in text order, asks exactly whether some row is late enough. */
  lemma CoverageReaches(b: Batch, due: Date)
    requires ValidDate(due) && forall t :: t in b.bank ==> ValidDate(t.valueDate)
    ensures EngineDelta(CoverageEnd(b), due) <= -3 <==> FeedReaches(b, due)
  {
    hide ValidDate, DaysBefore;
    DueIsDated(due);
    if b.bank != [] {
      var dates := Map(b.bank, (t: BankTxn) => t.valueDate);
      var i :| 0 <= i < |dates| && dates[i] == CoverageEnd(b);
      assert b.bank[i] in b.bank;
      forall t | t in b.bank
        ensures EngineOrdinal(t.valueDate) <= EngineOrdinal(CoverageEnd(b))
      {
        var k :| 0 <= k < |b.bank| && b.bank[k] == t;
        assert dates[k] in dates;
        OrderIsEngineOrder(t.valueDate, CoverageEnd(b));
      }
    }
  }

  lemma DueIsDated(due: Date)
    requires ValidDate(due)
    ensures EngineOrdinal(due) >= 366 && EngineOrdinal(Date(0, 0, 0)) < 366
  {
  }

  /** The chosen credit, if any, is a pool row with a recorded weight. */
  ghost predicate ChoiceListed(pool: seq<BankTxn>, m: Match, cands: seq<Candidate>) {
    m.txn.Some? ==> FirstCredit(pool, WithId(m.txn.value)).Some? && WeightOf(cands, m.txn.value).Some?
  }

  lemma RunVerdict(b: Batch, eng: Engine, cfg: Config, r: Run, o: Order)
    requires IsRun(b, eng, cfg, r) && o in b.orders
    ensures o.amountPaise > 0 && ValidDate(o.dueDate)
    ensures o.orderId in r.verdicts
    ensures r.verdicts[o.orderId] == Resolve(b, eng, cfg, o, r.settled.hits, r.pool, MatchOf(r, o.orderId), CandsOf(r, o.orderId))
    ensures ChoiceListed(r.pool, MatchOf(r, o.orderId), CandsOf(r, o.orderId))
  {
    hide Resolve, MatchSpec, IsEdgeTable;
    assert ValidOrder(o);
    if MatchOf(r, o.orderId).txn.Some? {
      var txn := ChosenCredit(b, eng, cfg, r, o);
    }
  }

  /** GENUINELY_UNPAID on the exact path: no dispute, no choice and no candidate. */
  lemma ExactUnpaidBranch(b: Batch, eng: Engine, cfg: Config, o: Order, hits: map<string, Hit>, pool: seq<BankTxn>,
                          m: Match, cands: seq<Candidate>)
    requires o.amountPaise > 0 && ChoiceListed(pool, m, cands)
    requires var v := Resolve(b, eng, cfg, o, hits, pool, m, cands);
             v.verdict.GenuinelyUnpaid? && v.evidence.automationPath.ExactPath?
    ensures var v := Resolve(b, eng, cfg, o, hits, pool, m, cands);
            && OpenDisputes(b, o.orderId) == [] && m.txn.None? && !m.tie && cands == []
            && (v.bankCoverageOk ==> EngineDelta(CoverageEnd(b), o.dueDate) <= -3)
            && v.evidence.passUsed.Exhausted?
  {
    hide Filter, Classify, UtrCount, FirstProof, TdsRateBp, CoverageEnd, EngineDelta, IsRefundNetZero;
  }

  lemma ExhaustedMeans(b: Batch, eng: Engine, cfg: Config, r: Run, o: Order)
    requires IsRun(b, eng, cfg, r) && o in b.orders
    requires r.verdicts[o.orderId].verdict.GenuinelyUnpaid?
    requires r.verdicts[o.orderId].evidence.automationPath.ExactPath?
    ensures OpenDisputes(b, o.orderId) == []
    ensures NeedsFuzzy(b)(o) ==> forall t :: !PossiblePayment(b, eng, r, o, t)
    ensures r.verdicts[o.orderId].bankCoverageOk ==> EngineDelta(CoverageEnd(b), o.dueDate) <= -3
    ensures r.verdicts[o.orderId].evidence.passUsed.Exhausted?
  {
    hide Resolve, IsRun, PossiblePayment;
    RunVerdict(b, eng, cfg, r, o);
    ExactUnpaidBranch(b, eng, cfg, o, r.settled.hits, r.pool, MatchOf(r, o.orderId), CandsOf(r, o.orderId));
    if NeedsFuzzy(b)(o) {
      NoCandidatesMeansNoPayment(b, eng, cfg, r, o);
    }
  }

  /** Without a calibration no probabilistic evidence is authorised. */
  lemma UncalibratedBranches(b: Batch, eng: Engine, cfg: Config, o: Order, hits: map<string, Hit>, pool: seq<BankTxn>,
                             m: Match, cands: seq<Candidate>)
    requires o.amountPaise > 0 && cfg.riskCalibration.None?
    ensures !Resolve(b, eng, cfg, o, hits, pool, m, cands).evidence.riskAuthorized
         || Resolve(b, eng, cfg, o, hits, pool, m, cands).evidence.automationPath.ExactPath?
  {
    hide Filter, Classify, UtrCount, FirstProof, TdsRateBp, CoverageEnd, EngineDelta, IsRefundNetZero, FirstCredit,
         WeightOf;
  }

  /** Without gateway rows nothing is partial; an unpaid verdict carries no partial amount. */
  lemma NothingPartial(b: Batch, eng: Engine, cfg: Config, o: Order, hits: map<string, Hit>, pool: seq<BankTxn>,
                       m: Match, cands: seq<Candidate>)
    requires o.amountPaise > 0
    ensures var v := Resolve(b, eng, cfg, o, hits, pool, m, cands);
            && (CapsOf(b, o.orderId) == [] ==> !v.verdict.PartiallyPaid?)
            && (v.verdict.GenuinelyUnpaid? ==> v.deltaDuePaise == 0)
  {
    hide Classify, UtrCount, FirstProof, TdsRateBp, CoverageEnd, EngineDelta, IsRefundNetZero, FirstCredit, WeightOf;
  }

  /** Without a risk calibration, an allowed chase of an order the gateway knows nothing about has no money to find. */
  lemma NeverChasePaidOrder(b: Batch, eng: Engine, cfg: Config, r: Run, o: Order, action: Policy.Action,
                            attempts: int, contacts7d: int, llm: Option<real>)
    requires IsRun(b, eng, cfg, r) && o in b.orders && CapsOf(b, o.orderId) == []
    requires cfg.riskCalibration.None?
    requires Policy.Evaluate(o, r.verdicts[o.orderId], action, attempts, contacts7d, llm).outcome == Policy.Allow
    ensures r.verdicts[o.orderId].verdict.GenuinelyUnpaid?
    ensures OpenDisputes(b, o.orderId) == []
    ensures FeedReaches(b, o.dueDate)
    ensures forall t :: !PossiblePayment(b, eng, r, o, t)
    ensures Policy.ChaseAmount(o, r.verdicts[o.orderId]) == o.amountPaise
  {
    hide Resolve, IsRun, PossiblePayment, FeedReaches;
    RunVerdict(b, eng, cfg, r, o);
    var v := r.verdicts[o.orderId];
    Policy.AllowMeans(o, v, action, attempts, contacts7d, llm);
    UncalibratedBranches(b, eng, cfg, o, r.settled.hits, r.pool, MatchOf(r, o.orderId), CandsOf(r, o.orderId));
    NothingPartial(b, eng, cfg, o, r.settled.hits, r.pool, MatchOf(r, o.orderId), CandsOf(r, o.orderId));
    ExhaustedMeans(b, eng, cfg, r, o);
    BankIsDated(b, eng, cfg, r);
    CoverageReaches(b, o.dueDate);
  }

  lemma BankIsDated(b: Batch, eng: Engine, cfg: Config, r: Run)
    requires IsRun(b, eng, cfg, r)
    ensures forall t :: t in b.bank ==> ValidDate(t.valueDate)
  {
    assert forall t :: t in b.bank ==> ValidBankTxn(t);
  }

  lemma {:induction false} RefundTotalPositive(refunds: seq<Capture>)
    requires refunds != [] && forall c :: c in refunds ==> c.amountPaise < 0
    ensures RefundTotal(refunds) > 0
  {
    var first, rest := refunds[0], refunds[1..];
    assert first in refunds && refunds == [first] + rest;
    assert RefundTotal(refunds) == RefundedBy(first) + RefundTotal(rest);
    if rest != [] {
      RefundTotalPositive(rest);
    }
  }

  /** PARTIALLY_PAID comes only from the settlement branch. */
  lemma PartialBranch(b: Batch, eng: Engine, cfg: Config, o: Order, hits: map<string, Hit>, pool: seq<BankTxn>,
                      m: Match, cands: seq<Candidate>)
    requires o.amountPaise > 0 && Resolve(b, eng, cfg, o, hits, pool, m, cands).verdict.PartiallyPaid?
    ensures var caps := CapsOf(b, o.orderId);
            && Filter(caps, IsCaptured) != [] && Filter(caps, IsRefund) != []
            && Filter(caps, IsCaptured)[0].settlementId in hits
            && Resolve(b, eng, cfg, o, hits, pool, m, cands) == ResolveCaptured(b, o, caps, hits)
  {
    hide Filter, Classify, UtrCount, FirstProof, TdsRateBp, CoverageEnd, EngineDelta, IsRefundNetZero;
  }

  lemma OrderRefundsPositive(b: Batch, o: Order)
    requires Validated(b) && Filter(CapsOf(b, o.orderId), IsRefund) != []
    ensures RefundTotal(Filter(CapsOf(b, o.orderId), IsRefund)) > 0
  {
    var refunds := Filter(CapsOf(b, o.orderId), IsRefund);
    forall c | c in refunds
      ensures c.amountPaise < 0
    {
      assert c in b.captures && ValidCapture(c);
    }
    RefundTotalPositive(refunds);
  }

  /** An allowed chase of a partially paid order: its settlement balances and only the refunded total is chased. */
  lemma PartialChaseIsRefund(b: Batch, eng: Engine, cfg: Config, r: Run, o: Order, action: Policy.Action,
                             attempts: int, contacts7d: int, llm: Option<real>)
    requires IsRun(b, eng, cfg, r) && o in b.orders
    requires r.verdicts[o.orderId].verdict.PartiallyPaid?
    requires Policy.Evaluate(o, r.verdicts[o.orderId], action, attempts, contacts7d, llm).outcome == Policy.Allow
    ensures var v := r.verdicts[o.orderId];
            var refunds := Filter(CapsOf(b, o.orderId), IsRefund);
            && refunds != []
            && Policy.ChaseAmount(o, v) == RefundTotal(refunds)
            && v.moneyReceivedPaise + Policy.ChaseAmount(o, v) == o.amountPaise
    ensures exists c :: c in CapsOf(b, o.orderId) && c.status.Captured? && c.settlementId in r.settled.hits
                        && HitEvidence(b, eng, c.settlementId, r.settled.hits[c.settlementId])
                        && r.verdicts[o.orderId].evidence.passUsed == r.settled.hits[c.settlementId].pass
  {
    hide Resolve, HitEvidence;
    RunVerdict(b, eng, cfg, r, o);
    PartialBranch(b, eng, cfg, o, r.settled.hits, r.pool, MatchOf(r, o.orderId), CandsOf(r, o.orderId));
    OrderRefundsPositive(b, o);
    var c := Filter(CapsOf(b, o.orderId), IsCaptured)[0];
    assert c in Filter(CapsOf(b, o.orderId), IsCaptured);
    HitsSound(b, eng, c.settlementId);
  }

  lemma UnpaidBranch(b: Batch, eng: Engine, cfg: Config, o: Order, hits: map<string, Hit>, pool: seq<BankTxn>,
                     m: Match, cands: seq<Candidate>)
    requires o.amountPaise > 0 && CapsOf(b, o.orderId) != []
    requires !IsRefundNetZero(CapsOf(b, o.orderId)) ==> m == Match(None, false)
    ensures Resolve(b, eng, cfg, o, hits, pool, m, cands).verdict.GenuinelyUnpaid?
       <==> && OpenDisputes(b, o.orderId) == []
            && Filter(CapsOf(b, o.orderId), IsChargeback) == []
            && Filter(CapsOf(b, o.orderId), IsCaptured) == []
            && !(Filter(CapsOf(b, o.orderId), IsFailed) != [] && Filter(CapsOf(b, o.orderId), IsRefund) == [])
            && !IsRefundNetZero(CapsOf(b, o.orderId))
  {
    hide Filter, Classify, UtrCount, FirstProof, TdsRateBp, CoverageEnd, EngineDelta, IsRefundNetZero;
  }

  lemma EveryRowHasAStatus(caps: seq<Capture>)
    requires caps != []
    ensures Filter(caps, IsCaptured) != [] || Filter(caps, IsRefund) != []
         || Filter(caps, IsFailed) != [] || Filter(caps, IsChargeback) != []
  {
    var c := caps[0];
    assert c in caps;
    match c.status
    case Captured => assert IsCaptured(c) && c in Filter(caps, IsCaptured);
    case RefundStatus => assert IsRefund(c) && c in Filter(caps, IsRefund);
    case Failed => assert IsFailed(c) && c in Filter(caps, IsFailed);
    case ChargebackStatus => assert IsChargeback(c) && c in Filter(caps, IsChargeback);
  }

  /** With gateway rows, an unpaid verdict means refund rows without a capture, whose net is not zero. */
  lemma UnpaidWithGatewayRows(b: Batch, eng: Engine, cfg: Config, r: Run, o: Order)
    requires IsRun(b, eng, cfg, r) && o in b.orders && CapsOf(b, o.orderId) != []
    ensures r.verdicts[o.orderId].verdict.GenuinelyUnpaid?
       <==> && OpenDisputes(b, o.orderId) == []
            && Filter(CapsOf(b, o.orderId), IsChargeback) == []
            && Filter(CapsOf(b, o.orderId), IsCaptured) == []
            && Filter(CapsOf(b, o.orderId), IsRefund) != []
            && !IsRefundNetZero(CapsOf(b, o.orderId))
  {
    hide Resolve, IsRun, IsRefundNetZero;
    AssignedAreFuzzy(b, eng, cfg, r, o);
    RunVerdict(b, eng, cfg, r, o);
    UnpaidBranch(b, eng, cfg, o, r.settled.hits, r.pool, MatchOf(r, o.orderId), CandsOf(r, o.orderId));
    EveryRowHasAStatus(CapsOf(b, o.orderId));
  }

  predicate SettledVerdict(v: Verdict) { v.SettledClean? || v.SettledLate? || v.PartiallyPaid? }

  lemma GatewayBranch(b: Batch, eng: Engine, cfg: Config, o: Order, hits: map<string, Hit>, pool: seq<BankTxn>,
                      m: Match, cands: seq<Candidate>)
    requires o.amountPaise > 0
    ensures var v, caps := Resolve(b, eng, cfg, o, hits, pool, m, cands), CapsOf(b, o.orderId);
            var frozen := OpenDisputes(b, o.orderId) != [] || Filter(caps, IsChargeback) != [];
            var live := Filter(caps, IsCaptured) != [] && !IsRefundNetZero(caps);
            && (v.verdict.ChargebackOpen? <==> frozen)
            && (v.verdict.FailedNotDebited? <==>
                  !frozen && Filter(caps, IsFailed) != [] && Filter(caps, IsCaptured) == [] && Filter(caps, IsRefund) == [])
            && (SettledVerdict(v.verdict) <==> !frozen && live && Filter(caps, IsCaptured)[0].settlementId in hits)
  {
    hide Filter, Classify, UtrCount, FirstProof, TdsRateBp, CoverageEnd, EngineDelta, IsRefundNetZero, FirstCredit,
         WeightOf;
  }

  /** Which rows decide the three gateway-borne kinds of verdict, exactly. */
  lemma GatewayVerdicts(b: Batch, eng: Engine, cfg: Config, r: Run, o: Order)
    requires IsRun(b, eng, cfg, r) && o in b.orders
    ensures var v, caps := r.verdicts[o.orderId], CapsOf(b, o.orderId);
            var frozen := OpenDisputes(b, o.orderId) != [] || Filter(caps, IsChargeback) != [];
            var live := Filter(caps, IsCaptured) != [] && !IsRefundNetZero(caps);
            && (v.verdict.ChargebackOpen? <==> frozen)
            && (v.verdict.FailedNotDebited? <==>
                  !frozen && Filter(caps, IsFailed) != [] && Filter(caps, IsCaptured) == [] && Filter(caps, IsRefund) == [])
            && (SettledVerdict(v.verdict) <==> !frozen && live && Filter(caps, IsCaptured)[0].settlementId in r.settled.hits)
  {
    hide Resolve, IsRun, IsRefundNetZero;
    RunVerdict(b, eng, cfg, r, o);
    GatewayBranch(b, eng, cfg, o, r.settled.hits, r.pool, MatchOf(r, o.orderId), CandsOf(r, o.orderId));
  }

  // ------------------------------------------------------------ invoice conservation

  predicate PaidByScore(v: Verdict) {
    v.PaidOutOfBand? || v.PaidNetOfTds? || v.RefundedThenRepaid?
  }

  /** These verdicts come only from a classified match. */
  lemma MatchBranch(b: Batch, eng: Engine, cfg: Config, o: Order, hits: map<string, Hit>, pool: seq<BankTxn>,
                    m: Match, cands: seq<Candidate>)
    requires o.amountPaise > 0 && PaidByScore(Resolve(b, eng, cfg, o, hits, pool, m, cands).verdict)
    ensures m.txn.Some? && FirstCredit(pool, WithId(m.txn.value)).Some? && WeightOf(cands, m.txn.value).Some?
    ensures var txn := FirstCredit(pool, WithId(m.txn.value)).value;
            var e := FuzzyEvidence(eng, cfg, o, txn, WeightOf(cands, m.txn.value).value);
            && UtrCount(b, txn.utr) <= 1 && OpenDisputes(b, o.orderId) == []
            && Resolve(b, eng, cfg, o, hits, pool, m, cands)
               == ResolveMatch(b, o, txn, e, IsRefundNetZero(CapsOf(b, o.orderId)))
  {
    hide Filter, Classify, UtrCount, FirstProof, TdsRateBp, CoverageEnd, EngineDelta, IsRefundNetZero, ResolveMatch;
  }

  lemma PaidByMatch(b: Batch, eng: Engine, cfg: Config, r: Run, o: Order) returns (txn: BankTxn, e: Evidence)
    requires IsRun(b, eng, cfg, r) && o in b.orders
    requires PaidByScore(r.verdicts[o.orderId].verdict)
    ensures PossiblePayment(b, eng, r, o, txn) && MatchOf(r, o.orderId).txn == Some(txn.txnId)
    ensures UtrCount(b, txn.utr) <= 1 && OpenDisputes(b, o.orderId) == []
    ensures r.verdicts[o.orderId] == ResolveMatch(b, o, txn, e, IsRefundNetZero(CapsOf(b, o.orderId)))
    ensures e.passUsed.Pass4Fuzzy? && e.automationPath.ProbabilisticPath? && e.sourceRows == [txn.txnId]
    ensures CapsOf(b, o.orderId) == [] || IsRefundNetZero(CapsOf(b, o.orderId))
  {
    hide Resolve, IsRun, IsRefundNetZero, ResolveMatch, UtrCount, ExplainedAmount;
    var m, cands := MatchOf(r, o.orderId), CandsOf(r, o.orderId);
    RunVerdict(b, eng, cfg, r, o);
    MatchBranch(b, eng, cfg, o, r.settled.hits, r.pool, m, cands);
    txn := ChosenCredit(b, eng, cfg, r, o);
    CandidateAmountMembers(b, o, txn.amountPaise);
    e := FuzzyEvidence(eng, cfg, o, txn, WeightOf(cands, m.txn.value).value);
  }

  /** The receipt and the cited tax evidence together make the invoice. */
  ghost predicate NetOfCitedEvidence(b: Batch, o: Order, v: OrderVerdict) {
    exists e :: e in TdsProofs(b, o.orderId) && e.TdsEvidence?
                && v.evidence.sourceRows != [] && v.evidence.sourceRows[0] == e.evidenceId
                && v.moneyReceivedPaise + e.amountPaise == o.amountPaise
  }

  /** Money recorded as received out of band is the invoice; net of TDS, receipt and cited evidence make the invoice. */
  lemma InvoiceConserved(b: Batch, eng: Engine, cfg: Config, r: Run, o: Order)
    requires IsRun(b, eng, cfg, r) && o in b.orders
    ensures r.verdicts[o.orderId].verdict.PaidOutOfBand? ==>
              r.verdicts[o.orderId].moneyReceivedPaise == o.amountPaise && CapsOf(b, o.orderId) == []
    ensures r.verdicts[o.orderId].verdict.PaidNetOfTds? ==> NetOfCitedEvidence(b, o, r.verdicts[o.orderId])
  {
    hide Resolve, NetOfCitedEvidence, IsRefundNetZero;
    var v := r.verdicts[o.orderId];
    if v.verdict.PaidOutOfBand? || v.verdict.PaidNetOfTds? {
      var txn, ev := PaidByMatch(b, eng, cfg, r, o);
      MatchConserves(b, o, txn, ev);
    }
  }

  lemma MatchConserves(b: Batch, o: Order, txn: BankTxn, ev: Evidence)
    requires Validated(b) && o in b.orders && ExplainedAmount(b, o, txn.amountPaise)
    requires txn in Credits(b)
    ensures var v := ResolveMatch(b, o, txn, ev, false);
            && (v.verdict.PaidOutOfBand? ==> v.moneyReceivedPaise == o.amountPaise)
            && (v.verdict.PaidNetOfTds? ==> NetOfCitedEvidence(b, o, v) && 0 < v.moneyReceivedPaise < o.amountPaise)
  {
    assert ValidOrder(o) && ValidBankTxn(txn);
    TdsRateExact(o.amountPaise, txn.amountPaise);
    forall bp | bp in STATUTORY_TDS_RATES_BP
      ensures PctBp(o.amountPaise, bp) >= 0
    {
      PctBpBounds(o.amountPaise, bp);
    }
    assert forall e :: e in TdsProofs(b, o.orderId) ==> e in b.events && e.TdsEvidence? && ValidEvent(e);
  }

  /** Every verdict's two amounts account for the invoice in one of four ways. */
  ghost predicate AmountsAccountFor(b: Batch, o: Order, v: OrderVerdict) {
    match v.verdict
    case SettledClean => v.moneyReceivedPaise == o.amountPaise && v.deltaDuePaise == 0
    case SettledLate => v.moneyReceivedPaise == o.amountPaise && v.deltaDuePaise == 0
    case ChargebackOpen => v.moneyReceivedPaise == o.amountPaise && v.deltaDuePaise == 0
    case PaidOutOfBand => v.moneyReceivedPaise == o.amountPaise && v.deltaDuePaise == 0
    case PartiallyPaid => v.moneyReceivedPaise + v.deltaDuePaise == o.amountPaise && v.deltaDuePaise > 0
    case PaidNetOfTds => 0 < v.moneyReceivedPaise < o.amountPaise && v.deltaDuePaise == 0
    case RefundedThenRepaid => ExplainedAmount(b, o, v.moneyReceivedPaise) && v.deltaDuePaise == 0
    case _ => v.moneyReceivedPaise == 0 && v.deltaDuePaise == 0
  }

  /** Outside the scored and the partial verdicts the amounts are the invoice or nothing. */
  lemma PlainAmounts(b: Batch, eng: Engine, cfg: Config, o: Order, hits: map<string, Hit>, pool: seq<BankTxn>,
                     m: Match, cands: seq<Candidate>)
    requires o.amountPaise > 0
    ensures var v := Resolve(b, eng, cfg, o, hits, pool, m, cands);
            !PaidByScore(v.verdict) && !v.verdict.PartiallyPaid? ==> AmountsAccountFor(b, o, v)
  {
    hide Filter, Classify, UtrCount, FirstProof, TdsRateBp, CoverageEnd, EngineDelta, IsRefundNetZero,
         ExplainedAmount;
  }

  lemma MatchAmounts(b: Batch, o: Order, txn: BankTxn, ev: Evidence, netZero: bool)
    ensures var v := ResolveMatch(b, o, txn, ev, netZero);
            && v.deltaDuePaise == 0
            && (v.verdict.RefundedThenRepaid? ==> v.moneyReceivedPaise == txn.amountPaise)
            && (PaidByScore(v.verdict) && !netZero ==> !v.verdict.RefundedThenRepaid?)
            && (netZero ==> v.verdict.RefundedThenRepaid?)
  {
  }

  lemma ScoredAmounts(b: Batch, eng: Engine, cfg: Config, r: Run, o: Order)
    requires IsRun(b, eng, cfg, r) && o in b.orders && PaidByScore(r.verdicts[o.orderId].verdict)
    ensures AmountsAccountFor(b, o, r.verdicts[o.orderId])
  {
    hide Resolve, ResolveMatch, ExplainedAmount, NetOfCitedEvidence, IsRefundNetZero, IsEdgeTable, MatchSpec;
    var txn, ev := PaidByMatch(b, eng, cfg, r, o);
    MatchAmounts(b, o, txn, ev, IsRefundNetZero(CapsOf(b, o.orderId)));
    if !r.verdicts[o.orderId].verdict.RefundedThenRepaid? {
      MatchConserves(b, o, txn, ev);
    }
  }

  lemma AmountsAccount(b: Batch, eng: Engine, cfg: Config, r: Run, o: Order)
    requires IsRun(b, eng, cfg, r) && o in b.orders
    ensures AmountsAccountFor(b, o, r.verdicts[o.orderId])
  {
    hide Resolve, ExplainedAmount, IsRun;
    RunVerdict(b, eng, cfg, r, o);
    var v, m, cands := r.verdicts[o.orderId], MatchOf(r, o.orderId), CandsOf(r, o.orderId);
    if PaidByScore(v.verdict) {
      ScoredAmounts(b, eng, cfg, r, o);
    } else if v.verdict.PartiallyPaid? {
      PartialBranch(b, eng, cfg, o, r.settled.hits, r.pool, m, cands);
      RunIsValidated(b, eng, cfg, r);
      OrderRefundsPositive(b, o);
    } else {
      PlainAmounts(b, eng, cfg, o, r.settled.hits, r.pool, m, cands);
    }
  }

  lemma RunIsValidated(b: Batch, eng: Engine, cfg: Config, r: Run)
    requires IsRun(b, eng, cfg, r)
    ensures Validated(b)
  {
  }
}
