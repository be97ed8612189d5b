/** Certificates for payments the assignment pass found: exactly which of them the verifier accepts. */
module ScoredProofs {
  import opened Prelude
  import opened Models
  import opened Recon
  import opened ReconSafety
  import opened SourceRows
  import opened Certificates
  import opened Verifier
  import opened ProofSoundness
  import opened ProofCompleteness
  import opened SettlementProofs
  import opened Refunds
  import opened Sorting
  import opened ClaimProofs
  import Matching

  // ------------------------------------------------------------ paid out of band

  lemma OutOfBandVerdict(b: Batch, eng: Engine, cfg: Config, r: Run, o: Order) returns (t: BankTxn)
    requires IsRun(b, eng, cfg, r) && o in b.orders && r.verdicts[o.orderId].verdict.PaidOutOfBand?
    ensures var v := r.verdicts[o.orderId];
            && v.moneyReceivedPaise == o.amountPaise == t.amountPaise && o.amountPaise > 0 && v.deltaDuePaise == 0
            && v.evidence.passUsed.Pass4Fuzzy? && v.evidence.automationPath.ProbabilisticPath?
            && v.evidence.sourceRows == [t.txnId]
    ensures t in Credits(b) && CapsOf(b, o.orderId) == []
  {
    hide Resolve, IsRefundNetZero, ExplainedAmount, UtrCount, IsEdgeTable, Matching.MatchSpec;
    var e: Evidence;
    t, e := PaidByMatch(b, eng, cfg, r, o);
    InvoiceConserved(b, eng, cfg, r, o);
    RunVerdict(b, eng, cfg, r, o);
    OutOfBandBranch(b, o, t, e, IsRefundNetZero(CapsOf(b, o.orderId)));
  }

  lemma OutOfBandBranch(b: Batch, o: Order, t: BankTxn, e: Evidence, netZero: bool)
    requires ResolveMatch(b, o, t, e, netZero).verdict.PaidOutOfBand?
    ensures ResolveMatch(b, o, t, e, netZero) == OrderVerdict(o.orderId, PaidOutOfBand, e, t.amountPaise, 0, true)
  {
  }

  /** Invoice and receipt, then the credit against the receipt: what the terms of a scored payment add up to. */
  lemma ReceiptTermsSum(o: Order, v: OrderVerdict, t: BankTxn, rest: seq<AmountTerm>)
    requires v.deltaDuePaise == 0
    ensures var head := [AmountTerm(InvoiceTerm, o.amountPaise, o.orderId, AmountField),
                         AmountTerm(MoneyReceived, -v.moneyReceivedPaise, "", NoField)];
            Sum(head + (ReceiptTerms(ByTxn([t]), v.moneyReceivedPaise) + rest), TermAmount)
            == o.amountPaise - v.moneyReceivedPaise + t.amountPaise - v.moneyReceivedPaise + Sum(rest, TermAmount)
  {
    hide Sum, TermAmount;
    var invoice := AmountTerm(InvoiceTerm, o.amountPaise, o.orderId, AmountField);
    var received := AmountTerm(MoneyReceived, -v.moneyReceivedPaise, "", NoField);
    var pair := ReceiptTerm(t, v.moneyReceivedPaise);
    SortOne(t, TxnLe);
    OneReceipt(t, v.moneyReceivedPaise);
    SumConcat([invoice, received], pair + rest, TermAmount);
    SumConcat(pair, rest, TermAmount);
    SumFew(invoice, received, received, TermAmount);
    SumFew(pair[0], pair[1], pair[1], TermAmount);
    assert pair == [pair[0], pair[1]];
    TermAmounts(invoice, received, pair[0], pair[1]);
  }

  lemma OneReceipt(t: BankTxn, received: int)
    ensures ReceiptTerms([t], received) == ReceiptTerm(t, received)
  {
    assert [t][..0] == [];
    assert [] + ReceiptTerm(t, received) == ReceiptTerm(t, received);
  }

  /** Every certificate of an order paid out of band is accepted, provided its score and calibration are well formed. */
  lemma OutOfBandAcceptedExactly(b: Batch, eng: Engine, cfg: Config, r: Run, o: Order, k: Check)
    requires IsRun(b, eng, cfg, r) && o in b.orders && r.verdicts[o.orderId].verdict.PaidOutOfBand?
    requires Fresh(k, o, r.verdicts[o.orderId]) && k.rows == RowsOf(b)
    ensures Accepts(k) <==> SoundProvenance(r.verdicts[o.orderId].evidence)
  {
    hide IsRun, Fresh, Accepts, EnvelopeErrors, AmountErrors, RuleErrors, EvidenceErrors, Raises, RowsOf, Validated;
    RunIsValidated(b, eng, cfg, r);
    RunVerdict(b, eng, cfg, r, o);
    var v := r.verdicts[o.orderId];
    var t := OutOfBandVerdict(b, eng, cfg, r, o);
    OneCreditClaimed(k, b, o, v, t);
    FreshAccepted(k, o, v);
    FreshEnvelope(k, o, v);
    ScoredAmounts(k, o, v, t);
    ScoredRules(k, o, v);
    ScoredEvidence(k, o, v, t);
  }

  /** The amount checks of a scored payment in full. */
  lemma ScoredAmounts(k: Check, o: Order, v: OrderVerdict, t: BankTxn)
    requires Fresh(k, o, v) && v.verdict.PaidOutOfBand? && v.evidence.passUsed.Pass4Fuzzy?
    requires ClaimedCredits(k) == [t] && v.moneyReceivedPaise == o.amountPaise == t.amountPaise && v.deltaDuePaise == 0
    ensures AmountErrors(k) == {}
  {
    hide Fresh, ClaimedRows, Sum, ReceiptTerms, GatewayTerms, AmountsByName, ByTxn;
    FreshSources(k, o, v);
    FreshRules(k, o, v);
    FreshAmounts(k, o, v);
    ReceiptTermsSum(o, v, t, []);
    NoTerms();
  }

  lemma NoTerms()
    ensures Sum<AmountTerm>([], TermAmount) == 0
  {
  }

  lemma ScoredRules(k: Check, o: Order, v: OrderVerdict)
    requires Fresh(k, o, v) && (v.verdict.PaidOutOfBand? || v.verdict.RefundedThenRepaid?)
    requires v.evidence.passUsed.Pass4Fuzzy?
    requires v.moneyReceivedPaise > 0 && v.deltaDuePaise == 0
    ensures RuleErrors(k) == {}
  {
    hide Fresh, TheRecon, RuleAllowed;
    FreshRules(k, o, v);
    FreshAmounts(k, o, v);
  }

  lemma ScoredEvidence(k: Check, o: Order, v: OrderVerdict, t: BankTxn)
    requires Fresh(k, o, v) && v.verdict.PaidOutOfBand? && v.evidence.passUsed.Pass4Fuzzy?
    requires ClaimedCredits(k) == [t] && v.moneyReceivedPaise == t.amountPaise && OrderCaptures(k) == []
    ensures EvidenceErrors(k) == {} && !Raises(k)
  {
    hide Fresh, TheRecon, ClaimedCredits, OrderCaptures, ClaimedCaptures, InvoiceOf, FullyRefunded, TdsMatches,
         NoDelay;
    FreshRules(k, o, v);
    FreshAmounts(k, o, v);
  }

  // ------------------------------------------------------------ refunded then repaid

  /** The settlements that the order's own rows name. */
  function OwnSettlements(b: Batch, oid: string): set<string> {
    set c | c in CapsOf(b, oid) && c.settlementId != "" :: c.settlementId
  }

  /** No other order's row lies in a settlement of this order. */
  ghost predicate KeepsToItself(b: Batch, oid: string) {
    forall c :: c in b.captures && c.settlementId in OwnSettlements(b, oid) ==> c.orderId == oid
  }

  function OwnOrGrouped(b: Batch, oid: string): Capture -> bool {
    (c: Capture) => c.orderId == oid || c.settlementId in OwnSettlements(b, oid)
  }

  lemma RepaidCites(b: Batch, o: Order, v: OrderVerdict, t: BankTxn, id: string)
    requires v.verdict.RefundedThenRepaid? && v.evidence.sourceRows == [t.txnId]
    ensures id in Cited(o, v, RowsOf(b))
       <==> id == o.orderId || id == t.txnId || exists c :: c in CapsOf(b, o.orderId) && c.paymentId == id
  {
    hide RowsOf;
    var rows := RowsOf(b);
    if id in (set r | r in rows && r.CaptureRow? && r.capture.orderId == o.orderId :: RowId(r)) {
      var r :| r in rows && r.CaptureRow? && r.capture.orderId == o.orderId && RowId(r) == id;
      RowsMembers(b, r);
      assert r.capture in CapsOf(b, o.orderId) && r.capture.paymentId == id;
    }
    if c :| c in CapsOf(b, o.orderId) && c.paymentId == id {
      RowsMembers(b, CaptureRow(c));
      CaptureNamed(c);
    }
  }

  lemma RepaidCitesRow(k: Check, b: Batch, o: Order, v: OrderVerdict, t: BankTxn, r: Row)
    requires IssuedOver(k, b, o, v) && r in k.rows
    requires v.verdict.RefundedThenRepaid? && v.evidence.sourceRows == [t.txnId] && t in Credits(b)
    ensures RowId(r) in Cited(o, v, RowsOf(b))
       <==> r == OrderRow(o) || r == BankRow(t) || (r.CaptureRow? && r.capture in CapsOf(b, o.orderId))
  {
    hide RowsOf, Validated, Fresh, RowId, Cited, Filter;
    var rows := RowsOf(b);
    FreshIsKeyed(k, o, v);
    RepaidCites(b, o, v, t, RowId(r));
    OrderNamed(o);
    CreditNamed(t);
    RowsMembers(b, BankRow(t));
    if RowId(r) == o.orderId {
      SameIdInRows(rows, r, OrderRow(o));
    } else if RowId(r) == t.txnId {
      SameIdInRows(rows, r, BankRow(t));
    } else if c :| c in CapsOf(b, o.orderId) && c.paymentId == RowId(r) {
      RowsMembers(b, CaptureRow(c));
      CaptureNamed(c);
      SameIdInRows(rows, r, CaptureRow(c));
    }
    if r.CaptureRow? {
      CaptureNamed(r.capture);
    }
  }

  lemma RepaidSettlements(k: Check, b: Batch, o: Order, v: OrderVerdict, t: BankTxn)
    requires IssuedOver(k, b, o, v)
    requires v.verdict.RefundedThenRepaid? && v.evidence.sourceRows == [t.txnId] && t in Credits(b)
    ensures CitedSettlements(Cited(o, v, RowsOf(b)), RowsOf(b)) == OwnSettlements(b, o.orderId)
  {
    hide RowsOf, Validated, Fresh, RowId, Cited, Filter, Indexed;
    var rows, cited := RowsOf(b), Cited(o, v, RowsOf(b));
    FreshIsKeyed(k, o, v);
    forall s
      ensures s in CitedSettlements(cited, rows) <==> s in OwnSettlements(b, o.orderId)
    {
      if s in CitedSettlements(cited, rows) {
        var id :| id in cited && id in Indexed(rows) && SettlementField(Indexed(rows)[id]).GetOr("") == s && s != "";
        RepaidCitesRow(k, b, o, v, t, Indexed(rows)[id]);
      }
      if s in OwnSettlements(b, o.orderId) {
        var c :| c in CapsOf(b, o.orderId) && c.settlementId == s && s != "";
        RowsMembers(b, CaptureRow(c));
        RowIsIndexed(rows, CaptureRow(c));
        RepaidCitesRow(k, b, o, v, t, CaptureRow(c));
      }
    }
  }

  lemma RepaidClaimed(k: Check, b: Batch, o: Order, v: OrderVerdict, t: BankTxn)
    requires IssuedOver(k, b, o, v)
    requires v.verdict.RefundedThenRepaid? && v.evidence.sourceRows == [t.txnId] && t in Credits(b)
    ensures ClaimedCaptures(k) == Filter(b.captures, OwnOrGrouped(b, o.orderId)) && ClaimedCredits(k) == [t]
    ensures OrderCaptures(k) == CapsOf(b, o.orderId) && TdsIn(ClaimedRows(k)) == []
  {
    hide RowsOf, Validated, Fresh, RowId, Cited, Filter, CitedSettlements, OwnSettlements, ClaimedRows;
    RepaidSettlements(k, b, o, v, t);
    BatchRows(b);
    forall r | r in k.rows
      ensures IsClaimed(b, o, v, r)
         <==> || r == OrderRow(o) || r == BankRow(t) || (r.CaptureRow? && r.capture in CapsOf(b, o.orderId))
              || (SettlementField(r).Some? && SettlementField(r).value in OwnSettlements(b, o.orderId))
    {
      RepaidCitesRow(k, b, o, v, t, r);
    }
    hide IsClaimed;
    var q := (u: BankTxn) => u == t;
    ClaimedKinds(k, b, o, v, OwnOrGrouped(b, o.orderId), q);
    CreditsHaveNoDup(b);
    FilterSingle(Credits(b), q, t);
    NoTaxClaimed(k, b, o, v);
  }

  lemma GroupedAreOwn(b: Batch, oid: string)
    ensures Filter(b.captures, OwnOrGrouped(b, oid)) == CapsOf(b, oid) <==> KeepsToItself(b, oid)
  {
    hide Filter, OwnSettlements;
    if KeepsToItself(b, oid) {
      FilterAgree(b.captures, OwnOrGrouped(b, oid), OfOrder(oid));
    }
    if Filter(b.captures, OwnOrGrouped(b, oid)) == CapsOf(b, oid) {
      forall c | c in b.captures && c.settlementId in OwnSettlements(b, oid)
        ensures c.orderId == oid
      {
        assert OwnOrGrouped(b, oid)(c) && c in CapsOf(b, oid);
      }
    }
  }

  /**
   * A repayment's certificate is accepted exactly when the receipt is the invoice, the order's rows share no settlement
   * with another order, and score and calibration are well formed.
   */
  lemma RepaymentAcceptedExactly(b: Batch, eng: Engine, cfg: Config, r: Run, o: Order, k: Check)
    requires IsRun(b, eng, cfg, r) && o in b.orders && r.verdicts[o.orderId].verdict.RefundedThenRepaid?
    requires Fresh(k, o, r.verdicts[o.orderId]) && k.rows == RowsOf(b)
    ensures Accepts(k)
       <==> && r.verdicts[o.orderId].moneyReceivedPaise == o.amountPaise && KeepsToItself(b, o.orderId)
            && SoundProvenance(r.verdicts[o.orderId].evidence)
  {
    hide IsRun, Fresh, Accepts, EnvelopeErrors, AmountErrors, RuleErrors, EvidenceErrors, Raises, RowsOf, Validated,
         KeepsToItself, OrderCaptures, ClaimedCaptures, ClaimedCredits, ClaimedRows, Filter, Repayable;
    RunIsValidated(b, eng, cfg, r);
    RunVerdict(b, eng, cfg, r, o);
    var v := r.verdicts[o.orderId];
    var t := RepaidShape(b, eng, cfg, r, o);
    RepaidClaimed(k, b, o, v, t);
    GroupedAreOwn(b, o.orderId);
    FreshAccepted(k, o, v);
    FreshEnvelope(k, o, v);
    if Accepts(k) {
      var credit := RepaidCertificateBalances(k) by { ClaimsItsVerdict(k, o, v); }
      FreshSources(k, o, v);
    } else {
      ScoredRules(k, o, v);
      if v.moneyReceivedPaise == o.amountPaise && KeepsToItself(b, o.orderId) {
        RepaidAmounts(k, o, v, t);
        RepaidEvidence(k, o, v, t);
      }
    }
  }

  lemma RepaidShape(b: Batch, eng: Engine, cfg: Config, r: Run, o: Order) returns (t: BankTxn)
    requires IsRun(b, eng, cfg, r) && o in b.orders && r.verdicts[o.orderId].verdict.RefundedThenRepaid?
    ensures var v := r.verdicts[o.orderId];
            && v.moneyReceivedPaise == t.amountPaise > 0 && v.deltaDuePaise == 0
            && v.evidence.passUsed.Pass4Fuzzy? && v.evidence.automationPath.ProbabilisticPath?
            && v.evidence.sourceRows == [t.txnId]
    ensures t in Credits(b) && IsRefundNetZero(CapsOf(b, o.orderId))
  {
    hide Resolve, IsRefundNetZero, ExplainedAmount, UtrCount, IsEdgeTable, Matching.MatchSpec;
    var e: Evidence;
    t, e := PaidByMatch(b, eng, cfg, r, o);
    RunVerdict(b, eng, cfg, r, o);
    RepaidIsNetZero(b, o, t, e, IsRefundNetZero(CapsOf(b, o.orderId)));
    MatchAmounts(b, o, t, e, IsRefundNetZero(CapsOf(b, o.orderId)));
    assert ValidBankTxn(t);
  }

  lemma RepaidAmounts(k: Check, o: Order, v: OrderVerdict, t: BankTxn)
    requires Fresh(k, o, v) && v.verdict.RefundedThenRepaid? && v.evidence.passUsed.Pass4Fuzzy?
    requires ClaimedCredits(k) == [t] && v.moneyReceivedPaise == o.amountPaise == t.amountPaise && v.deltaDuePaise == 0
    requires Sum(ClaimedCaptures(k), NetOf) == 0
    ensures AmountErrors(k) == {}
  {
    hide Fresh, ClaimedRows, Sum, ReceiptTerms, GatewayTerms, AmountsByName, ByTxn, ByPayment;
    FreshSources(k, o, v);
    FreshRules(k, o, v);
    FreshAmounts(k, o, v);
    ReceiptTermsSum(o, v, t, GatewayTerms(ByPayment(ClaimedCaptures(k))));
    GatewayTermsSum(ByPayment(ClaimedCaptures(k)));
    SameNet(ClaimedCaptures(k));
  }

  lemma SameNet(caps: seq<Capture>)
    ensures Sum(ByPayment(caps), NetOf) == Sum(caps, NetOf)
  {
    SortPermutes(caps, PaymentLe);
    SumPermutation(ByPayment(caps), caps, NetOf);
  }

  lemma RepaidEvidence(k: Check, o: Order, v: OrderVerdict, t: BankTxn)
    requires Fresh(k, o, v) && v.verdict.RefundedThenRepaid? && v.evidence.passUsed.Pass4Fuzzy?
    requires ClaimedCredits(k) == [t] && v.moneyReceivedPaise == t.amountPaise
    requires ClaimedCaptures(k) == OrderCaptures(k) && IsRefundNetZero(OrderCaptures(k))
    ensures EvidenceErrors(k) == {} && !Raises(k)
  {
    hide Fresh, TheRecon, ClaimedCredits, OrderCaptures, ClaimedCaptures, InvoiceOf, TdsMatches, NoDelay, Sum;
    FreshRules(k, o, v);
    FreshAmounts(k, o, v);
  }

  // ------------------------------------------------------------ paid net of TDS

  /** The receipt and one piece of the order's tax evidence are what the verdict cites. */
  ghost predicate NetShape(b: Batch, o: Order, v: OrderVerdict, t: BankTxn, e: FinanceEvent) {
    && v.verdict.PaidNetOfTds? && v.evidence.passUsed.Pass4FuzzyTdsEvidence? && v.evidence.automationPath.ProbabilisticPath?
    && t in Credits(b) && e in b.events && e.TdsEvidence? && e.orderId == o.orderId
    && v.evidence.sourceRows == [e.evidenceId, t.txnId]
    && v.moneyReceivedPaise == t.amountPaise > 0 && v.deltaDuePaise == 0
    && t.amountPaise + e.amountPaise == o.amountPaise && e.amountPaise > 0
    && CapsOf(b, o.orderId) == []
  }

  lemma NetBranch(b: Batch, o: Order, t: BankTxn, x: Evidence, netZero: bool)
    requires ResolveMatch(b, o, t, x, netZero).verdict.PaidNetOfTds?
    ensures !netZero && 0 < o.amountPaise - t.amountPaise
    ensures exists e :: e in TdsProofs(b, o.orderId) && e.TdsEvidence? && e.amountPaise == o.amountPaise - t.amountPaise
                        && ResolveMatch(b, o, t, x, netZero)
                           == OrderVerdict(o.orderId, PaidNetOfTds,
                                           x.(passUsed := Pass4FuzzyTdsEvidence, sourceRows := [e.evidenceId, t.txnId]),
                                           t.amountPaise, 0, true)
  {
    var proof := FirstProof(TdsProofs(b, o.orderId), o.amountPaise - t.amountPaise);
    assert proof.Some? && proof.value in TdsProofs(b, o.orderId);
  }

  lemma NetVerdict(b: Batch, eng: Engine, cfg: Config, r: Run, o: Order) returns (t: BankTxn, e: FinanceEvent)
    requires IsRun(b, eng, cfg, r) && o in b.orders && r.verdicts[o.orderId].verdict.PaidNetOfTds?
    ensures NetShape(b, o, r.verdicts[o.orderId], t, e)
  {
    hide Resolve, IsRefundNetZero, ExplainedAmount, UtrCount, IsEdgeTable, Matching.MatchSpec, ResolveMatch, CapsOf;
    var x: Evidence;
    t, x := PaidByMatch(b, eng, cfg, r, o);
    RunVerdict(b, eng, cfg, r, o);
    NetBranch(b, o, t, x, IsRefundNetZero(CapsOf(b, o.orderId)));
    e :| e in TdsProofs(b, o.orderId) && e.TdsEvidence? && e.amountPaise == o.amountPaise - t.amountPaise
         && r.verdicts[o.orderId]
            == OrderVerdict(o.orderId, PaidNetOfTds,
                            x.(passUsed := Pass4FuzzyTdsEvidence, sourceRows := [e.evidenceId, t.txnId]), t.amountPaise, 0, true);
    assert TdsFor(o.orderId)(e);
    assert ValidBankTxn(t);
  }

  lemma NetClaimedRow(k: Check, b: Batch, o: Order, v: OrderVerdict, t: BankTxn, e: FinanceEvent, r: Row)
    requires IssuedOver(k, b, o, v) && NetShape(b, o, v, t, e) && r in k.rows
    ensures IsClaimed(b, o, v, r) <==> r == OrderRow(o) || r == BankRow(t) || r == EventRow(e)
    ensures EventRow(e) in k.rows && BankRow(t) in k.rows
  {
    hide RowsOf, Validated, Fresh, RowId, Indexed, CapsOf;
    var rows := RowsOf(b);
    FreshIsKeyed(k, o, v);
    OrderNamed(o);
    CreditNamed(t);
    EvidenceNamed(e);
    RowsMembers(b, BankRow(t));
    RowsMembers(b, EventRow(e));
    RowIsIndexed(rows, OrderRow(o));
    RowIsIndexed(rows, BankRow(t));
    RowIsIndexed(rows, EventRow(e));
    assert Cited(o, v, rows) == {o.orderId, e.evidenceId, t.txnId};
    assert CitedSettlements(Cited(o, v, rows), rows) == {};
    if RowId(r) == o.orderId {
      SameIdInRows(rows, r, OrderRow(o));
    } else if RowId(r) == t.txnId {
      SameIdInRows(rows, r, BankRow(t));
    } else if RowId(r) == e.evidenceId {
      SameIdInRows(rows, r, EventRow(e));
    }
  }

  lemma EvidenceNamed(e: FinanceEvent)
    requires e.TdsEvidence?
    ensures RowId(EventRow(e)) == e.evidenceId == EventId(e) && SettlementField(EventRow(e)).None?
  {
  }

  lemma {:induction false} TaxNoDup(rows: seq<Row>)
    requires NoDup(rows)
    ensures NoDup(TdsIn(rows))
  {
    if rows != [] {
      assert forall i, j :: 0 <= i < j < |rows[1..]| ==> rows[1..][i] == rows[i + 1] && rows[1..][j] == rows[j + 1];
      TaxNoDup(rows[1..]);
      assert rows[0] !in rows[1..];
    }
  }

  lemma NetClaimedRows(k: Check, b: Batch, o: Order, v: OrderVerdict, t: BankTxn, e: FinanceEvent)
    requires IssuedOver(k, b, o, v) && NetShape(b, o, v, t, e)
    ensures forall r :: r in k.rows ==> (IsClaimed(b, o, v, r) <==> r == OrderRow(o) || r == BankRow(t) || r == EventRow(e))
    ensures EventRow(e) in k.rows && BankRow(t) in k.rows && t in Credits(b) && CapsOf(b, o.orderId) == []
  {
    hide IssuedOver, IsClaimed, RowsOf, Credits, CapsOf;
    OverBatch(k, b, o, v);
    RowsMembers(b, BankRow(t));
    CreditIsBanked(b, t);
    NetClaimedRow(k, b, o, v, t, e, BankRow(t));
    forall r | r in k.rows
      ensures IsClaimed(b, o, v, r) <==> r == OrderRow(o) || r == BankRow(t) || r == EventRow(e)
    {
      NetClaimedRow(k, b, o, v, t, e, r);
    }
  }

  lemma NetTaxClaimed(k: Check, b: Batch, o: Order, v: OrderVerdict, t: BankTxn, e: FinanceEvent)
    requires IssuedOver(k, b, o, v) && NetShape(b, o, v, t, e)
    ensures TdsIn(ClaimedRows(k)) == [e] && EventRow(e) in ClaimedRows(k)
  {
    hide IssuedOver, IsClaimed, ClaimedRows, RowsOf, TdsIn, Credits, CapsOf;
    NetClaimedRows(k, b, o, v, t, e);
    ClaimedIs(k, b, o, v, EventRow(e));
    ClaimedNoDup(k, b, o, v);
    TaxNoDup(ClaimedRows(k));
    forall x
      ensures x in TdsIn(ClaimedRows(k)) <==> x == e
    {
      if x in TdsIn(ClaimedRows(k)) {
        RowsClaimed(k, b, o, v, EventRow(x));
        ClaimedIsRow(k, EventRow(x));
      }
    }
    SingleElement(TdsIn(ClaimedRows(k)), e);
  }

  lemma NetClaimed(k: Check, b: Batch, o: Order, v: OrderVerdict, t: BankTxn, e: FinanceEvent)
    requires IssuedOver(k, b, o, v) && NetShape(b, o, v, t, e)
    ensures ClaimedCaptures(k) == [] && ClaimedCredits(k) == [t] && OrderCaptures(k) == []
  {
    hide IssuedOver, IsClaimed, ClaimedRows, Filter, RowsOf, Credits, CapsOf, NetShape;
    NetClaimedRows(k, b, o, v, t, e);
    OverBatch(k, b, o, v);
    BatchRows(b);
    var q := (u: BankTxn) => u == t;
    ClaimedKinds(k, b, o, v, Never<Capture>(), q);
    FilterEmpty(b.captures, Never<Capture>());
    CreditsHaveNoDup(b);
    FilterSingle(Credits(b), q, t);
  }

  lemma SingleElement<T(!new)>(s: seq<T>, x: T)
    requires NoDup(s) && forall y :: y in s <==> y == x
    ensures s == [x]
  {
    CardinalityNoDup(s);
    assert Elems(s) == {x};
  }

  lemma NetTermFits(k: Check, o: Order, v: OrderVerdict, e: FinanceEvent, t: AmountTerm)
    requires Fresh(k, o, v) && v.verdict.PaidNetOfTds? && TdsIn(ClaimedRows(k)) == [e] && e.TdsEvidence?
    requires EventRow(e) in ClaimedRows(k) && v.moneyReceivedPaise + e.amountPaise == o.amountPaise
    requires t in k.cert.claim.amountTerms
    ensures (t.sourceRowId != "" ==> TermHasSource(k, t)) && !TermMismatch(k, t)
  {
    hide Fresh, ClaimedRows, TermHasSource, TermMismatch, EvidenceTerms, TdsIn;
    FreshAmounts(k, o, v);
    FreshRules(k, o, v);
    OrderRowClaimed(k, o, v);
    EvidenceNamed(e);
    if t in EvidenceTerms(v, ClaimedRows(k)) {
      EvidenceTermFits(k, v, t);
    } else if t.name.TdsWithheld? {
      SourcedTermFits(k, EventRow(e), t);
    } else {
      VerdictTermFits(k, o, v, t);
    }
  }

  lemma NetTermErrors(k: Check, o: Order, v: OrderVerdict, e: FinanceEvent)
    requires Fresh(k, o, v) && v.verdict.PaidNetOfTds? && TdsIn(ClaimedRows(k)) == [e] && e.TdsEvidence?
    requires EventRow(e) in ClaimedRows(k) && v.moneyReceivedPaise + e.amountPaise == o.amountPaise
    ensures TermErrors(k) == {} && (TdsErrors(k) == {} <==> SoundTds(e))
  {
    hide Fresh, ClaimedRows, TermHasSource, TermMismatch, SoundTds;
    forall t | t in k.cert.claim.amountTerms
      ensures (t.sourceRowId != "" ==> TermHasSource(k, t)) && !TermMismatch(k, t)
    {
      NetTermFits(k, o, v, e, t);
    }
  }

  /** Invoice, receipt and withheld tax cancel, and so do credit and receipt. */
  lemma NetTerms(o: Order, v: OrderVerdict, t: BankTxn, e: FinanceEvent)
    ensures var invoice := AmountTerm(InvoiceTerm, o.amountPaise, o.orderId, AmountField);
            var received := AmountTerm(MoneyReceived, -v.moneyReceivedPaise, "", NoField);
            var withheld := AmountTerm(TdsWithheld, -(o.amountPaise - v.moneyReceivedPaise), EventId(e), AmountField);
            Sum([invoice, received, withheld] + ReceiptTerm(t, v.moneyReceivedPaise), TermAmount)
            == t.amountPaise - v.moneyReceivedPaise
  {
    hide Sum, TermAmount, EventId;
    var invoice := AmountTerm(InvoiceTerm, o.amountPaise, o.orderId, AmountField);
    var received := AmountTerm(MoneyReceived, -v.moneyReceivedPaise, "", NoField);
    var withheld := AmountTerm(TdsWithheld, -(o.amountPaise - v.moneyReceivedPaise), EventId(e), AmountField);
    var pair := ReceiptTerm(t, v.moneyReceivedPaise);
    SumConcat([invoice, received, withheld], pair, TermAmount);
    SumFew(invoice, received, withheld, TermAmount);
    SumFew(pair[0], pair[1], pair[1], TermAmount);
    assert pair == [pair[0], pair[1]];
    TermAmounts(invoice, received, pair[0], pair[1]);
    TermAmounts(withheld, received, pair[0], pair[1]);
  }

  lemma NetAmounts(k: Check, o: Order, v: OrderVerdict, t: BankTxn, e: FinanceEvent)
    requires Fresh(k, o, v) && v.verdict.PaidNetOfTds? && v.evidence.passUsed.Pass4FuzzyTdsEvidence?
    requires ClaimedCredits(k) == [t] && TdsIn(ClaimedRows(k)) == [e] && v.moneyReceivedPaise == t.amountPaise
    ensures AmountErrors(k) == {}
  {
    hide Fresh, ClaimedRows, Sum, TermAmount, ReceiptTerms, GatewayTerms, AmountsByName, TdsIn, CreditsIn, EventId;
    FreshSources(k, o, v);
    ClaimsItsVerdict(k, o, v);
    FreshAmounts(k, o, v);
    var head := VerdictTerms(o, v, ClaimedRows(k)).value;
    SortOne(t, TxnLe);
    OneReceipt(t, v.moneyReceivedPaise);
    NetTerms(o, v, t, e);
    assert EvidenceTerms(v, ClaimedRows(k)) == ReceiptTerm(t, v.moneyReceivedPaise);
    assert k.cert.claim.amountTerms[2] == head[2];
  }

  lemma NetRules(k: Check, o: Order, v: OrderVerdict)
    requires Fresh(k, o, v) && v.verdict.PaidNetOfTds? && v.evidence.passUsed.Pass4FuzzyTdsEvidence?
    requires v.moneyReceivedPaise > 0 && v.deltaDuePaise == 0
    ensures RuleErrors(k) == {}
  {
    hide Fresh, TheRecon, RuleAllowed;
    FreshRules(k, o, v);
    FreshAmounts(k, o, v);
  }

  lemma NetEvidence(k: Check, o: Order, v: OrderVerdict, t: BankTxn, e: FinanceEvent)
    requires Fresh(k, o, v) && v.verdict.PaidNetOfTds? && v.evidence.passUsed.Pass4FuzzyTdsEvidence?
    requires ClaimedCredits(k) == [t] && TdsIn(ClaimedRows(k)) == [e] && OrderCaptures(k) == []
    requires e.orderId == o.orderId
    requires v.moneyReceivedPaise == t.amountPaise && t.amountPaise + e.amountPaise == o.amountPaise
    ensures EvidenceErrors(k) == {} && !Raises(k)
  {
    hide Fresh, TheRecon, ClaimedCredits, OrderCaptures, ClaimedCaptures, InvoiceOf, FullyRefunded, NoDelay,
         ClaimedRows, TdsIn;
    FreshSources(k, o, v);
    FreshRules(k, o, v);
    FreshAmounts(k, o, v);
  }

  /** A payment net of TDS: accepted exactly when the one piece of evidence is sound, and score and calibration well formed. */
  lemma NetOfTdsAcceptedExactly(b: Batch, eng: Engine, cfg: Config, r: Run, o: Order, k: Check)
    returns (t: BankTxn, e: FinanceEvent)
    requires IsRun(b, eng, cfg, r) && o in b.orders && r.verdicts[o.orderId].verdict.PaidNetOfTds?
    requires Fresh(k, o, r.verdicts[o.orderId]) && k.rows == RowsOf(b)
    ensures NetShape(b, o, r.verdicts[o.orderId], t, e)
    ensures Accepts(k) <==> SoundTds(e) && SoundProvenance(r.verdicts[o.orderId].evidence)
  {
    hide IsRun, Fresh, EnvelopeErrors, AmountErrors, RuleErrors, EvidenceErrors, Raises, RowsOf, Validated, SoundTds,
         SourceErrors, ExpectationErrors, SchemaErrors, TermErrors, TdsErrors, ClaimedRows, ClaimedCaptures,
         ClaimedCredits, OrderCaptures, Credits, CapsOf;
    RunIsValidated(b, eng, cfg, r);
    RunVerdict(b, eng, cfg, r, o);
    var v := r.verdicts[o.orderId];
    t, e := NetVerdict(b, eng, cfg, r, o);
    NetClaimed(k, b, o, v, t, e);
    NetTaxClaimed(k, b, o, v, t, e);
    FreshSources(k, o, v);
    FreshSchema(k, o, v);
    FreshEnvelope(k, o, v);
    NetTermErrors(k, o, v, e);
    NetAmounts(k, o, v, t, e);
    NetRules(k, o, v);
    NetEvidence(k, o, v, t, e);
  }
}
