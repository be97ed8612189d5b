/** Certificates for frozen, failed and undecided orders: exactly which of them the verifier accepts. */
module FrozenProofs {
  import opened Prelude
  import opened Models
  import opened Recon
  import opened ReconSafety
  import opened SourceRows
  import opened Certificates
  import opened Verifier
  import opened ProofCompleteness
  import opened SettlementProofs
  import opened Sorting
  import opened ClaimProofs
  import opened UnpaidProofs
  import ComponentAssignment
  import Dates
  import Enumeration
  import Matching
  import Money

  // ------------------------------------------------------------ terms and rules

  predicate DecidesNothing(v: OrderVerdict) {
    (v.verdict.Ambiguous? || v.verdict.PossibleTdsWithholding? || v.verdict.FailedNotDebited?)
    && v.moneyReceivedPaise == 0 && v.deltaDuePaise == 0
  }

  lemma NothingAmounts(k: Check, o: Order, v: OrderVerdict)
    requires Fresh(k, o, v) && DecidesNothing(v) && Justifies(v.evidence.passUsed, v.verdict)
    ensures AmountErrors(k) == {}
  {
    hide Fresh, AmountsByName, Justifies, InvoiceOf;
    NothingTerms(k, o, v);
    ClaimsItsVerdict(k, o, v);
  }

  lemma NothingRules(k: Check, o: Order, v: OrderVerdict)
    requires Fresh(k, o, v) && DecidesNothing(v) && Justifies(v.evidence.passUsed, v.verdict)
    ensures RuleErrors(k) == {}
  {
    hide Fresh, TheRecon, RuleAllowed, Justifies;
    FreshRules(k, o, v);
    FreshAmounts(k, o, v);
  }

  lemma NothingTerms(k: Check, o: Order, v: OrderVerdict)
    requires Fresh(k, o, v) && DecidesNothing(v) && Justifies(v.evidence.passUsed, v.verdict)
    ensures k.cert.claim.amountTerms == []
  {
    hide Fresh, ClaimedRows, GatewayTerms, CreditTerms, ReceiptTerms;
    FreshAmounts(k, o, v);
  }

  lemma FrozenAmounts(k: Check, o: Order, v: OrderVerdict)
    requires Fresh(k, o, v) && v.verdict.ChargebackOpen? && v.moneyReceivedPaise == o.amountPaise > 0
    requires v.deltaDuePaise == 0
    requires v.evidence.passUsed.GatewayStatus? || v.evidence.passUsed.FinanceEventDispute?
    ensures AmountErrors(k) == {}
  {
    hide Fresh, ClaimedRows, Sum, AmountsByName, TermAmount, GatewayTerms, CreditTerms, ReceiptTerms;
    FreshSources(k, o, v);
    ClaimsItsVerdict(k, o, v);
    FreshAmounts(k, o, v);
    var invoice := AmountTerm(InvoiceTerm, o.amountPaise, o.orderId, AmountField);
    var received := AmountTerm(MoneyReceived, -v.moneyReceivedPaise, "", NoField);
    assert k.cert.claim.amountTerms == [invoice, received];
    SumFew(invoice, received, received, TermAmount);
    TermAmounts(invoice, received, received, received);
  }

  lemma FrozenRules(k: Check, o: Order, v: OrderVerdict)
    requires Fresh(k, o, v) && v.verdict.ChargebackOpen? && v.moneyReceivedPaise > 0 && v.deltaDuePaise == 0
    requires v.evidence.passUsed.GatewayStatus? || v.evidence.passUsed.FinanceEventDispute?
    ensures RuleErrors(k) == {}
  {
    hide Fresh, TheRecon, RuleAllowed;
    FreshRules(k, o, v);
    FreshAmounts(k, o, v);
  }

  // ------------------------------------------------------------ open disputes

  lemma RefsAreDisputes(b: Batch, o: Order, v: OrderVerdict)
    requires v == Freeze(o, FinanceEventDispute, SortStrings(DisputeIds(OpenDisputes(b, o.orderId))))
    ensures forall id :: id in v.evidence.sourceRows ==>
              exists d :: d in OpenDisputes(b, o.orderId) && EventRow(d) in RowsOf(b) && RowId(EventRow(d)) == id
  {
    hide RowsOf, SortStrings, DisputeIds, OpenDisputes;
    forall id | id in v.evidence.sourceRows
      ensures exists d :: d in OpenDisputes(b, o.orderId) && EventRow(d) in RowsOf(b) && RowId(EventRow(d)) == id
    {
      DisputeOfId(b, o.orderId, id);
      var d :| d in OpenDisputes(b, o.orderId) && RowId(EventRow(d)) == id;
      OpenIsDispute(b, o.orderId, d);
      RowsMembers(b, EventRow(d));
    }
  }

  lemma DisputesCiteNoTax(k: Check, b: Batch, o: Order, v: OrderVerdict)
    requires IssuedOver(k, b, o, v)
    requires v == Freeze(o, FinanceEventDispute, SortStrings(DisputeIds(OpenDisputes(b, o.orderId))))
    ensures TdsIn(ClaimedRows(k)) == []
  {
    hide RowsOf, SortStrings, DisputeIds, OpenDisputes, RowId, ClaimedRows, IssuedOver;
    RefsAreDisputes(b, o, v);
    forall id | id in v.evidence.sourceRows
      ensures exists r :: r in RowsOf(b) && RowId(r) == id && !IsTaxRow(r)
    {
      var d :| d in OpenDisputes(b, o.orderId) && EventRow(d) in RowsOf(b) && RowId(EventRow(d)) == id;
      OpenIsDispute(b, o.orderId, d);
      assert !IsTaxRow(EventRow(d));
    }
    NoTaxCited(k, b, o, v);
  }

  /** The claimed disputes are the order's open ones. */
  lemma DisputesClaimed(k: Check, b: Batch, o: Order, v: OrderVerdict, e: FinanceEvent)
    requires IssuedOver(k, b, o, v)
    requires v == Freeze(o, FinanceEventDispute, SortStrings(DisputeIds(OpenDisputes(b, o.orderId))))
    ensures e in DisputesIn(ClaimedRows(k)) <==> e in OpenDisputes(b, o.orderId)
  {
    hide RowsOf, Validated, Fresh, RowId, ClaimedRows, CitedSettlements, SortStrings, DisputeIds, OpenDisputes,
         IssuedOver;
    OverBatch(k, b, o, v);
    FreshIsKeyed(k, o, v);
    if e in DisputesIn(ClaimedRows(k)) {
      RowsClaimed(k, b, o, v, EventRow(e));
      ClaimedIsRow(k, EventRow(e));
      var id := RowId(EventRow(e));
      RefsAreDisputes(b, o, v);
      OrderNamed(o);
      if id == o.orderId {
        SameIdInRows(k.rows, EventRow(e), OrderRow(o));
      } else {
        var d :| d in OpenDisputes(b, o.orderId) && EventRow(d) in RowsOf(b) && RowId(EventRow(d)) == id;
        SameIdInRows(k.rows, EventRow(e), EventRow(d));
      }
    }
    if e in OpenDisputes(b, o.orderId) {
      OpenIsDispute(b, o.orderId, e);
      RowsMembers(b, EventRow(e));
      DisputeIdListed(b, o.orderId, e);
      ClaimedIs(k, b, o, v, EventRow(e));
    }
  }

  lemma DisputeOfId(b: Batch, oid: string, id: string)
    requires id in SortStrings(DisputeIds(OpenDisputes(b, oid)))
    ensures exists d :: d in OpenDisputes(b, oid) && RowId(EventRow(d)) == id
  {
    hide OpenDisputes;
    var open := OpenDisputes(b, oid);
    SortElems(DisputeIds(open), StringLe);
    assert id in Elems(DisputeIds(open));
    var i :| 0 <= i < |open| && DisputeIds(open)[i] == id;
    OpenIsDispute(b, oid, open[i]);
  }

  lemma OpenIsDispute(b: Batch, oid: string, d: FinanceEvent)
    requires d in OpenDisputes(b, oid)
    ensures d in b.events && d.Dispute? && d.status.Open? && d.orderId == oid && RowId(EventRow(d)) == d.disputeId
  {
    assert OpenDisputeOf(oid)(d);
  }

  lemma DisputeIdListed(b: Batch, oid: string, d: FinanceEvent)
    ensures d in OpenDisputes(b, oid) ==> RowId(EventRow(d)) in SortStrings(DisputeIds(OpenDisputes(b, oid)))
  {
    if d in OpenDisputes(b, oid) {
      var open := OpenDisputes(b, oid);
      OpenIsDispute(b, oid, d);
      hide OpenDisputes;
      var i :| 0 <= i < |open| && open[i] == d;
      assert DisputeIds(open)[i] == d.disputeId;
      SortElems(DisputeIds(open), StringLe);
      assert d.disputeId in Elems(DisputeIds(open));
      assert d.disputeId in Elems(SortStrings(DisputeIds(open)));
    }
  }

  lemma SameSizeDistinct<T>(s: seq<T>, t: seq<T>)
    requires NoDup(s) && NoDup(t) && Elems(s) == Elems(t)
    ensures |s| == |t|
  {
    CardinalityNoDup(s);
    CardinalityNoDup(t);
  }

  lemma {:induction false} DisputesNoDup(rows: seq<Row>)
    requires NoDup(rows)
    ensures NoDup(DisputesIn(rows))
  {
    if rows != [] {
      assert forall i, j :: 0 <= i < j < |rows[1..]| ==> rows[1..][i] == rows[i + 1] && rows[1..][j] == rows[j + 1];
      DisputesNoDup(rows[1..]);
      assert rows[0] !in rows[1..];
    }
  }

  /** The verifier's dispute check passes exactly for one open dispute of at most the invoice. */
  lemma DisputeEvidence(k: Check, b: Batch, o: Order, v: OrderVerdict)
    requires IssuedOver(k, b, o, v) && OpenDisputes(b, o.orderId) != []
    requires v == Freeze(o, FinanceEventDispute, SortStrings(DisputeIds(OpenDisputes(b, o.orderId))))
    ensures !Raises(k)
    ensures EvidenceErrors(k) == {}
       <==> |OpenDisputes(b, o.orderId)| == 1 && OpenDisputes(b, o.orderId)[0].amountPaise <= o.amountPaise
  {
    hide RowsOf, Validated, Fresh, TheRecon, ClaimedRows, InvoiceOf, OpenDisputes, SortStrings, DisputeIds;
    FreshRules(k, o, v);
    FreshAmounts(k, o, v);
    FreshSources(k, o, v);
    var claimed, open := DisputesIn(ClaimedRows(k)), OpenDisputes(b, o.orderId);
    forall e
      ensures e in claimed <==> e in open
    {
      DisputesClaimed(k, b, o, v, e);
    }
    ClaimedNoDup(k, b, o, v);
    DisputesNoDup(ClaimedRows(k));
    assert Elems(claimed) == Elems(open);
    SameSizeDistinct(claimed, open);
    var d := open[0];
    assert d in open && d in claimed;
    OpenIsDispute(b, o.orderId, d);
    DisputeIsPositive(b, d);
    if |open| == 1 {
      assert claimed[0] in claimed && claimed[0] in open;
      assert claimed[0] == d;
    }
  }

  lemma DisputeIsPositive(b: Batch, d: FinanceEvent)
    requires Validated(b) && d in b.events && d.Dispute?
    ensures d.amountPaise > 0
  {
    assert ValidEvent(d);
  }

  // ------------------------------------------------------------ frozen, failed and undecided

  /** What a frozen, failed or undecided verdict looks like. */
  ghost predicate OtherShape(b: Batch, o: Order, v: OrderVerdict) {
    var caps := CapsOf(b, o.orderId);
    match v.evidence.passUsed
    case FinanceEventDispute =>
      OpenDisputes(b, o.orderId) != [] && v == Freeze(o, FinanceEventDispute, SortStrings(DisputeIds(OpenDisputes(b, o.orderId))))
    case GatewayStatus =>
      || (Filter(caps, IsChargeback) != [] && v == Freeze(o, GatewayStatus, PaymentIds(Filter(caps, IsChargeback))))
      || (v.verdict.FailedNotDebited? && DecidesNothing(v) && Filter(caps, IsFailed) != []
          && v.evidence == PlainEvidence(GatewayStatus, PaymentIds(Filter(caps, IsFailed)), ExactPath, true))
    case NoPass =>
      v.verdict.Ambiguous? && DecidesNothing(v) && Filter(caps, IsCaptured) != []
      && v.evidence == PlainEvidence(NoPass, PaymentIds(Filter(caps, IsCaptured)), ManualPath, false)
    case NetArithmetic =>
      v.verdict.Ambiguous? && DecidesNothing(v) && IsRefundNetZero(caps)
      && v.evidence == PlainEvidence(NetArithmetic, PaymentIds(caps), ManualPath, false)
    case Pass4Fuzzy =>
      DecidesNothing(v) && !v.verdict.FailedNotDebited?
      && (forall id :: id in v.evidence.sourceRows ==> id in TxnIds(b.bank))
      && (v.evidence.automationPath.ProbabilisticPath?
          || v.evidence == PlainEvidence(Pass4Fuzzy, v.evidence.sourceRows, ManualPath, false))
    case _ => false
  }

  predicate OtherVerdictKind(v: Verdict) {
    v.ChargebackOpen? || v.FailedNotDebited? || v.Ambiguous? || v.PossibleTdsWithholding?
  }

  lemma OtherBranch(b: Batch, eng: Engine, cfg: Config, o: Order, hits: map<string, Hit>, pool: seq<BankTxn>,
                    m: ComponentAssignment.Match, cands: seq<Enumeration.Candidate>)
    requires o.amountPaise > 0 && OtherVerdictKind(Resolve(b, eng, cfg, o, hits, pool, m, cands).verdict)
    requires ChoiceListed(pool, m, cands)
    requires forall sid :: sid in hits ==> IsSettlementPass(hits[sid].pass)
    requires forall id :: id in Enumeration.TxnsOf(cands) ==> id in TxnIds(b.bank)
    requires forall t :: t in pool ==> t.txnId in TxnIds(b.bank)
    ensures OtherShape(b, o, Resolve(b, eng, cfg, o, hits, pool, m, cands))
  {
    hide Filter, Classify, UtrCount, FirstProof, Money.TdsRateBp, CoverageEnd, Dates.EngineDelta, IsRefundNetZero,
         WeightOf, TxnIds, Enumeration.TxnsOf, SortStrings, DisputeIds, PaymentIds, CapsOf, OpenDisputes,
         FirstCredit, LatestCapture, Sum, RefundTotal, Strongest, CalibrationId;
  }

  /** Which of these verdicts' certificates the verifier accepts. */
  ghost predicate OtherAcceptable(b: Batch, o: Order, v: OrderVerdict) {
    match v.evidence.passUsed
    case FinanceEventDispute => |OpenDisputes(b, o.orderId)| == 1 && OpenDisputes(b, o.orderId)[0].amountPaise <= o.amountPaise
    case Pass4Fuzzy => v.evidence.automationPath.ProbabilisticPath? ==> SoundProvenance(v.evidence)
    case _ => true
  }

  lemma RunHasShape(b: Batch, eng: Engine, cfg: Config, r: Run, o: Order)
    requires IsRun(b, eng, cfg, r) && o in b.orders && OtherVerdictKind(r.verdicts[o.orderId].verdict)
    ensures OtherShape(b, o, r.verdicts[o.orderId]) && o.amountPaise > 0
  {
    hide Resolve, Enumeration.TxnsOf, CandidatesOf, TxnIds, Credits, IsEdgeTable, Matching.MatchSpec, OtherShape,
         ChoiceListed, FuzzyPool, Settle;
    RunVerdict(b, eng, cfg, r, o);
    HitsArePasses(b, eng);
    PoolIsBanked(b, eng, cfg, r);
    if CandsOf(r, o.orderId) != [] {
      ListedAreCredits(b, eng, cfg, r, o);
    } else {
      NothingListed();
    }
    forall id | id in Enumeration.TxnsOf(CandsOf(r, o.orderId))
      ensures id in TxnIds(b.bank)
    {
      var t := TxnOfId(Credits(b), id);
      CreditIsBanked(b, t);
    }
    OtherBranch(b, eng, cfg, o, r.settled.hits, r.pool, MatchOf(r, o.orderId), CandsOf(r, o.orderId));
  }

  lemma NothingListed()
    ensures Enumeration.TxnsOf([]) == []
  {
  }

  lemma HitsArePasses(b: Batch, eng: Engine)
    ensures forall sid :: sid in Settle(b, eng).hits ==> IsSettlementPass(Settle(b, eng).hits[sid].pass)
  {
    forall sid | sid in Settle(b, eng).hits
      ensures IsSettlementPass(Settle(b, eng).hits[sid].pass)
    {
      HitsSound(b, eng, sid);
    }
  }

  lemma PoolIsBanked(b: Batch, eng: Engine, cfg: Config, r: Run)
    requires IsRun(b, eng, cfg, r)
    ensures forall t :: t in r.pool ==> t.txnId in TxnIds(b.bank)
  {
    hide TxnIds, Credits;
    RunPool(b, eng, cfg, r);
    forall t | t in r.pool
      ensures t.txnId in TxnIds(b.bank)
    {
      PoolMember(b, eng, r.settled.consumed, t);
      CreditIsBanked(b, t);
    }
  }

  /** Failed or charged back: some row of the order with that status is claimed. */
  lemma StatusEvidence(k: Check, b: Batch, o: Order, v: OrderVerdict, caps: seq<Capture>)
    requires IssuedOver(k, b, o, v) && v.evidence.passUsed.GatewayStatus? && caps != []
    requires forall c :: c in caps ==> c in ClaimedCaptures(k) && c.orderId == o.orderId
    requires forall c :: c in caps ==> if v.verdict.ChargebackOpen? then IsChargeback(c) else IsFailed(c)
    ensures EvidenceErrors(k) == {} && !Raises(k)
  {
    hide RowsOf, Validated, Fresh, TheRecon, ClaimedCaptures, Filter;
    FreshRules(k, o, v);
    FreshAmounts(k, o, v);
    assert caps[0] in caps;
    assert OfOrder(o.orderId)(caps[0]) && caps[0] in RelatedTo(k, ClaimedCaptures(k));
  }

  lemma NegativeEvidence(k: Check, b: Batch, o: Order, v: OrderVerdict)
    requires IssuedOver(k, b, o, v) && OrderCaptures(k) == CapsOf(b, o.orderId) && v.verdict.Ambiguous?
    requires || (v.evidence.passUsed.NoPass? && Filter(CapsOf(b, o.orderId), IsCaptured) != [])
             || (v.evidence.passUsed.NetArithmetic? && IsRefundNetZero(CapsOf(b, o.orderId)))
    ensures EvidenceErrors(k) == {} && !Raises(k)
  {
    hide RowsOf, Validated, Fresh, TheRecon, OrderCaptures, CapsOf, Sum;
    FreshRules(k, o, v);
    var captured := Filter(CapsOf(b, o.orderId), IsCaptured);
    assert captured != [] ==> captured[0] in captured;
  }

  lemma UndecidedEvidence(k: Check, o: Order, v: OrderVerdict)
    requires Fresh(k, o, v) && v.evidence.passUsed.Pass4Fuzzy?
    requires (v.verdict.Ambiguous? || v.verdict.PossibleTdsWithholding?)
    ensures EvidenceErrors(k) == {} && !Raises(k)
  {
    hide Fresh, TheRecon;
    FreshRules(k, o, v);
  }

  lemma OwnRowsIn(b: Batch, oid: string, p: Capture -> bool)
    ensures forall c :: c in Filter(CapsOf(b, oid), p) ==> c in b.captures && c.orderId == oid && p(c)
    ensures forall c :: c in CapsOf(b, oid) ==> c in b.captures && c.orderId == oid
  {
    assert forall c :: c in CapsOf(b, oid) ==> OfOrder(oid)(c);
  }

  lemma StatusAccepted(k: Check, b: Batch, o: Order, v: OrderVerdict)
    requires IssuedOver(k, b, o, v) && OtherShape(b, o, v) && v.evidence.passUsed.GatewayStatus? && o.amountPaise > 0
    ensures Accepts(k)
  {
    hide Fresh, Accepts, EnvelopeErrors, AmountErrors, RuleErrors, EvidenceErrors, Raises, RowsOf, Validated,
         ClaimedCaptures, ClaimedRows, Filter, PaymentIds, OrderCaptures, IssuedOver, CapsOf;
    OverBatch(k, b, o, v);
    var caps := Filter(CapsOf(b, o.orderId), if v.verdict.ChargebackOpen? then IsChargeback else IsFailed);
    OwnRowsIn(b, o.orderId, if v.verdict.ChargebackOpen? then IsChargeback else IsFailed);
    GatewayCited(k, b, o, v, caps);
    StatusEvidence(k, b, o, v, caps);
    FreshAccepted(k, o, v);
    PlainEnvelope(k, o, v, GatewayStatus, PaymentIds(caps), ExactPath, true);
    if v.verdict.ChargebackOpen? {
      FrozenAmounts(k, o, v);
      FrozenRules(k, o, v);
    } else {
      NothingAmounts(k, o, v);
      NothingRules(k, o, v);
    }
  }

  lemma NegativeAccepted(k: Check, b: Batch, o: Order, v: OrderVerdict)
    requires IssuedOver(k, b, o, v) && OtherShape(b, o, v)
    requires v.evidence.passUsed.NoPass? || v.evidence.passUsed.NetArithmetic?
    ensures Accepts(k)
  {
    hide Fresh, Accepts, EnvelopeErrors, AmountErrors, RuleErrors, EvidenceErrors, Raises, RowsOf, Validated,
         ClaimedCaptures, ClaimedRows, Filter, PaymentIds, OrderCaptures, IssuedOver, CapsOf, IsRefundNetZero;
    OverBatch(k, b, o, v);
    var caps := if v.evidence.passUsed.NoPass? then Filter(CapsOf(b, o.orderId), IsCaptured) else CapsOf(b, o.orderId);
    OwnRowsIn(b, o.orderId, IsCaptured);
    GatewayCited(k, b, o, v, caps);
    NegativeEvidence(k, b, o, v);
    FreshAccepted(k, o, v);
    PlainEnvelope(k, o, v, v.evidence.passUsed, PaymentIds(caps), ManualPath, false);
    NothingAmounts(k, o, v);
    NothingRules(k, o, v);
  }

  lemma UndecidedAccepted(k: Check, b: Batch, o: Order, v: OrderVerdict)
    requires IssuedOver(k, b, o, v) && OtherShape(b, o, v) && v.evidence.passUsed.Pass4Fuzzy?
    ensures Accepts(k) <==> OtherAcceptable(b, o, v)
  {
    hide Fresh, Accepts, EnvelopeErrors, AmountErrors, RuleErrors, EvidenceErrors, Raises, RowsOf, Validated,
         ClaimedCaptures, ClaimedRows, Filter, OrderCaptures, IssuedOver, TxnIds, SoundProvenance;
    OverBatch(k, b, o, v);
    CreditsClaimed(k, b, o, v);
    FreshAccepted(k, o, v);
    UndecidedEvidence(k, o, v);
    NothingAmounts(k, o, v);
    NothingRules(k, o, v);
    if v.evidence.automationPath.ProbabilisticPath? {
      FreshEnvelope(k, o, v);
    } else {
      PlainEnvelope(k, o, v, Pass4Fuzzy, v.evidence.sourceRows, ManualPath, false);
    }
  }

  lemma DisputeAccepted(k: Check, b: Batch, o: Order, v: OrderVerdict)
    requires IssuedOver(k, b, o, v) && OtherShape(b, o, v) && v.evidence.passUsed.FinanceEventDispute?
    requires o.amountPaise > 0
    ensures Accepts(k) <==> OtherAcceptable(b, o, v)
  {
    hide Fresh, Accepts, EnvelopeErrors, AmountErrors, RuleErrors, EvidenceErrors, Raises, RowsOf, Validated,
         ClaimedRows, IssuedOver, OpenDisputes, SortStrings, DisputeIds;
    OverBatch(k, b, o, v);
    DisputesCiteNoTax(k, b, o, v);
    DisputeEvidence(k, b, o, v);
    FreshAccepted(k, o, v);
    FrozenAmounts(k, o, v);
    FrozenRules(k, o, v);
    PlainEnvelope(k, o, v, FinanceEventDispute, v.evidence.sourceRows, ExactPath, true);
  }

  /**
   * Frozen, failed and undecided orders, exactly: a certificate is refused only when a freeze rests on several open
   * disputes or on one of more than the invoice, or when score and calibration are malformed.
   */
  lemma OtherAcceptedExactly(b: Batch, eng: Engine, cfg: Config, r: Run, o: Order, k: Check)
    requires IsRun(b, eng, cfg, r) && o in b.orders && OtherVerdictKind(r.verdicts[o.orderId].verdict)
    requires Fresh(k, o, r.verdicts[o.orderId]) && k.rows == RowsOf(b)
    ensures Accepts(k) <==> OtherAcceptable(b, o, r.verdicts[o.orderId])
  {
    hide IsRun, Fresh, Accepts, RowsOf, Validated, Freeze, DecidesNothing, PlainEvidence, OpenDisputes,
         IsRefundNetZero, Filter, SoundProvenance;
    RunIsValidated(b, eng, cfg, r);
    RunVerdict(b, eng, cfg, r, o);
    RunHasShape(b, eng, cfg, r, o);
    var v := r.verdicts[o.orderId];
    match v.evidence.passUsed
    case FinanceEventDispute => DisputeAccepted(k, b, o, v);
    case GatewayStatus => StatusAccepted(k, b, o, v);
    case Pass4Fuzzy => UndecidedAccepted(k, b, o, v);
    case NoPass => NegativeAccepted(k, b, o, v);
    case NetArithmetic => NegativeAccepted(k, b, o, v);
    case _ => assert false;
  }
}
