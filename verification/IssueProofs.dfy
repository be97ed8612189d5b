/** Over well-keyed rows the issuer refuses no verdict of any run. */
module IssueProofs {
  import opened Prelude
  import opened Models
  import opened Recon
  import opened ReconSafety
  import opened Sorting
  import opened SourceRows
  import opened Certificates
  import opened SettlementProofs
  import opened ClaimProofs
  import opened ScoredProofs
  import opened UnpaidProofs
  import opened FrozenProofs

  /** Every reference of the verdict is the id of some row of the batch. */
  ghost predicate RefersToRows(b: Batch, v: OrderVerdict) {
    forall id :: id in v.evidence.sourceRows ==> exists r :: r in RowsOf(b) && RowId(r) == id
  }

  lemma CitedAreIndexed(b: Batch, o: Order, v: OrderVerdict)
    requires o in b.orders && RefersToRows(b, v)
    ensures Referenced(o, v, RowsOf(b)) <= Indexed(RowsOf(b)).Keys
  {
    hide RowsOf, Indexed, CitedSettlements, RowsNaming, RowId;
    var rows := RowsOf(b);
    RowsMembers(b, OrderRow(o));
    OrderNamed(o);
    forall id | id in Cited(o, v, rows)
      ensures id in Indexed(rows)
    {
      if id in v.evidence.sourceRows {
        var r :| r in rows && RowId(r) == id;
      }
    }
    NamingIsIndexed(CitedSettlements(Cited(o, v, rows), rows), rows);
  }

  lemma IssuedWithoutTax(b: Batch, o: Order, v: OrderVerdict, configHash: string, calibrationId: string, dig: Digests)
    requires o in b.orders && RefersToRows(b, v) && !v.verdict.PaidNetOfTds?
    ensures Issued(o, v, RowsOf(b), configHash, calibrationId, dig).Ok?
  {
    hide RowsOf, Referenced, EvidenceTerms, ClaimFor, Filter, Indexed, RowId;
    CitedAreIndexed(b, o, v);
  }

  lemma IssuedWithTax(b: Batch, o: Order, v: OrderVerdict, t: BankTxn, e: FinanceEvent,
                      configHash: string, calibrationId: string, dig: Digests)
    requires o in b.orders && NetShape(b, o, v, t, e)
    ensures Issued(o, v, RowsOf(b), configHash, calibrationId, dig).Ok?
  {
    hide RowsOf, EvidenceTerms, ClaimFor, Indexed, RowId, CapsOf, CitedSettlements, RowsNaming, Filter, TdsIn;
    var rows := RowsOf(b);
    EvidenceNamed(e);
    CreditNamed(t);
    RowsMembers(b, EventRow(e));
    RowsMembers(b, BankRow(t));
    CitedAreIndexed(b, o, v);
    var ids := Referenced(o, v, rows);
    assert IdIn(ids)(EventRow(e)) && EventRow(e) in Filter(rows, IdIn(ids));
    assert e in TdsIn(Filter(rows, IdIn(ids)));
  }

  lemma BankedAreRows(b: Batch, v: OrderVerdict)
    requires forall id :: id in v.evidence.sourceRows ==> id in TxnIds(b.bank)
    ensures RefersToRows(b, v)
  {
    hide RowsOf, RowId, TxnIds;
    forall id | id in v.evidence.sourceRows
      ensures exists r :: r in RowsOf(b) && RowId(r) == id
    {
      var t := TxnOfId(b.bank, id);
      RowsMembers(b, BankRow(t));
      CreditNamed(t);
    }
  }

  lemma PaymentsAreRows(b: Batch, v: OrderVerdict, caps: seq<Capture>)
    requires v.evidence.sourceRows == PaymentIds(caps) && forall c :: c in caps ==> c in b.captures
    ensures RefersToRows(b, v)
  {
    hide RowsOf, RowId, PaymentIds;
    forall id | id in v.evidence.sourceRows
      ensures exists r :: r in RowsOf(b) && RowId(r) == id
    {
      PaymentIdMembers(caps, id);
      var c :| c in caps && c.paymentId == id;
      RowsMembers(b, CaptureRow(c));
      CaptureNamed(c);
    }
  }

  lemma OtherAreRows(b: Batch, o: Order, v: OrderVerdict)
    requires OtherShape(b, o, v)
    ensures RefersToRows(b, v) && !v.verdict.PaidNetOfTds?
  {
    hide RowsOf, RowId, PaymentIds, SortStrings, DisputeIds, OpenDisputes, IsRefundNetZero, TxnIds, CapsOf, Filter;
    var caps := CapsOf(b, o.orderId);
    OwnRowsIn(b, o.orderId, IsChargeback);
    OwnRowsIn(b, o.orderId, IsFailed);
    OwnRowsIn(b, o.orderId, IsCaptured);
    match v.evidence.passUsed
    case FinanceEventDispute => RefsAreDisputes(b, o, v);
    case GatewayStatus => PaymentsAreRows(b, v, Filter(caps, if v.verdict.ChargebackOpen? then IsChargeback else IsFailed));
    case NoPass => PaymentsAreRows(b, v, Filter(caps, IsCaptured));
    case NetArithmetic => PaymentsAreRows(b, v, caps);
    case _ => BankedAreRows(b, v);
  }

  lemma OneBanked(b: Batch, v: OrderVerdict, t: BankTxn)
    requires t in Credits(b) && v.evidence.sourceRows == [t.txnId]
    ensures RefersToRows(b, v)
  {
    hide RefersToRows;
    CreditIsBanked(b, t);
    BankedAreRows(b, v);
  }

  /** A verdict of passes 1 to 3, and no other, is clean, late or partial. */
  lemma SettledKind(b: Batch, eng: Engine, cfg: Config, r: Run, o: Order)
    requires IsRun(b, eng, cfg, r) && o in b.orders && SettledVerdict(r.verdicts[o.orderId].verdict)
    ensures IsSettlementPass(r.verdicts[o.orderId].evidence.passUsed)
  {
    hide Resolve, HitEvidence, Settle, IsRefundNetZero, Filter, CapsOf;
    RunVerdict(b, eng, cfg, r, o);
    HitsArePasses(b, eng);
    SettledBranch(b, eng, cfg, r, o);
  }

  lemma SettledBranch(b: Batch, eng: Engine, cfg: Config, r: Run, o: Order)
    requires o.amountPaise > 0 && SettledVerdict(VerdictOf(b, eng, cfg, r, o).verdict)
    ensures exists sid :: sid in r.settled.hits && VerdictOf(b, eng, cfg, r, o).evidence.passUsed == r.settled.hits[sid].pass
  {
    hide Classify, UtrCount, FirstProof, CoverageEnd, IsRefundNetZero, Filter, CapsOf, FirstCredit, WeightOf;
  }

  /** Every order of every run over well-keyed rows gets its certificate. */
  lemma EveryVerdictIsIssued(b: Batch, eng: Engine, cfg: Config, r: Run, o: Order,
                             configHash: string, calibrationId: string, dig: Digests)
    requires IsRun(b, eng, cfg, r) && o in b.orders && WellKeyed(RowsOf(b))
    ensures o.orderId in r.verdicts
    ensures Issued(o, r.verdicts[o.orderId], RowsOf(b), configHash, calibrationId, dig).Ok?
  {
    hide IsRun, RowsOf, RefersToRows, Issued, OtherShape, NetShape, SettledOn, TxnIds, Credits, CapsOf;
    RunVerdict(b, eng, cfg, r, o);
    var v := r.verdicts[o.orderId];
    if SettledVerdict(v.verdict) {
      SettledKind(b, eng, cfg, r, o);
      var sid, credit := RunSettles(b, eng, cfg, r, o);
      SettledIsIssued(b, eng, o, v, sid, credit, configHash, calibrationId, dig);
    } else if v.verdict.PaidNetOfTds? {
      var t, e := NetVerdict(b, eng, cfg, r, o);
      IssuedWithTax(b, o, v, t, e, configHash, calibrationId, dig);
    } else {
      if v.verdict.RefundedThenRepaid? {
        var t := RepaidShape(b, eng, cfg, r, o);
        OneBanked(b, v, t);
      } else if v.verdict.PaidOutOfBand? {
        var t := OutOfBandVerdict(b, eng, cfg, r, o);
        OneBanked(b, v, t);
      } else if v.verdict.GenuinelyUnpaid? {
        UnpaidVerdict(b, eng, cfg, r, o);
        RefsAreBanked(b, v);
        BankedAreRows(b, v);
      } else {
        RunHasShape(b, eng, cfg, r, o);
        OtherAreRows(b, o, v);
      }
      IssuedWithoutTax(b, o, v, configHash, calibrationId, dig);
    }
  }
}
