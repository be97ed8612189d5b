/** What an issued certificate claims, and which checks it passes whatever its verdict. */
module ClaimProofs {
  import opened Prelude
  import opened Models
  import opened Recon
  import opened SourceRows
  import opened Certificates
  import opened Verifier
  import opened ProofCompleteness
  import opened SettlementProofs
  import opened Sorting

  /** The check of a certificate just issued for an order of the batch, against the batch. */
  ghost predicate IssuedOver(k: Check, b: Batch, o: Order, v: OrderVerdict) {
    Fresh(k, o, v) && k.rows == RowsOf(b) && o in b.orders && Validated(b)
  }

  /** A row is claimed when its id is cited or it names a settlement that a cited row names. */
  ghost predicate IsClaimed(b: Batch, o: Order, v: OrderVerdict, r: Row) {
    || RowId(r) in Cited(o, v, RowsOf(b))
    || (SettlementField(r).Some? && SettlementField(r).value in CitedSettlements(Cited(o, v, RowsOf(b)), RowsOf(b)))
  }

  lemma ClaimedIs(k: Check, b: Batch, o: Order, v: OrderVerdict, r: Row)
    requires IssuedOver(k, b, o, v) && r in k.rows
    ensures r in ClaimedRows(k) <==> IsClaimed(b, o, v, r)
    ensures r in Uniques(k.rows)
  {
    hide RowsOf, Cited, CitedSettlements, Validated, Fresh, RowId, SettlementField, Filter, ClaimedRows;
    FreshIds(k, o, v);
    FreshIsKeyed(k, o, v);
    var sids := CitedSettlements(Cited(o, v, RowsOf(b)), RowsOf(b));
    assert r in ClaimedRows(k) <==> IdIn(Referenced(o, v, k.rows))(r);
    if RowId(r) in RowsNaming(sids, k.rows) {
      var s :| s in k.rows && SettlementField(s).Some? && SettlementField(s).value in sids && RowId(s) == RowId(r);
      SameIdInRows(k.rows, r, s);
    }
  }

  /** The claimed rows of one kind, as selections from the batch. */
  lemma ClaimedKinds(k: Check, b: Batch, o: Order, v: OrderVerdict, p: Capture -> bool, q: BankTxn -> bool)
    requires IssuedOver(k, b, o, v)
    requires forall c :: c in b.captures ==> (IsClaimed(b, o, v, CaptureRow(c)) <==> p(c))
    requires forall t :: t in Credits(b) ==> (IsClaimed(b, o, v, BankRow(t)) <==> q(t))
    ensures ClaimedCaptures(k) == Filter(b.captures, p) && ClaimedCredits(k) == Filter(Credits(b), q)
    ensures OrderCaptures(k) == CapsOf(b, o.orderId)
  {
    hide RowsOf, Cited, CitedSettlements, Validated, Fresh, RowId, SettlementField, Filter, IsClaimed, Uniques,
         Referenced, Credits, CapturesIn, CreditsIn;
    FreshIds(k, o, v);
    FreshAmounts(k, o, v);
    KindsInRows(b);
    var ids := Referenced(o, v, k.rows);
    CapturesOfSelected(k.rows, ids);
    CreditsOfSelected(k.rows, ids);
    forall c | c in b.captures
      ensures PaymentIn(ids)(c) == p(c)
    {
      RowsMembers(b, CaptureRow(c));
      ClaimedIs(k, b, o, v, CaptureRow(c));
      CaptureNamed(c);
      assert CaptureRow(c) in ClaimedRows(k) <==> IdIn(ids)(CaptureRow(c));
    }
    forall t | t in Credits(b)
      ensures TxnIn(ids)(t) == q(t)
    {
      assert BankRow(t) in RowsOf(b);
      ClaimedIs(k, b, o, v, BankRow(t));
      CreditNamed(t);
      assert BankRow(t) in ClaimedRows(k) <==> IdIn(ids)(BankRow(t));
    }
    FilterAgree(b.captures, PaymentIn(ids), p);
    FilterAgree(Credits(b), TxnIn(ids), q);
  }

  lemma CaptureNamed(c: Capture)
    ensures RowId(CaptureRow(c)) == c.paymentId
  {
  }

  lemma CreditNamed(t: BankTxn)
    ensures RowId(BankRow(t)) == t.txnId
  {
  }

  lemma OrderNamed(o: Order)
    ensures RowId(OrderRow(o)) == o.orderId
  {
  }

  lemma OverBatch(k: Check, b: Batch, o: Order, v: OrderVerdict)
    requires IssuedOver(k, b, o, v)
    ensures k.rows == RowsOf(b) && Validated(b) && Fresh(k, o, v) && o in b.orders
  {
  }

  lemma BatchRows(b: Batch)
    ensures forall c :: c in b.captures ==> CaptureRow(c) in RowsOf(b)
    ensures forall t :: t in Credits(b) ==> t in b.bank && BankRow(t) in RowsOf(b)
  {
    hide RowsOf;
    forall c | c in b.captures
      ensures CaptureRow(c) in RowsOf(b)
    {
      RowsMembers(b, CaptureRow(c));
    }
    forall t | t in Credits(b)
      ensures BankRow(t) in RowsOf(b)
    {
      RowsMembers(b, BankRow(t));
    }
  }

  lemma OrderCapturesAre(k: Check, b: Batch, o: Order, v: OrderVerdict)
    requires IssuedOver(k, b, o, v)
    ensures OrderCaptures(k) == CapsOf(b, o.orderId)
  {
    hide RowsOf, Validated, Fresh, Filter, CapturesIn;
    FreshIds(k, o, v);
    FreshAmounts(k, o, v);
    KindsInRows(b);
  }

  lemma ClaimedIsRow(k: Check, r: Row)
    requires r in ClaimedRows(k)
    ensures r in k.rows
  {
    UniquesAreIndexed(k.rows);
  }

  lemma RowsClaimed(k: Check, b: Batch, o: Order, v: OrderVerdict, r: Row)
    requires IssuedOver(k, b, o, v) && r in ClaimedRows(k)
    ensures IsClaimed(b, o, v, r)
  {
    hide IssuedOver, IsClaimed, ClaimedRows;
    ClaimedIsRow(k, r);
    ClaimedIs(k, b, o, v, r);
  }

  lemma ClaimedNoDup(k: Check, b: Batch, o: Order, v: OrderVerdict)
    requires IssuedOver(k, b, o, v)
    ensures NoDup(ClaimedRows(k)) && NoDup(OpenDisputes(b, o.orderId))
  {
    hide RowsOf, Validated, Fresh, Filter;
    FreshIds(k, o, v);
    FreshIsKeyed(k, o, v);
    RowsNoDup(k.rows);
    FilterNoDup(k.rows, IdIn(ClaimedIds(k)));
    EventsDistinct(b);
    FilterNoDup(b.events, OpenDisputeOf(o.orderId));
  }

  lemma EventsDistinct(b: Batch)
    requires NoDup(RowIds(RowsOf(b)))
    ensures NoDup(b.events)
  {
    RowsNoDup(RowsOf(b));
    var head := OrderRows(b.orders) + CaptureRows(b.captures) + BankRows(b.bank);
    forall i, j | 0 <= i < j < |b.events|
      ensures b.events[i] != b.events[j]
    {
      assert RowsOf(b)[|head| + i] == EventRow(b.events[i]) && RowsOf(b)[|head| + j] == EventRow(b.events[j]);
    }
  }

  lemma NamingIsIndexed(sids: set<string>, rows: seq<Row>)
    ensures RowsNaming(sids, rows) <= Indexed(rows).Keys
  {
    hide Indexed, SettlementField;
    forall id | id in RowsNaming(sids, rows)
      ensures id in Indexed(rows)
    {
      var row :| row in rows && SettlementField(row).Some? && SettlementField(row).value in sids && RowId(row) == id;
    }
  }

  // ------------------------------------------------------------ no tax evidence

  lemma NoTaxClaimed(k: Check, b: Batch, o: Order, v: OrderVerdict)
    requires IssuedOver(k, b, o, v)
    requires forall e: FinanceEvent :: e.TdsEvidence? && EventRow(e) in k.rows ==> !IsClaimed(b, o, v, EventRow(e))
    ensures TdsIn(ClaimedRows(k)) == []
  {
    hide IssuedOver, IsClaimed, TdsIn, ClaimedRows;
    EmptyOrInhabited(TdsIn(ClaimedRows(k)));
    forall e
      ensures e !in TdsIn(ClaimedRows(k))
    {
      if e in TdsIn(ClaimedRows(k)) {
        ClaimedIsRow(k, EventRow(e));
        RowsClaimed(k, b, o, v, EventRow(e));
      }
    }
  }

  predicate IsTaxRow(r: Row) { r.EventRow? && r.event.TdsEvidence? }

  /** Every reference is the id of some row that is no tax evidence. */
  ghost predicate CitesNoTax(b: Batch, v: OrderVerdict) {
    forall id :: id in v.evidence.sourceRows ==> exists r :: r in RowsOf(b) && RowId(r) == id && !IsTaxRow(r)
  }

  lemma NoTaxCited(k: Check, b: Batch, o: Order, v: OrderVerdict)
    requires IssuedOver(k, b, o, v) && !v.verdict.RefundedThenRepaid? && CitesNoTax(b, v)
    ensures TdsIn(ClaimedRows(k)) == []
  {
    hide RowsOf, Validated, Fresh, RowId, ClaimedRows, CitedSettlements;
    FreshIsKeyed(k, o, v);
    OrderNamed(o);
    forall e: FinanceEvent | e.TdsEvidence? && EventRow(e) in k.rows
      ensures !IsClaimed(b, o, v, EventRow(e))
    {
      var id := RowId(EventRow(e));
      if id == o.orderId {
        SameIdInRows(k.rows, EventRow(e), OrderRow(o));
      } else if id in v.evidence.sourceRows {
        var r :| r in RowsOf(b) && RowId(r) == id && !IsTaxRow(r);
        SameIdInRows(k.rows, EventRow(e), r);
      }
    }
    NoTaxClaimed(k, b, o, v);
  }

  // ------------------------------------------------------------ verdicts that reference credits, or gateway rows

  lemma CitedCredit(b: Batch, o: Order, v: OrderVerdict, r: Row, id: string)
    requires NoDup(RowIds(RowsOf(b))) && OrderRow(o) in RowsOf(b) && r in RowsOf(b) && !v.verdict.RefundedThenRepaid?
    requires forall x :: x in v.evidence.sourceRows ==> x in TxnIds(b.bank)
    requires id in Cited(o, v, RowsOf(b))
    ensures id in Indexed(RowsOf(b)) && SettlementField(Indexed(RowsOf(b))[id]).None?
    ensures RowId(r) == id ==> r == OrderRow(o) || (r.BankRow? && r.txn.txnId == id && id in v.evidence.sourceRows)
  {
    hide RowsOf, RowId, Indexed, RowIds;
    var rows := RowsOf(b);
    OrderNamed(o);
    if id == o.orderId {
      RowIsIndexed(rows, OrderRow(o));
      if RowId(r) == id {
        SameIdInRows(rows, r, OrderRow(o));
      }
    } else {
      var i :| 0 <= i < |b.bank| && TxnIds(b.bank)[i] == id;
      RowsMembers(b, BankRow(b.bank[i]));
      CreditNamed(b.bank[i]);
      RowIsIndexed(rows, BankRow(b.bank[i]));
      if RowId(r) == id {
        SameIdInRows(rows, r, BankRow(b.bank[i]));
      }
    }
  }

  /** A verdict that references only credits beside its order claims exactly these rows. */
  lemma OnlyCreditsClaimed(k: Check, b: Batch, o: Order, v: OrderVerdict, r: Row)
    requires IssuedOver(k, b, o, v) && r in k.rows && !v.verdict.RefundedThenRepaid?
    requires forall id :: id in v.evidence.sourceRows ==> id in TxnIds(b.bank)
    ensures IsClaimed(b, o, v, r) <==> r == OrderRow(o) || (r.BankRow? && r.txn.txnId in v.evidence.sourceRows)
  {
    hide RowsOf, Validated, Fresh, RowId, Indexed;
    var rows := RowsOf(b);
    FreshIsKeyed(k, o, v);
    OrderNamed(o);
    RowIsIndexed(rows, OrderRow(o));
    forall id | id in Cited(o, v, rows)
      ensures id in Indexed(rows) && SettlementField(Indexed(rows)[id]).None?
      ensures RowId(r) == id ==> r == OrderRow(o) || (r.BankRow? && r.txn.txnId == id && id in v.evidence.sourceRows)
    {
      CitedCredit(b, o, v, r, id);
    }
    if r.BankRow? {
      CreditNamed(r.txn);
    }
    assert CitedSettlements(Cited(o, v, rows), rows) == {};
  }

  function Never<T>(): T -> bool { x => false }

  function Referring(refs: seq<string>): BankTxn -> bool { (t: BankTxn) => t.txnId in refs }

  /** A verdict that references only credits beside its order: the claimed rows, kind by kind. */
  lemma CreditsClaimed(k: Check, b: Batch, o: Order, v: OrderVerdict)
    requires IssuedOver(k, b, o, v) && !v.verdict.RefundedThenRepaid?
    requires forall id :: id in v.evidence.sourceRows ==> id in TxnIds(b.bank)
    ensures ClaimedCaptures(k) == [] && ClaimedCredits(k) == Filter(Credits(b), Referring(v.evidence.sourceRows))
    ensures OrderCaptures(k) == CapsOf(b, o.orderId) && TdsIn(ClaimedRows(k)) == []
  {
    hide IssuedOver, IsClaimed, ClaimedRows, Filter, RowsOf, TxnIds;
    OverBatch(k, b, o, v);
    forall r | r in k.rows
      ensures IsClaimed(b, o, v, r) <==> r == OrderRow(o) || (r.BankRow? && r.txn.txnId in v.evidence.sourceRows)
    {
      OnlyCreditsClaimed(k, b, o, v, r);
    }
    BatchRows(b);
    ClaimedKinds(k, b, o, v, Never<Capture>(), Referring(v.evidence.sourceRows));
    FilterEmpty(b.captures, Never<Capture>());
    NoTaxClaimed(k, b, o, v);
  }

  lemma CreditIsBanked(b: Batch, t: BankTxn)
    requires t in Credits(b)
    ensures t in b.bank && t.txnId in TxnIds(b.bank)
  {
    var i :| 0 <= i < |b.bank| && b.bank[i] == t;
    assert TxnIds(b.bank)[i] == t.txnId;
  }

  lemma OneCreditClaimed(k: Check, b: Batch, o: Order, v: OrderVerdict, t: BankTxn)
    requires IssuedOver(k, b, o, v) && !v.verdict.RefundedThenRepaid? && v.evidence.sourceRows == [t.txnId]
    requires t in Credits(b)
    ensures ClaimedCaptures(k) == [] && ClaimedCredits(k) == [t] && TdsIn(ClaimedRows(k)) == []
    ensures OrderCaptures(k) == CapsOf(b, o.orderId)
  {
    hide IssuedOver, ClaimedRows, Filter, RowsOf, Fresh;
    OverBatch(k, b, o, v);
    CreditIsBanked(b, t);
    CreditsClaimed(k, b, o, v);
    CreditsHaveNoDup(b);
    forall u | u in Credits(b)
      ensures Referring([t.txnId])(u) <==> u == t
    {
      if u.txnId == t.txnId {
        UniqueById(b.bank, u, t);
      }
    }
    FilterSingle(Credits(b), Referring([t.txnId]), t);
  }

  /** A verdict over gateway rows of its order: they are claimed, and no tax evidence is. */
  lemma GatewayCited(k: Check, b: Batch, o: Order, v: OrderVerdict, caps: seq<Capture>)
    requires IssuedOver(k, b, o, v) && !v.verdict.RefundedThenRepaid? && v.evidence.sourceRows == PaymentIds(caps)
    requires forall c :: c in caps ==> c in b.captures
    ensures forall c :: c in caps ==> c in ClaimedCaptures(k)
    ensures TdsIn(ClaimedRows(k)) == [] && OrderCaptures(k) == CapsOf(b, o.orderId)
  {
    hide RowsOf, Validated, Fresh, RowId, ClaimedRows, CitedSettlements, OrderCaptures, PaymentIds;
    forall id | id in v.evidence.sourceRows
      ensures exists r :: r in RowsOf(b) && RowId(r) == id && !IsTaxRow(r)
    {
      PaymentIdMembers(caps, id);
      var c :| c in caps && c.paymentId == id;
      RowsMembers(b, CaptureRow(c));
      CaptureNamed(c);
    }
    NoTaxCited(k, b, o, v);
    OrderCapturesAre(k, b, o, v);
    forall c | c in caps
      ensures c in ClaimedCaptures(k)
    {
      RowsMembers(b, CaptureRow(c));
      CaptureNamed(c);
      PaymentIdMembers(caps, c.paymentId);
      ClaimedIs(k, b, o, v, CaptureRow(c));
    }
  }

  // ------------------------------------------------------------ the checks every fresh certificate passes

  lemma {:induction false} ReceiptTermOf(ts: seq<BankTxn>, received: int, t: AmountTerm)
    requires t in ReceiptTerms(ts, received)
    ensures || t == AmountTerm(EvidenceReceived, -received, "", NoField)
            || exists u :: u in ts && t == AmountTerm(BankCredit, u.amountPaise, u.txnId, AmountField)
  {
    var rest, last := ts[..|ts| - 1], ts[|ts| - 1];
    if t in ReceiptTerms(rest, received) {
      ReceiptTermOf(rest, received, t);
    }
    assert ts == rest + [last];
  }

  lemma {:induction false} CreditTermOf(ts: seq<BankTxn>, t: AmountTerm)
    requires t in CreditTerms(ts)
    ensures exists u :: u in ts && t == CreditTerm(u)
  {
    var rest, last := ts[..|ts| - 1], ts[|ts| - 1];
    if t in CreditTerms(rest) {
      CreditTermOf(rest, t);
    }
    assert ts == rest + [last];
  }

  lemma BankTermFits(k: Check, u: BankTxn, t: AmountTerm)
    requires u in ByTxn(ClaimedCredits(k)) && t.name.BankCredit? && t.sourceRowId == u.txnId
    requires t.sourceField.AmountField?
    requires Abs(t.amountPaise) == Abs(u.amountPaise)
    ensures (t.sourceRowId != "" ==> TermHasSource(k, t)) && !TermMismatch(k, t)
  {
    hide ClaimedRows, TermHasSource, TermMismatch;
    SortElems(ClaimedCredits(k), TxnLe);
    assert u in Elems(ByTxn(ClaimedCredits(k)));
    CreditNamed(u);
    SourcedTermFits(k, BankRow(u), t);
  }

  lemma EvidenceTermFits(k: Check, v: OrderVerdict, t: AmountTerm)
    requires t in EvidenceTerms(v, ClaimedRows(k))
    ensures (t.sourceRowId != "" ==> TermHasSource(k, t)) && !TermMismatch(k, t)
  {
    hide ClaimedRows, TermHasSource, GatewayTerms, ReceiptTerms, CreditTerms, CapturesIn, CreditsIn, CaptureTerms;
    var caps, credits := ByPayment(ClaimedCaptures(k)), ByTxn(ClaimedCredits(k));
    if t in GatewayTerms(caps) {
      GatewayTermOf(caps, t);
      var c :| c in caps && t in CaptureTerms(c);
      SortElems(ClaimedCaptures(k), PaymentLe);
      assert c in Elems(caps);
      CaptureTermFits(k, c, t);
    } else if t in CreditTerms(credits) {
      CreditTermOf(credits, t);
      var u :| u in credits && t == CreditTerm(u);
      BankTermFits(k, u, t);
    } else if t in ReceiptTerms(credits, v.moneyReceivedPaise) {
      ReceiptTermOf(credits, v.moneyReceivedPaise, t);
      if t.name.BankCredit? {
        var u :| u in credits && t == AmountTerm(BankCredit, u.amountPaise, u.txnId, AmountField);
        BankTermFits(k, u, t);
      }
    }
  }

  lemma FreshTermFits(k: Check, o: Order, v: OrderVerdict, t: AmountTerm)
    requires Fresh(k, o, v) && !v.verdict.PaidNetOfTds? && t in k.cert.claim.amountTerms
    ensures (t.sourceRowId != "" ==> TermHasSource(k, t)) && !TermMismatch(k, t)
  {
    hide Fresh, ClaimedRows, TermHasSource, EvidenceTerms;
    FreshAmounts(k, o, v);
    FreshRules(k, o, v);
    OrderRowClaimed(k, o, v);
    if t in EvidenceTerms(v, ClaimedRows(k)) {
      EvidenceTermFits(k, v, t);
    } else if !t.name.UnpaidExposure? {
      VerdictTermFits(k, o, v, t);
    }
  }

  /** What is left to check of a fresh certificate that claims no tax evidence. */
  lemma FreshAccepted(k: Check, o: Order, v: OrderVerdict)
    requires Fresh(k, o, v) && !v.verdict.PaidNetOfTds? && TdsIn(ClaimedRows(k)) == []
    ensures Accepts(k) <==> && EnvelopeErrors(k) == {} && AmountErrors(k) == {} && RuleErrors(k) == {}
                            && EvidenceErrors(k) == {} && !Raises(k)
  {
    hide Fresh, ClaimedRows, TermHasSource, TermMismatch, EnvelopeErrors, AmountErrors, RuleErrors, EvidenceErrors,
         Raises, SoundTds, SourceErrors, ExpectationErrors, SchemaErrors;
    FreshSources(k, o, v);
    FreshSchema(k, o, v);
    forall t | t in k.cert.claim.amountTerms
      ensures (t.sourceRowId != "" ==> TermHasSource(k, t)) && !TermMismatch(k, t)
    {
      FreshTermFits(k, o, v, t);
    }
    assert TermErrors(k) == {} && TdsErrors(k) == {};
  }

  /** The score is a share of a million, and authority names the calibration it rests on. */
  predicate SoundProvenance(e: Evidence) {
    0 <= e.scorePpm <= 1_000_000 && (e.riskAuthorized ==> e.riskCalibrationId != "")
  }

  lemma FreshEnvelope(k: Check, o: Order, v: OrderVerdict)
    requires Fresh(k, o, v) && v.evidence.automationPath.ProbabilisticPath?
    ensures EnvelopeErrors(k) == {} <==> SoundProvenance(v.evidence)
  {
    hide Fresh;
    FreshAmounts(k, o, v);
  }

  /** Exact or manual evidence carries no score and no calibration. */
  lemma PlainEnvelope(k: Check, o: Order, v: OrderVerdict, pass: Pass, refs: seq<string>, path: AutomationPath, authorized: bool)
    requires Fresh(k, o, v) && v.evidence == PlainEvidence(pass, refs, path, authorized) && !path.ProbabilisticPath?
    ensures EnvelopeErrors(k) == {}
  {
    hide Fresh;
    FreshAmounts(k, o, v);
  }

  lemma ClaimsItsVerdict(k: Check, o: Order, v: OrderVerdict)
    requires Fresh(k, o, v)
    ensures Claims(k, v.verdict)
  {
    hide Fresh;
    FreshRules(k, o, v);
  }

  lemma TermAmounts(a: AmountTerm, b: AmountTerm, c: AmountTerm, d: AmountTerm)
    ensures TermAmount(a) == a.amountPaise && TermAmount(b) == b.amountPaise
    ensures TermAmount(c) == c.amountPaise && TermAmount(d) == d.amountPaise
  {
  }
}
