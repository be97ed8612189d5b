/** The verifier's side of accounting identities: both sides re-derived from the claimed rows. */
module IdentityVerifier {
  import opened Prelude
  import opened Models
  import opened SourceRows
  import opened Certificates
  import opened Identities
  import opened Verifier

  datatype IdentityCheck = IdentityCheck(cert: IdentityCertificate, rows: seq<Row>, dig: IdentityDigests)

  function Named(k: IdentityCheck): set<string> { k.cert.claim.sourceHashes.Keys - {BATCH_ROOT} }

  function NamedRows(k: IdentityCheck): seq<Row> { Filter(Uniques(k.rows), IdIn(Named(k))) }

  function Subject(k: IdentityCheck): string { k.cert.claim.subjectId }

  // ------------------------------------------------------------ the two sides

  function CapturedIn(sid: string): Capture -> bool { (c: Capture) => c.status.Captured? && c.settlementId == sid }
  function CapturedFor(oid: string): Capture -> bool { (c: Capture) => c.status.Captured? && c.orderId == oid }
  function ProcessedOn(payments: seq<string>): FinanceEvent -> bool {
    (e: FinanceEvent) => IsProcessed(e) && e.paymentId in payments
  }
  function ProcessedFor(oid: string, payments: seq<string>): FinanceEvent -> bool {
    (e: FinanceEvent) => IsProcessed(e) && e.orderId == oid && e.paymentId in payments
  }
  function AdjustmentOf(sid: string): FinanceEvent -> bool { (e: FinanceEvent) => e.Adjustment? && e.settlementId == sid }
  function WithholdingFor(oid: string): FinanceEvent -> bool {
    (e: FinanceEvent) => e.LedgerEntry? && e.entryKind.TdsWithheldEntry? && e.sourceRef == oid && e.direction.CreditDirection?
  }

  function SettledCaptures(k: IdentityCheck): seq<Capture> { Filter(CapturesIn(NamedRows(k)), CapturedIn(Subject(k))) }
  function SettledRefunds(k: IdentityCheck): seq<FinanceEvent> {
    Filter(EventsIn(NamedRows(k)), ProcessedOn(PaymentNames(SettledCaptures(k))))
  }
  function SettledAdjustments(k: IdentityCheck): seq<FinanceEvent> {
    Filter(EventsIn(NamedRows(k)), AdjustmentOf(Subject(k)))
  }

  function InvoicePayments(k: IdentityCheck): seq<Capture> { Filter(CapturesIn(NamedRows(k)), CapturedFor(Subject(k))) }
  function InvoiceRefunds(k: IdentityCheck): seq<FinanceEvent> {
    Filter(EventsIn(NamedRows(k)), ProcessedFor(Subject(k), PaymentNames(InvoicePayments(k))))
  }
  function InvoiceWithholding(k: IdentityCheck): seq<FinanceEvent> {
    Filter(EventsIn(NamedRows(k)), WithholdingFor(Subject(k)))
  }

  predicate ProcessedSettlement(r: Row) { r.EventRow? && r.event.Settlement? && r.event.status.Processed? }

  /** The subject row of the rule's kind; it need not be among the claimed rows. */
  predicate SubjectFits(k: IdentityCheck) {
    Subject(k) in Indexed(k.rows)
    && match k.cert.claim.rule
       case SettlementNet => ProcessedSettlement(Indexed(k.rows)[Subject(k)])
       case InvoiceCoverage => Indexed(k.rows)[Subject(k)].OrderRow?
       case OtherIdentity(_) => false
  }

  function ExpectedLhs(k: IdentityCheck): Option<int> {
    if SubjectFits(k) then Some(AmountOf(Indexed(k.rows)[Subject(k)])) else None
  }

  function ExpectedIdentityTerms(k: IdentityCheck): seq<AmountTerm> {
    match k.cert.claim.rule
    case SettlementNet => SettlementTerms(SettledCaptures(k), SettledRefunds(k), SettledAdjustments(k))
    case InvoiceCoverage =>
      FlatMap(InvoicePayments(k), PaymentTerms) + FlatMap(InvoiceRefunds(k), RefundTerms)
      + FlatMap(InvoiceWithholding(k), WithholdingTerms)
    case OtherIdentity(_) => []
  }

  predicate NoCounterpart(k: IdentityCheck) {
    match k.cert.claim.rule
    case SettlementNet => SettledCaptures(k) == []
    case InvoiceCoverage => InvoicePayments(k) == []
    case OtherIdentity(_) => false
  }

  // ------------------------------------------------------------ codes

  function IdentityEnvelope(k: IdentityCheck): set<ErrorCode> {
    Flag(k.cert.claim.version != IDENTITY_CERTIFICATE_VERSION || !k.cert.claim.certificateType.FinanceIdentity?,
         UnsupportedVersion)
    + Flag(k.dig.payload(k.cert.claim) != k.cert.proofHash, ProofHashMismatch)
  }

  predicate IdentityRootMatches(k: IdentityCheck) {
    BATCH_ROOT in k.cert.claim.sourceHashes
    && k.cert.claim.sourceHashes[BATCH_ROOT] == k.dig.root(RowHashes(k.rows, RowDigests(k.dig)))
  }

  ghost function BindingErrors(k: IdentityCheck): set<ErrorCode> {
    Flag(!NoDup(RowIds(k.rows)), DuplicateSourceConsumption)
    + Flag(!IdentityRootMatches(k), BatchRootMismatch)
    + HashErrors(k.cert.claim.sourceHashes, k.rows, k.dig.row, Named(k))
  }

  /** Signs the domain classes would have enforced, checked again on every claimed row. */
  predicate EventMeaningless(r: Row) {
    r.EventRow?
    && match r.event
       case Adjustment(_, _, amount, kind, _) =>
         || amount == 0
         || ((kind.CreditKind? || kind.FeeReversalKind?) && amount < 0)
         || (kind.DebitKind? && amount > 0)
       case LedgerEntry(_, _, _, amount, _, _) => amount <= 0
       case _ => false
  }

  predicate IdentityTermSourced(k: IdentityCheck, t: AmountTerm) {
    t.sourceRowId in Indexed(k.rows) && t.sourceRowId in Named(k)
  }

  predicate IdentityTermDiffers(k: IdentityCheck, t: AmountTerm) {
    IdentityTermSourced(k, t)
    && var value := IntField(Indexed(k.rows)[t.sourceRowId], t.sourceField);
       value.None? || Abs(t.amountPaise) != Abs(value.value)
  }

  function IdentityTermErrors(k: IdentityCheck): set<ErrorCode> {
    Flag(exists t :: t in k.cert.claim.amountTerms && !IdentityTermSourced(k, t), AmountTermSourceMissing)
    + Flag(exists t :: t in k.cert.claim.amountTerms && IdentityTermDiffers(k, t), AmountTermSourceMismatch)
  }

  function MeaningErrors(k: IdentityCheck): set<ErrorCode> {
    Flag((exists r :: r in NamedRows(k) && EventMeaningless(r))
         || (!k.cert.claim.rule.OtherIdentity? && (!SubjectFits(k) || NoCounterpart(k))), IdentitySourceInvalid)
    + Flag(k.cert.claim.rule.OtherIdentity?, IdentityRuleNotAllowed)
  }

  predicate SidesAgree(k: IdentityCheck) {
    && ExpectedLhs(k) == Some(k.cert.claim.lhsPaise)
    && k.cert.claim.rhsPaise == Sum(k.cert.claim.amountTerms, TermAmount)
    && k.cert.claim.lhsPaise == k.cert.claim.rhsPaise
  }

  function SideErrors(k: IdentityCheck): set<ErrorCode> {
    Flag(multiset(ExpectedIdentityTerms(k)) != multiset(k.cert.claim.amountTerms), IdentityTermSchemaInvalid)
    + Flag(!SidesAgree(k), IdentityAmountMismatch)
  }

  ghost function IdentityErrors(k: IdentityCheck): set<ErrorCode> {
    IdentityEnvelope(k) + BindingErrors(k) + MeaningErrors(k) + IdentityTermErrors(k) + SideErrors(k)
  }

  ghost predicate IdentityAccepted(k: IdentityCheck) { IdentityErrors(k) == {} }

  // ------------------------------------------------------------ the procedure

  method CheckBinding(k: IdentityCheck, errors: seq<ErrorCode>) returns (out: seq<ErrorCode>)
    requires NoDup(errors)
    ensures NoDup(out) && Elems(out) == Elems(errors) + BindingErrors(k)
  {
    hide Indexed, Uniques, RowIds, HashErrors, IdentityRootMatches;
    var indexed, listed, duplicates := IndexRows(k.rows);
    out := RejectIf(errors, duplicates != {}, DuplicateSourceConsumption);
    out := RejectIf(out, !IdentityRootMatches(k), BatchRootMismatch);
    out := CheckHashes(k.cert.claim.sourceHashes, k.rows, k.dig.row, Named(k), out);
  }

  method CheckMeaning(k: IdentityCheck, errors: seq<ErrorCode>) returns (out: seq<ErrorCode>)
    requires NoDup(errors)
    ensures NoDup(out) && Elems(out) == Elems(errors) + MeaningErrors(k)
  {
    hide NamedRows, EventMeaningless, SubjectFits, NoCounterpart;
    out := errors;
    var rows := NamedRows(k);
    ghost var bad := false;
    for i := 0 to |rows|
      invariant bad <==> exists r :: r in rows[..i] && EventMeaningless(r)
      invariant NoDup(out) && Elems(out) == Elems(errors) + Flag(bad, IdentitySourceInvalid)
    {
      assert rows[..i + 1] == rows[..i] + [rows[i]];
      out := RejectIf(out, EventMeaningless(rows[i]), IdentitySourceInvalid);
      bad := bad || EventMeaningless(rows[i]);
    }
    assert rows[..|rows|] == rows;
    if k.cert.claim.rule.OtherIdentity? {
      out := Reject(out, IdentityRuleNotAllowed);
    } else {
      out := RejectIf(out, !SubjectFits(k), IdentitySourceInvalid);
      out := RejectIf(out, NoCounterpart(k), IdentitySourceInvalid);
    }
  }

  ghost predicate AnyUnsourcedTerm(k: IdentityCheck, ts: seq<AmountTerm>) { exists t :: t in ts && !IdentityTermSourced(k, t) }
  ghost predicate AnyDifferentTerm(k: IdentityCheck, ts: seq<AmountTerm>) { exists t :: t in ts && IdentityTermDiffers(k, t) }

  lemma TermFaultsGrow(k: IdentityCheck, ts: seq<AmountTerm>, t: AmountTerm)
    ensures AnyUnsourcedTerm(k, ts + [t]) <==> AnyUnsourcedTerm(k, ts) || !IdentityTermSourced(k, t)
    ensures AnyDifferentTerm(k, ts + [t]) <==> AnyDifferentTerm(k, ts) || IdentityTermDiffers(k, t)
  {
    hide IdentityTermSourced, IdentityTermDiffers;
    assert forall x :: x in ts + [t] <==> x in ts || x == t;
  }

  method CheckIdentityTerms(k: IdentityCheck, errors: seq<ErrorCode>) returns (out: seq<ErrorCode>)
    requires NoDup(errors)
    ensures NoDup(out) && Elems(out) == Elems(errors) + IdentityTermErrors(k)
  {
    hide IdentityTermSourced, IdentityTermDiffers;
    out := errors;
    var terms := k.cert.claim.amountTerms;
    ghost var missing, differing := false, false;
    for i := 0 to |terms|
      invariant missing == AnyUnsourcedTerm(k, terms[..i]) && differing == AnyDifferentTerm(k, terms[..i])
      invariant NoDup(out)
      invariant Elems(out) == Elems(errors) + Flag(missing, AmountTermSourceMissing)
                              + Flag(differing, AmountTermSourceMismatch)
    {
      assert terms[..i + 1] == terms[..i] + [terms[i]];
      TermFaultsGrow(k, terms[..i], terms[i]);
      DifferentIsSourced(k, terms[i]);
      if !IdentityTermSourced(k, terms[i]) {
        out := Reject(out, AmountTermSourceMissing);
        missing := true;
        continue;
      }
      out := RejectIf(out, IdentityTermDiffers(k, terms[i]), AmountTermSourceMismatch);
      differing := differing || IdentityTermDiffers(k, terms[i]);
    }
    assert terms[..|terms|] == terms;
  }

  lemma DifferentIsSourced(k: IdentityCheck, t: AmountTerm)
    ensures IdentityTermDiffers(k, t) ==> IdentityTermSourced(k, t)
  {
  }

  method CheckIdentityEnvelope(k: IdentityCheck) returns (out: seq<ErrorCode>)
    ensures NoDup(out) && Elems(out) == IdentityEnvelope(k)
  {
    out := RejectIf([], k.cert.claim.version != IDENTITY_CERTIFICATE_VERSION
                        || !k.cert.claim.certificateType.FinanceIdentity?, UnsupportedVersion);
    out := RejectIf(out, k.dig.payload(k.cert.claim) != k.cert.proofHash, ProofHashMismatch);
  }

  method CheckSides(k: IdentityCheck, errors: seq<ErrorCode>) returns (out: seq<ErrorCode>)
    requires NoDup(errors)
    ensures NoDup(out) && Elems(out) == Elems(errors) + SideErrors(k)
  {
    hide ExpectedIdentityTerms, SidesAgree;
    out := RejectIf(errors, multiset(ExpectedIdentityTerms(k)) != multiset(k.cert.claim.amountTerms),
                    IdentityTermSchemaInvalid);
    out := RejectIf(out, !SidesAgree(k), IdentityAmountMismatch);
  }

  method VerifyIdentityCertificate(k: IdentityCheck) returns (r: VerificationResult)
    ensures r.valid <==> IdentityAccepted(k)
    ensures NoDup(r.errorCodes) && Elems(r.errorCodes) == IdentityErrors(k)
  {
    hide IdentityEnvelope, BindingErrors, MeaningErrors, IdentityTermErrors, SideErrors;
    var errors := CheckIdentityEnvelope(k);
    errors := CheckBinding(k, errors);
    errors := CheckMeaning(k, errors);
    errors := CheckIdentityTerms(k, errors);
    errors := CheckSides(k, errors);
    assert Elems(errors) == IdentityErrors(k);
    assert errors == [] <==> Elems(errors) == {} by {
      assert errors != [] ==> errors[0] in Elems(errors);
    }
    return VerificationResult(errors == [], errors);
  }
}
