/** What an accepted identity certificate says about the rows, by any author. */
module IdentitySoundness {
  import opened Prelude
  import opened Models
  import opened SourceRows
  import opened Certificates
  import opened Identities
  import opened Verifier
  import opened IdentityVerifier
  import opened ProofSoundness
  import opened IdentityProofs

  ghost predicate CitedRow(k: IdentityCheck, r: Row) {
    r in k.rows && RowId(r) in k.cert.claim.sourceHashes && RowId(r) != BATCH_ROOT
  }

  lemma AcceptedBinding(k: IdentityCheck)
    requires IdentityAccepted(k)
    ensures IdentityEnvelope(k) == {} && BindingErrors(k) == {}
  {
    hide IdentityEnvelope, BindingErrors, MeaningErrors, IdentityTermErrors, SideErrors;
  }

  lemma DistinctRowsAccepted(k: IdentityCheck)
    requires IdentityAccepted(k)
    ensures NoDup(RowIds(k.rows)) && Uniques(k.rows) == k.rows
  {
    hide IdentityAccepted, RowIds, Uniques, HashErrors, IdentityRootMatches;
    AcceptedBinding(k);
    NotRaised(!NoDup(RowIds(k.rows)), DuplicateSourceConsumption);
    DistinctRowsAreIndexed(k.rows);
  }

  lemma CitedAreHashed(k: IdentityCheck, id: string)
    requires IdentityAccepted(k) && id in k.cert.claim.sourceHashes && id != BATCH_ROOT
    ensures exists r :: CitedRow(k, r) && RowId(r) == id && k.dig.row(r) == k.cert.claim.sourceHashes[id]
  {
    hide IdentityAccepted, RowId, RowIds, Indexed, IdentityRootMatches;
    AcceptedBinding(k);
    var hashes := k.cert.claim.sourceHashes;
    NotRaised(exists x :: x in Named(k) && x !in Indexed(k.rows), SourceMissing);
    NotRaised(exists x :: x in Named(k) && HashDiffers(hashes, k.rows, k.dig.row, x), SourceHashMismatch);
    assert id in Named(k) && !HashDiffers(hashes, k.rows, k.dig.row, id);
    var r := Indexed(k.rows)[id];
    assert CitedRow(k, r);
  }

  /** Version, kind and proof hash are in order, the batch is the one hashed, and every cited row is there with its digest. */
  lemma AcceptedIdentityIsBound(k: IdentityCheck)
    requires IdentityAccepted(k)
    ensures k.cert.claim.version == IDENTITY_CERTIFICATE_VERSION && k.cert.claim.certificateType.FinanceIdentity?
    ensures k.dig.payload(k.cert.claim) == k.cert.proofHash
    ensures BATCH_ROOT in k.cert.claim.sourceHashes
            && k.cert.claim.sourceHashes[BATCH_ROOT] == k.dig.root(RowHashes(k.rows, RowDigests(k.dig)))
    ensures forall id :: id in k.cert.claim.sourceHashes && id != BATCH_ROOT ==>
              exists r :: CitedRow(k, r) && RowId(r) == id && k.dig.row(r) == k.cert.claim.sourceHashes[id]
  {
    hide IdentityAccepted, RowId, RowIds, HashErrors, RowHashes;
    AcceptedBinding(k);
    NotRaised(k.cert.claim.version != IDENTITY_CERTIFICATE_VERSION || !k.cert.claim.certificateType.FinanceIdentity?,
              UnsupportedVersion);
    NotRaised(k.dig.payload(k.cert.claim) != k.cert.proofHash, ProofHashMismatch);
    NotRaised(!IdentityRootMatches(k), BatchRootMismatch);
    forall id | id in k.cert.claim.sourceHashes && id != BATCH_ROOT
      ensures exists r :: CitedRow(k, r) && RowId(r) == id && k.dig.row(r) == k.cert.claim.sourceHashes[id]
    {
      CitedAreHashed(k, id);
    }
  }

  lemma NamedAreCited(k: IdentityCheck)
    requires IdentityAccepted(k)
    ensures forall r :: r in NamedRows(k) <==> CitedRow(k, r)
  {
    hide IdentityAccepted, RowId, RowIds, Uniques;
    DistinctRowsAccepted(k);
  }

  /** A captured gateway row that the certificate cites. */
  ghost predicate CitedPayment(k: IdentityCheck, c: Capture) { CitedRow(k, CaptureRow(c)) && c.status.Captured? }

  lemma PaymentNamed(caps: seq<Capture>, id: string)
    ensures id in PaymentNames(caps) <==> exists c :: c in caps && c.paymentId == id
  {
    var names := PaymentNames(caps);
    if id in names {
      var i :| 0 <= i < |names| && names[i] == id;
      assert caps[i] in caps && PaymentIdOf(caps[i]) == id;
    }
    if c :| c in caps && c.paymentId == id {
      var i :| 0 <= i < |caps| && caps[i] == c;
      assert names[i] == PaymentIdOf(caps[i]) == id;
    }
  }

  /** The three sides of an accepted settlement identity are exactly the cited rows of their kind. */
  lemma SettlementSides(k: IdentityCheck)
    requires IdentityAccepted(k)
    ensures forall c :: c in SettledCaptures(k) <==> CitedPayment(k, c) && c.settlementId == k.cert.claim.subjectId
    ensures forall e :: e in SettledRefunds(k)
              <==> CitedRow(k, EventRow(e)) && e.Refund? && e.status.Processed?
                   && exists c :: CitedPayment(k, c) && c.settlementId == k.cert.claim.subjectId && c.paymentId == e.paymentId
    ensures forall e :: e in SettledAdjustments(k)
              <==> CitedRow(k, EventRow(e)) && e.Adjustment? && e.settlementId == k.cert.claim.subjectId
  {
    hide IdentityAccepted, CitedRow, NamedRows, PaymentNames;
    NamedAreCited(k);
    forall id
      ensures id in PaymentNames(SettledCaptures(k))
         <==> exists c :: CitedPayment(k, c) && c.settlementId == k.cert.claim.subjectId && c.paymentId == id
    {
      PaymentNamed(SettledCaptures(k), id);
    }
  }

  /** The three sides of an accepted invoice identity likewise; withheld tax counts as a credit entry that names the order. */
  lemma InvoiceSides(k: IdentityCheck)
    requires IdentityAccepted(k)
    ensures forall c :: c in InvoicePayments(k) <==> CitedPayment(k, c) && c.orderId == k.cert.claim.subjectId
    ensures forall e :: e in InvoiceRefunds(k)
              <==> CitedRow(k, EventRow(e)) && e.Refund? && e.status.Processed? && e.orderId == k.cert.claim.subjectId
                   && exists c :: CitedPayment(k, c) && c.orderId == k.cert.claim.subjectId && c.paymentId == e.paymentId
    ensures forall e :: e in InvoiceWithholding(k)
              <==> CitedRow(k, EventRow(e)) && e.LedgerEntry? && e.entryKind.TdsWithheldEntry?
                   && e.sourceRef == k.cert.claim.subjectId && e.direction.CreditDirection?
  {
    hide IdentityAccepted, CitedRow, NamedRows, PaymentNames;
    NamedAreCited(k);
    forall id
      ensures id in PaymentNames(InvoicePayments(k))
         <==> exists c :: CitedPayment(k, c) && c.orderId == k.cert.claim.subjectId && c.paymentId == id
    {
      PaymentNamed(InvoicePayments(k), id);
    }
  }

  /** Both claimed sides are the subject's own amount and the sum of the terms, and every term is a cited column up to its sign. */
  lemma AcceptedIdentitySides(k: IdentityCheck)
    requires IdentityAccepted(k)
    ensures k.cert.claim.lhsPaise == k.cert.claim.rhsPaise == Sum(k.cert.claim.amountTerms, TermAmount)
    ensures exists r :: r in k.rows && RowId(r) == k.cert.claim.subjectId && AmountOf(r) == k.cert.claim.lhsPaise
    ensures forall t :: t in k.cert.claim.amountTerms ==>
              exists r :: CitedRow(k, r) && RowId(r) == t.sourceRowId
                          && IntField(r, t.sourceField).Some? && Abs(t.amountPaise) == Abs(IntField(r, t.sourceField).value)
  {
    hide IdentityAccepted, CitedRow, RowId, Indexed, ExpectedIdentityTerms, Sum, NoCounterpart, IntField;
    AcceptedIdentity(k);
    var r := Indexed(k.rows)[k.cert.claim.subjectId];
    assert r in k.rows && RowId(r) == k.cert.claim.subjectId;
    forall t | t in k.cert.claim.amountTerms
      ensures exists r :: CitedRow(k, r) && RowId(r) == t.sourceRowId
                          && IntField(r, t.sourceField).Some? && Abs(t.amountPaise) == Abs(IntField(r, t.sourceField).value)
    {
      TermOnCitedRow(k, t);
    }
  }

  lemma TermOnCitedRow(k: IdentityCheck, t: AmountTerm)
    requires IdentityAccepted(k) && t in k.cert.claim.amountTerms
    ensures exists r :: CitedRow(k, r) && RowId(r) == t.sourceRowId
                        && IntField(r, t.sourceField).Some? && Abs(t.amountPaise) == Abs(IntField(r, t.sourceField).value)
  {
    hide RowId, Indexed, IntField, IdentityEnvelope, BindingErrors, MeaningErrors, SideErrors;
    NotRaised(exists x :: x in k.cert.claim.amountTerms && !IdentityTermSourced(k, x), AmountTermSourceMissing);
    NotRaised(exists x :: x in k.cert.claim.amountTerms && IdentityTermDiffers(k, x), AmountTermSourceMismatch);
    assert IdentityTermSourced(k, t) && !IdentityTermDiffers(k, t);
    var r := Indexed(k.rows)[t.sourceRowId];
    assert CitedRow(k, r);
  }

  // ------------------------------------------------------------ the issuer's side

  /** A settlement identity is valid exactly when its rows are its own, each used once, and the settlement is their balance. */
  lemma SettlementValidExactly(result: IdentityResult, s: FinanceEvent, caps: seq<Capture>, refunds: seq<FinanceEvent>,
                               adjustments: seq<FinanceEvent>)
    requires s.Settlement? && IsSettlementResult(result, s, caps, refunds, adjustments)
    ensures result.valid
       <==> && caps != [] && s.status.Processed?
            && NoDup(PaymentNames(caps) + EventIds(refunds) + EventIds(adjustments))
            && (forall c :: c in caps ==> c.status.Captured? && c.settlementId == s.settlementId)
            && (forall e :: e in refunds ==> e.Refund? && exists c :: c in caps && c.paymentId == e.paymentId)
            && (forall a :: a in adjustments ==> a.Adjustment? && a.settlementId == s.settlementId)
            && s.amountPaise == Sum(caps, NetOf) - Sum(refunds, EventAmount) + Sum(adjustments, EventAmount)
  {
    hide Sum, PaymentNames, EventIds, SettlementTerms, NoDup;
    SettlementTermsSum(caps, refunds, adjustments);
    OwnRefundsNamed(caps, refunds);
    if result.valid {
      NoFault(result, s, caps, refunds, adjustments);
    } else {
      SomeFault(result.errors);
      var e :| e in result.errors;
      assert SettlementFault(e, s, caps, refunds, adjustments);
      assert e.ForeignSource? ==> AnyForeign(caps, OwnCaptureOf(s)) || AnyForeign(refunds, RefundOnAny(caps))
                                  || AnyForeign(adjustments, OwnAdjustmentOf(s));
    }
  }

  lemma SomeFault(errors: seq<IdentityError>)
    ensures errors == [] || exists e :: e in errors
  {
    EmptyOrInhabited(errors);
  }

  lemma OwnRefundsNamed(caps: seq<Capture>, refunds: seq<FinanceEvent>)
    ensures forall e :: e in refunds && e.Refund? ==>
              (RefundOn(e, caps) <==> exists c :: c in caps && c.paymentId == e.paymentId)
  {
    forall e | e in refunds && e.Refund?
      ensures RefundOn(e, caps) <==> exists c :: c in caps && c.paymentId == e.paymentId
    {
      PaymentNamed(caps, e.paymentId);
    }
  }

  lemma InvoiceTermsSum(o: Order, payments: seq<Capture>, refunds: seq<FinanceEvent>, tdsPaise: int, tdsSource: string)
    ensures Sum(InvoiceTerms(o, payments, refunds, tdsPaise, tdsSource), TermAmount)
         == Sum(payments, CaptureAmount) - Sum(refunds, EventAmount) + tdsPaise
  {
    hide Sum, FlatMap;
    PaymentTermsSum(payments);
    RefundTermsSum(refunds);
    var a, b, c := FlatMap(payments, PaymentTerms), FlatMap(refunds, RefundTerms), TaxTerms(o, tdsPaise, tdsSource);
    SumConcat(a, b, TermAmount);
    SumConcat(a + b, c, TermAmount);
    TaxTermsSum(o, tdsPaise, tdsSource);
  }

  lemma TaxTermsSum(o: Order, tdsPaise: int, tdsSource: string)
    ensures Sum(TaxTerms(o, tdsPaise, tdsSource), TermAmount) == tdsPaise
  {
    var c := TaxTerms(o, tdsPaise, tdsSource);
    if c != [] {
      SumFew(c[0], c[0], c[0], TermAmount);
      assert c == [c[0]];
    }
  }

  /** An invoice identity is valid exactly when its rows are its own, each used once, tax has a source, and all cover the invoice. */
  lemma InvoiceValidExactly(result: IdentityResult, o: Order, payments: seq<Capture>, refunds: seq<FinanceEvent>,
                            tdsPaise: int, tdsSource: string)
    requires IsInvoiceResult(result, o, payments, refunds, tdsPaise, tdsSource)
    ensures result.valid
       <==> && payments != [] && (tdsPaise != 0 ==> tdsSource != "")
            && NoDup(PaymentNames(payments) + EventIds(refunds))
            && (forall c :: c in payments ==> c.status.Captured? && c.orderId == o.orderId)
            && (forall e :: e in refunds ==> e.Refund? && e.orderId == o.orderId
                                             && exists c :: c in payments && c.paymentId == e.paymentId)
            && o.amountPaise == Sum(payments, CaptureAmount) - Sum(refunds, EventAmount) + tdsPaise
  {
    hide Sum, PaymentNames, EventIds, InvoiceTerms, NoDup;
    InvoiceTermsSum(o, payments, refunds, tdsPaise, tdsSource);
    OwnRefundsNamed(payments, refunds);
    if result.valid {
      NoInvoiceFault(result, o, payments, refunds, tdsPaise, tdsSource);
    } else {
      SomeFault(result.errors);
      var e :| e in result.errors;
      assert InvoiceFault(e, o, payments, refunds, tdsPaise, tdsSource);
      assert e.ForeignSource? ==> AnyForeign(payments, OwnPaymentOf(o)) || AnyForeign(refunds, OwnRefundOf(o, payments));
    }
  }
}
