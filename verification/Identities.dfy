/** Exact accounting identities as signed paise terms, and their certificates. */
module Identities {
  import opened Prelude
  import opened Models
  import opened SourceRows
  import opened Certificates

  const IDENTITY_CERTIFICATE_VERSION := "1"

  datatype IdentityRule = SettlementNet | InvoiceCoverage | OtherIdentity(text: string)

  datatype IdentityError =
    MissingSource | UnsettledEvent | DuplicateSource | ForeignSource | TdsSourceMissing | AmountIdentityMismatch

  datatype IdentityResult = IdentityResult(rule: IdentityRule, valid: bool, lhsPaise: int, rhsPaise: int,
                                           sourceRefs: seq<string>, terms: seq<AmountTerm>, errors: seq<IdentityError>)

  datatype IdentityType = FinanceIdentity | OtherType(text: string)

  datatype IdentityClaim = IdentityClaim(version: string, certificateType: IdentityType, subjectId: string,
                                         rule: IdentityRule, lhsPaise: int, rhsPaise: int,
                                         sourceHashes: map<string, string>, amountTerms: seq<AmountTerm>)

  datatype IdentityCertificate = IdentityCertificate(claim: IdentityClaim, proofHash: string)

  function FlatMap<A, B>(s: seq<A>, f: A -> seq<B>): seq<B> {
    if s == [] then [] else FlatMap(s[..|s| - 1], f) + f(s[|s| - 1])
  }

  // ------------------------------------------------------------ terms

  function NetTerms(c: Capture): seq<AmountTerm> { LegsOf(GatewayCapture, c) }

  function PaymentTerms(c: Capture): seq<AmountTerm> {
    [AmountTerm(PaymentTerm, c.amountPaise, c.paymentId, AmountField)]
  }

  function RefundTerms(e: FinanceEvent): seq<AmountTerm> {
    [AmountTerm(RefundTerm, -e.amountPaise, EventId(e), AmountField)]
  }

  function AdjustmentTerms(e: FinanceEvent): seq<AmountTerm> {
    [AmountTerm(AdjustmentTerm, e.amountPaise, EventId(e), AmountField)]
  }

  function WithholdingTerms(e: FinanceEvent): seq<AmountTerm> {
    [AmountTerm(TdsWithheld, e.amountPaise, EventId(e), AmountField)]
  }

  function SourceOf(t: AmountTerm): string { t.sourceRowId }

  function IsProcessed(e: FinanceEvent): bool { e.Refund? && e.status.Processed? }

  function SettlementTerms(caps: seq<Capture>, refunds: seq<FinanceEvent>, adjustments: seq<FinanceEvent>): seq<AmountTerm> {
    FlatMap(caps, NetTerms) + FlatMap(refunds, RefundTerms) + FlatMap(adjustments, AdjustmentTerms)
  }

  /** The withheld tax names its evidence row, or the order itself when none is given. */
  function TaxTerms(o: Order, tdsPaise: int, tdsSource: string): seq<AmountTerm> {
    if tdsPaise == 0 then []
    else if tdsSource == "" then [AmountTerm(TdsWithheld, tdsPaise, o.orderId, OtherField("tds_paise"))]
    else [AmountTerm(TdsWithheld, tdsPaise, tdsSource, AmountField)]
  }

  function InvoiceTerms(o: Order, payments: seq<Capture>, refunds: seq<FinanceEvent>, tdsPaise: int, tdsSource: string)
    : seq<AmountTerm>
  {
    FlatMap(payments, PaymentTerms) + FlatMap(refunds, RefundTerms) + TaxTerms(o, tdsPaise, tdsSource)
  }

  function PaymentIdOf(c: Capture): string { c.paymentId }

  function PaymentNames(caps: seq<Capture>): seq<string> { Map(caps, PaymentIdOf) }

  function EventIds(es: seq<FinanceEvent>): seq<string> { Map(es, EventId) }

  // ------------------------------------------------------------ faults

  /** A refund row of one of these payments. */
  predicate RefundOn(e: FinanceEvent, caps: seq<Capture>) { e.Refund? && e.paymentId in PaymentNames(caps) }

  predicate OwnCapture(c: Capture, s: FinanceEvent)
    requires s.Settlement?
  {
    c.status.Captured? && c.settlementId == s.settlementId
  }

  predicate OwnAdjustment(e: FinanceEvent, s: FinanceEvent)
    requires s.Settlement?
  {
    e.Adjustment? && e.settlementId == s.settlementId
  }

  ghost predicate SettlementFault(e: IdentityError, s: FinanceEvent, caps: seq<Capture>, refunds: seq<FinanceEvent>,
                                  adjustments: seq<FinanceEvent>)
    requires s.Settlement?
  {
    match e
    case MissingSource => caps == []
    case UnsettledEvent => !s.status.Processed?
    case DuplicateSource => !NoDup(PaymentNames(caps) + EventIds(refunds) + EventIds(adjustments))
    case ForeignSource =>
      AnyForeign(caps, OwnCaptureOf(s)) || AnyForeign(refunds, RefundOnAny(caps)) || AnyForeign(adjustments, OwnAdjustmentOf(s))
    case AmountIdentityMismatch => s.amountPaise != Sum(SettlementTerms(caps, refunds, adjustments), TermAmount)
    case TdsSourceMissing => false
  }

  predicate OwnPayment(c: Capture, o: Order) { c.orderId == o.orderId && c.status.Captured? }

  predicate OwnRefund(e: FinanceEvent, o: Order, payments: seq<Capture>) {
    e.Refund? && e.orderId == o.orderId && e.paymentId in PaymentNames(payments)
  }

  ghost predicate InvoiceFault(e: IdentityError, o: Order, payments: seq<Capture>, refunds: seq<FinanceEvent>,
                               tdsPaise: int, tdsSource: string)
  {
    match e
    case MissingSource => payments == []
    case UnsettledEvent => false
    case TdsSourceMissing => tdsPaise != 0 && tdsSource == ""
    case DuplicateSource => !NoDup(PaymentNames(payments) + EventIds(refunds))
    case ForeignSource =>
      AnyForeign(payments, OwnPaymentOf(o)) || AnyForeign(refunds, OwnRefundOf(o, payments))
    case AmountIdentityMismatch => o.amountPaise != Sum(InvoiceTerms(o, payments, refunds, tdsPaise, tdsSource), TermAmount)
  }

  /** What the settlement check reports over the processed refunds. */
  ghost predicate IsSettlementResult(r: IdentityResult, s: FinanceEvent, caps: seq<Capture>, refunds: seq<FinanceEvent>,
                                     adjustments: seq<FinanceEvent>)
    requires s.Settlement?
  {
    && r.rule == SettlementNet && r.lhsPaise == s.amountPaise
    && r.terms == SettlementTerms(caps, refunds, adjustments)
    && r.rhsPaise == Sum(r.terms, TermAmount)
    && r.sourceRefs == [s.settlementId] + Map(r.terms, SourceOf)
    && NoDup(r.errors) && (r.valid <==> r.errors == [])
    && forall e :: e in r.errors <==> SettlementFault(e, s, caps, refunds, adjustments)
  }

  ghost predicate IsInvoiceResult(r: IdentityResult, o: Order, payments: seq<Capture>, refunds: seq<FinanceEvent>,
                                  tdsPaise: int, tdsSource: string)
  {
    && r.rule == InvoiceCoverage && r.lhsPaise == o.amountPaise
    && r.terms == InvoiceTerms(o, payments, refunds, tdsPaise, tdsSource)
    && r.rhsPaise == Sum(r.terms, TermAmount)
    && r.sourceRefs == [o.orderId] + Map(r.terms, SourceOf)
    && NoDup(r.errors) && (r.valid <==> r.errors == [])
    && forall e :: e in r.errors <==> InvoiceFault(e, o, payments, refunds, tdsPaise, tdsSource)
  }

  // ------------------------------------------------------------ the checks

  /** Appending and `dict.fromkeys` at the end: every code once. */
  method Note(errors: seq<IdentityError>, raised: bool, code: IdentityError) returns (out: seq<IdentityError>)
    requires NoDup(errors)
    ensures NoDup(out) && forall e :: e in out <==> e in errors || (raised && e == code)
  {
    out := errors;
    if raised && code !in errors {
      out := errors + [code];
      NoDupAppend(errors, code);
    }
  }

  method HasDuplicates(values: seq<string>) returns (r: bool)
    ensures r <==> !NoDup(values)
  {
    CardinalityNoDup(values);
    r := |values| != |Elems(values)|;
  }

  ghost predicate AnyForeign<A>(s: seq<A>, own: A -> bool) {
    exists x :: x in s && !own(x)
  }

  /** One source loop: report what does not belong, take up the terms of everything. */
  method TakeUp<A>(errors: seq<IdentityError>, start: seq<AmountTerm>, s: seq<A>, own: A -> bool, f: A -> seq<AmountTerm>)
    returns (out: seq<IdentityError>, terms: seq<AmountTerm>)
    requires NoDup(errors)
    ensures NoDup(out) && forall e :: e in out <==> e in errors || (AnyForeign(s, own) && e == ForeignSource)
    ensures terms == start + FlatMap(s, f)
  {
    out, terms := errors, start;
    for i := 0 to |s|
      invariant NoDup(out) && forall e :: e in out <==> e in errors || (AnyForeign(s[..i], own) && e == ForeignSource)
      invariant terms == start + FlatMap(s[..i], f)
    {
      assert s[..i + 1][..i] == s[..i] && s[..i + 1] == s[..i] + [s[i]];
      assert AnyForeign(s[..i + 1], own) <==> AnyForeign(s[..i], own) || !own(s[i]);
      out := Note(out, !own(s[i]), ForeignSource);
      terms := terms + f(s[i]);
    }
    assert s[..|s|] == s;
  }

  function OwnCaptureOf(s: FinanceEvent): Capture -> bool
    requires s.Settlement?
  {
    c => OwnCapture(c, s)
  }

  function OwnAdjustmentOf(s: FinanceEvent): FinanceEvent -> bool
    requires s.Settlement?
  {
    e => OwnAdjustment(e, s)
  }

  function RefundOnAny(caps: seq<Capture>): FinanceEvent -> bool { e => RefundOn(e, caps) }

  function OwnPaymentOf(o: Order): Capture -> bool { c => OwnPayment(c, o) }

  function OwnRefundOf(o: Order, payments: seq<Capture>): FinanceEvent -> bool { e => OwnRefund(e, o, payments) }

  method VerifySettlementIdentity(s: FinanceEvent, caps: seq<Capture>, allRefunds: seq<FinanceEvent>,
                                  adjustments: seq<FinanceEvent>) returns (r: IdentityResult)
    requires s.Settlement?
    ensures IsSettlementResult(r, s, caps, Filter(allRefunds, IsProcessed), adjustments)
  {
    hide FlatMap, Filter, Sum, AnyForeign, OwnCaptureOf, OwnAdjustmentOf, RefundOnAny, PaymentNames, EventIds, NoDup;
    NoErrorsYet();
    var refunds := Filter(allRefunds, IsProcessed);
    var errors := Note([], caps == [], MissingSource);
    errors := Note(errors, !s.status.Processed?, UnsettledEvent);
    var duplicated := HasDuplicates(PaymentNames(caps) + EventIds(refunds) + EventIds(adjustments));
    errors := Note(errors, duplicated, DuplicateSource);
    var terms: seq<AmountTerm>;
    errors, terms := TakeUp(errors, [], caps, OwnCaptureOf(s), NetTerms);
    errors, terms := TakeUp(errors, terms, refunds, RefundOnAny(caps), RefundTerms);
    errors, terms := TakeUp(errors, terms, adjustments, OwnAdjustmentOf(s), AdjustmentTerms);
    assert terms == SettlementTerms(caps, refunds, adjustments);
    var rhs := Sum(terms, TermAmount);
    errors := Note(errors, s.amountPaise != rhs, AmountIdentityMismatch);
    r := IdentityResult(SettlementNet, errors == [], s.amountPaise, rhs, [s.settlementId] + Map(terms, SourceOf), terms, errors);
  }

  lemma NoErrorsYet()
    ensures NoDup<IdentityError>([])
  {
  }

  /** `None` is the refusal of a negative amount of tax. */
  method VerifyInvoiceIdentity(o: Order, payments: seq<Capture>, allRefunds: seq<FinanceEvent>, tdsPaise: int,
                               tdsSource: string) returns (result: Option<IdentityResult>)
    ensures result.None? <==> tdsPaise < 0
    ensures result.Some? ==>
              IsInvoiceResult(result.value, o, payments, Filter(allRefunds, IsProcessed), tdsPaise, tdsSource)
  {
    hide FlatMap, Filter, Sum, AnyForeign, OwnPaymentOf, OwnRefundOf, PaymentNames, EventIds, NoDup, TaxTerms;
    if tdsPaise < 0 {
      return None;
    }
    NoErrorsYet();
    var refunds := Filter(allRefunds, IsProcessed);
    var errors := Note([], payments == [], MissingSource);
    errors := Note(errors, tdsPaise != 0 && tdsSource == "", TdsSourceMissing);
    var duplicated := HasDuplicates(PaymentNames(payments) + EventIds(refunds));
    errors := Note(errors, duplicated, DuplicateSource);
    var terms: seq<AmountTerm>;
    errors, terms := TakeUp(errors, [], payments, OwnPaymentOf(o), PaymentTerms);
    errors, terms := TakeUp(errors, terms, refunds, OwnRefundOf(o, payments), RefundTerms);
    terms := terms + TaxTerms(o, tdsPaise, tdsSource);
    assert terms == InvoiceTerms(o, payments, refunds, tdsPaise, tdsSource);
    var rhs := Sum(terms, TermAmount);
    errors := Note(errors, o.amountPaise != rhs, AmountIdentityMismatch);
    return Some(IdentityResult(InvoiceCoverage, errors == [], o.amountPaise, rhs, [o.orderId] + Map(terms, SourceOf),
                               terms, errors));
  }

  // ------------------------------------------------------------ certificates

  datatype IdentityIssueError = InvalidIdentity | BadSourceRows | UnknownSource

  datatype IdentityDigests = IdentityDigests(row: Row -> string, root: map<string, string> -> string,
                                             payload: IdentityClaim -> string)

  function RowDigests(dig: IdentityDigests): Digests { Digests(dig.row, dig.root, (c: Claim) => "") }

  function IdentityClaimFor(result: IdentityResult, rows: seq<Row>, subject: string, dig: IdentityDigests): IdentityClaim {
    var hashes := RowHashes(rows, RowDigests(dig));
    var ids := {subject} + Elems(result.sourceRefs);
    IdentityClaim(IDENTITY_CERTIFICATE_VERSION, FinanceIdentity, subject, result.rule, result.lhsPaise, result.rhsPaise,
                  (map id | id in ids && id in hashes :: hashes[id])[BATCH_ROOT := dig.root(hashes)], result.terms)
  }

  method BuildIdentityCertificate(result: IdentityResult, rows: seq<Row>, subject: string, dig: IdentityDigests)
    returns (r: Result<IdentityCertificate, IdentityIssueError>)
    ensures !result.valid ==> r == Err(InvalidIdentity)
    ensures result.valid && !WellKeyed(rows) ==> r == Err(BadSourceRows)
    ensures result.valid && WellKeyed(rows) ==>
              if {subject} + Elems(result.sourceRefs) <= Indexed(rows).Keys
              then var claim := IdentityClaimFor(result, rows, subject, dig);
                   r == Ok(IdentityCertificate(claim, dig.payload(claim)))
              else r == Err(UnknownSource)
  {
    hide WellKeyed, Indexed;
    if !result.valid {
      return Err(InvalidIdentity);
    }
    var hashes := SourceHashMap(rows, RowDigests(dig));
    if hashes.Err? {
      return Err(BadSourceRows);
    }
    var referenced := {subject} + Elems(result.sourceRefs);
    if !(referenced <= hashes.value.Keys) {
      return Err(UnknownSource);
    }
    var selected := (map id | id in referenced && id in hashes.value :: hashes.value[id])[BATCH_ROOT := dig.root(hashes.value)];
    var claim := IdentityClaim(IDENTITY_CERTIFICATE_VERSION, FinanceIdentity, subject, result.rule, result.lhsPaise,
                               result.rhsPaise, selected, result.terms);
    return Ok(IdentityCertificate(claim, dig.payload(claim)));
  }
}
