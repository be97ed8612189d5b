/** A settlement called "None": what the verifier lets a claim count into it. */
module NoneGroup {
  import opened Prelude
  import opened Dates
  import opened Models
  import opened SourceRows
  import opened Certificates
  import opened Verifier
  import opened ProofSoundness
  import opened ProofCompleteness
  import opened SettlementProofs

  // ------------------------------------------------------------ a claim over a foreign payment

  /** An order, its capture, another order's payment, a credit, and a refund event. */
  datatype Padding = Padding(o: Order, c: Capture, d: Capture, t: BankTxn, e: FinanceEvent)

  function Sources(p: Padding): seq<Row> {
    [OrderRow(p.o), CaptureRow(p.c), CaptureRow(p.d), BankRow(p.t), EventRow(p.e)]
  }

  function CitedHere(p: Padding): seq<Row> {
    [OrderRow(p.o), CaptureRow(p.c), CaptureRow(p.d), BankRow(p.t)]
  }

  function SourceNames(p: Padding): seq<string> {
    [p.o.orderId, p.c.paymentId, p.d.paymentId, p.t.txnId, EventId(p.e)]
  }

  /** The order's capture is alone in a settlement "None"; a refund event names the other payment; the credit is both. */
  ghost predicate Paddable(p: Padding) {
    && p.o.amountPaise > 0 && p.c.orderId == p.o.orderId && p.c.status.Captured? && p.c.settlementId == "None"
    && p.d.orderId != p.o.orderId && p.d.settlementId == ""
    && p.e.Refund? && p.e.paymentId == p.d.paymentId
    && p.t.isCredit && p.t.utr != "" && p.t.utr == p.c.utr && p.t.amountPaise == NetOf(p.c) + NetOf(p.d)
    && ValidDate(p.c.capturedAt) && ValidDate(p.t.valueDate) && CalendarDelta(p.c.capturedAt, p.t.valueDate) <= 1
    && NoDup(SourceNames(p)) && BATCH_ROOT !in SourceNames(p)
  }

  function Decision(p: Padding): OrderVerdict {
    OrderVerdict(p.o.orderId, SettledClean, PlainEvidence(Pass1ExactUtr, [p.c.paymentId, p.t.txnId], ExactPath, true),
                 p.o.amountPaise, 0, true)
  }

  function Terms(p: Padding): seq<AmountTerm> {
    VerdictTerms(p.o, Decision(p), CitedHere(p)).value + EvidenceTerms(Decision(p), CitedHere(p))
  }

  function CitedNames(p: Padding): set<string> { {p.o.orderId, p.c.paymentId, p.d.paymentId, p.t.txnId} }

  function PaddedClaim(p: Padding, configHash: string, calibrationId: string, dig: Digests): Claim {
    ClaimFor(p.o, Decision(p), Sources(p), CitedNames(p), Terms(p), configHash, calibrationId, dig)
  }

  /** A claim that cites the order, both payments and the credit. */
  ghost predicate IsPadded(k: Check, p: Padding) {
    && k.rows == Sources(p) && k.configHash.Some? && k.calibrationId.Some?
    && k.cert == Sealed(PaddedClaim(p, k.configHash.value, k.calibrationId.value, k.dig), k.dig)
  }

  lemma SourceNamed(p: Padding)
    ensures RowIds(Sources(p)) == SourceNames(p)
    ensures forall i :: 0 <= i < 5 ==> RowId(Sources(p)[i]) == SourceNames(p)[i]
  {
    hide EventId;
    var rows, names := Sources(p), SourceNames(p);
    assert RowId(rows[0]) == names[0] && RowId(rows[1]) == names[1] && RowId(rows[2]) == names[2];
    assert RowId(rows[3]) == names[3] && RowId(rows[4]) == names[4];
  }

  lemma SourceIds(p: Padding)
    requires NoDup(SourceNames(p)) && BATCH_ROOT !in SourceNames(p)
    ensures RowIds(Sources(p)) == SourceNames(p) && Uniques(Sources(p)) == Sources(p)
    ensures forall r :: r in Sources(p) ==> RowId(r) in Indexed(Sources(p)) && Indexed(Sources(p))[RowId(r)] == r
    ensures CitedNames(p) <= Indexed(Sources(p)).Keys && BATCH_ROOT !in CitedNames(p)
  {
    hide Indexed, Uniques, RowId, RowIds, EventId;
    SourceNamed(p);
    DistinctRowsAreIndexed(Sources(p));
    assert forall i :: 0 <= i < 5 ==> Sources(p)[i] in Sources(p);
    assert forall i :: 0 <= i < 4 ==> SourceNames(p)[i] in SourceNames(p);
    assert SourceNames(p)[0] == p.o.orderId && SourceNames(p)[1] == p.c.paymentId;
    assert SourceNames(p)[2] == p.d.paymentId && SourceNames(p)[3] == p.t.txnId;
  }

  lemma PaddedFields(k: Check, p: Padding)
    requires IsPadded(k, p)
    ensures k.cert.claim.amountTerms == Terms(p) && ClaimsSame(k, p.o, Decision(p))
    ensures EnvelopeErrors(k) == {} && ExpectationErrors(k) == {}
    ensures k.cert.claim.ruleIds == [ReconRule(KnownPass(Pass1ExactUtr)), VerdictRule(KnownVerdict(SettledClean))]
  {
    hide Terms, RowHashes, Watermark, Sources, CitedNames;
  }

  lemma PaddedRules(k: Check, p: Padding)
    requires IsPadded(k, p) && Paddable(p)
    ensures TheRecon(k) == Some(Pass1ExactUtr) && RuleErrors(k) == {}
  {
    hide IsPadded;
    PaddedFields(k, p);
    TwoRules(KnownPass(Pass1ExactUtr), KnownVerdict(SettledClean));
  }

  lemma DistinctNames(p: Padding)
    requires Paddable(p)
    ensures NoDup(SourceNames(p)) && BATCH_ROOT !in SourceNames(p)
  {
  }

  lemma PaddedHashes(k: Check, p: Padding)
    requires IsPadded(k, p) && Paddable(p)
    ensures ClaimedIds(k) == CitedNames(p) && RootMatches(k)
    ensures forall id :: id in ClaimedIds(k) ==> !HashDiffers(k.cert.claim.sourceHashes, k.rows, k.dig.row, id)
  {
    hide Indexed, Terms, Watermark, Sources, CitedNames, Decision;
    DistinctNames(p);
    hide Paddable, SourceNames;
    SourceIds(p);
  }

  lemma PaddedSources(k: Check, p: Padding)
    requires IsPadded(k, p) && Paddable(p)
    ensures SourceErrors(k) == {} && InvoiceOf(k) == Some(p.o.amountPaise)
  {
    hide Indexed, RowIds, Uniques, HashDiffers, RootMatches, PaddedClaim;
    SourceIds(p);
    PaddedHashes(k, p);
    PaddedFields(k, p);
    assert OrderRow(p.o) == Sources(p)[0] && OrderRow(p.o) in Sources(p) && RowId(OrderRow(p.o)) == p.o.orderId;
  }

  lemma OneRow(r: Row, rest: seq<Row>)
    ensures CapturesIn([r] + rest) == (if r.CaptureRow? then [r.capture] else []) + CapturesIn(rest)
    ensures CreditsIn([r] + rest) == (if r.BankRow? && r.txn.isCredit then [r.txn] else []) + CreditsIn(rest)
    ensures TdsIn([r] + rest) == (if r.EventRow? && r.event.TdsEvidence? then [r.event] else []) + TdsIn(rest)
  {
    assert ([r] + rest)[1..] == rest;
  }

  lemma CitedKinds(p: Padding)
    requires p.t.isCredit
    ensures CapturesIn(CitedHere(p)) == [p.c, p.d] && CreditsIn(CitedHere(p)) == [p.t] && TdsIn(CitedHere(p)) == []
  {
    var two := [CaptureRow(p.d), BankRow(p.t)];
    var three := [CaptureRow(p.c)] + two;
    NothingIn();
    hide CapturesIn, CreditsIn, TdsIn;
    OneRow(BankRow(p.t), []);
    assert [BankRow(p.t)] + [] == [BankRow(p.t)];
    OneRow(CaptureRow(p.d), [BankRow(p.t)]);
    assert [CaptureRow(p.d)] + [BankRow(p.t)] == two;
    OneRow(CaptureRow(p.c), two);
    OneRow(OrderRow(p.o), three);
    assert CitedHere(p) == [OrderRow(p.o)] + three;
  }

  lemma NothingIn()
    ensures CapturesIn([]) == [] && CreditsIn([]) == [] && TdsIn([]) == []
  {
  }

  lemma WhichAreCited(p: Padding)
    requires NoDup(SourceNames(p))
    ensures forall i :: 0 <= i < 4 ==> IdIn(CitedNames(p))(Sources(p)[i])
    ensures !IdIn(CitedNames(p))(Sources(p)[4])
  {
    hide RowIds, EventId, Sources, RowId;
    SourceNamed(p);
    var names := SourceNames(p);
    assert forall i :: 0 <= i < 4 ==> names[i] != names[4];
    assert CitedNames(p) == {names[0], names[1], names[2], names[3]};
  }

  lemma CitedSelected(p: Padding)
    requires NoDup(SourceNames(p))
    ensures Filter(Sources(p), IdIn(CitedNames(p))) == CitedHere(p)
  {
    hide Filter, RowId, CitedNames, IdIn;
    var q, rows := IdIn(CitedNames(p)), Sources(p);
    WhichAreCited(p);
    FilterConcat(CitedHere(p), [rows[4]], q);
    FilterConcat([rows[0], rows[1]], [rows[2], rows[3]], q);
    FilterTwo(rows[0], rows[1], q);
    FilterTwo(rows[2], rows[3], q);
    FilterOne(rows[4], q);
    assert rows == CitedHere(p) + [rows[4]] && CitedHere(p) == [rows[0], rows[1]] + [rows[2], rows[3]];
  }

  lemma PaddedRows(k: Check, p: Padding)
    requires IsPadded(k, p) && Paddable(p)
    ensures ClaimedRows(k) == CitedHere(p)
    ensures ClaimedCaptures(k) == [p.c, p.d] && ClaimedCredits(k) == [p.t] && TdsIn(ClaimedRows(k)) == []
  {
    hide Indexed, Uniques, RowIds, Filter, Sources, CitedHere, CitedNames, PaddedClaim, CapturesIn, CreditsIn, TdsIn;
    SourceIds(p);
    PaddedHashes(k, p);
    CitedSelected(p);
    CitedKinds(p);
  }

  lemma PaddedTerms(k: Check, p: Padding)
    requires IsPadded(k, p) && Paddable(p)
    ensures SchemaErrors(k) == {} && TermErrors(k) == {} && AmountErrors(k) == {} && TdsErrors(k) == {}
  {
    hide TheRecon, ClaimedRows, InvoiceOf, IsPadded, TermErrors, VerdictTerms, EvidenceTerms, ExpectedVerdictTerms,
         ExpectedEvidenceTerms, Sum, SettlementClaim, AmountsByName;
    PaddedFields(k, p);
    PaddedRules(k, p);
    PaddedRows(k, p);
    PaddedSources(k, p);
    PaddedIsClaim(k, p);
    SameVerdictTerms(k, p.o, Decision(p));
    SameEvidenceTerms(k, p.o, Decision(p));
    SettlementTermErrors(k, p.o, Decision(p), p.t);
    SumFew(p.c, p.d, p.d, NetOf);
    SettlementTermsCancel(k, p.o, Decision(p), p.t);
  }

  lemma PaddedIsClaim(k: Check, p: Padding)
    requires IsPadded(k, p) && Paddable(p)
    ensures SettlementClaim(k, p.o, Decision(p), p.t) && VerdictTerms(p.o, Decision(p), ClaimedRows(k)).Ok?
  {
    hide IsPadded, GatewayTerms, CreditTerms, ByPayment, ByTxn, ClaimedRows, CapturesIn, CreditsIn;
    PaddedFields(k, p);
    PaddedRows(k, p);
    CitedKinds(p);
    assert CitedHere(p)[0] == OrderRow(p.o);
  }

  lemma PaddedGroup(k: Check, p: Padding)
    requires IsPadded(k, p) && Paddable(p)
    ensures GroupRows(k, "None") == [p.c] && EventPayments(k.rows) == {p.d.paymentId}
    ensures CompleteGroupIds(k.rows, {"None"}) == {p.c.paymentId, p.d.paymentId}
  {
    hide CompleteGroupIds, GroupRows, EventPayments, Paddable, IsPadded;
    NoneRows(k, p);
    PaddedEvents(k, p);
    CompleteIdsMeaning(k, "None");
    assert PaymentIdSet([p.c]) == {p.c.paymentId};
  }

  lemma NoneRows(k: Check, p: Padding)
    requires IsPadded(k, p) && Paddable(p)
    ensures GroupRows(k, "None") == [p.c]
  {
    hide Indexed, RowIds, Uniques, Filter, CapturesIn, PaddedClaim, SourceNames, Sources, NetOf;
    DistinctNames(p);
    SourceIds(p);
    SourceCaptures(p);
    FilterTwo(p.c, p.d, InSettlement("None"));
  }

  lemma PaddedEvents(k: Check, p: Padding)
    requires IsPadded(k, p) && Paddable(p)
    ensures EventPayments(k.rows) == {p.d.paymentId}
  {
    hide Indexed, RowIds, Uniques;
    SourceIds(p);
    var last := EventRow(p.e);
    assert Sources(p)[4] == last && last in Sources(p) && PaymentField(last) == Some(p.d.paymentId);
    assert forall r :: r in Sources(p) && r.EventRow? ==> r == last;
  }

  lemma SourceCaptures(p: Padding)
    requires p.t.isCredit
    ensures CapturesIn(Sources(p)) == [p.c, p.d]
  {
    hide CitedHere;
    assert Sources(p) == CitedHere(p) + [EventRow(p.e)] by { AllCitedButLast(p); }
    CapturesConcat(CitedHere(p), [EventRow(p.e)]);
    CitedKinds(p);
    assert [EventRow(p.e)][1..] == [];
  }

  lemma AllCitedButLast(p: Padding)
    ensures Sources(p) == CitedHere(p) + [EventRow(p.e)]
  {
  }

  lemma PairNames(c: Capture, d: Capture)
    requires c.settlementId == "None" && d.settlementId == ""
    ensures NamedGroups([c, d]) == {"None"} && PaymentIdSet([c, d]) == {c.paymentId, d.paymentId}
  {
    assert [c, d][0] == c && [c, d][1] == d;
  }

  lemma PaddedEvidence(k: Check, p: Padding)
    requires IsPadded(k, p) && Paddable(p)
    ensures EvidenceErrors(k) == {} && !Raises(k)
  {
    hide IsPadded, Paddable, Sum, InvoiceOf, ClaimedCaptures, ClaimedCredits, TheRecon, MembershipHolds,
         ReceivedMatches, PassEvidenceHolds, NoDelay, DelayContradicts;
    PaddedRules(k, p);
    PaddedRows(k, p);
    PairChecks(k, p);
    PairDates(k, p);
  }

  lemma PairChecks(k: Check, p: Padding)
    requires IsPadded(k, p) && Paddable(p)
    ensures MembershipHolds(k, [p.c, p.d]) && Sum([p.c, p.d], NetOf) == p.t.amountPaise && ReceivedMatches(k, [p.c, p.d])
  {
    hide IsPadded, Sum, CompleteGroupIds, InvoiceOf, ClaimedCaptures, Filter, RefundTotal, NamedGroups, PaymentIdSet,
         CalendarDelta, ValidDate, GroupRows, EventPayments, MembershipHolds, RelatedTo, SourceNames, NetOf;
    PaddedFields(k, p);
    PaddedSources(k, p);
    PaddedGroup(k, p);
    PairNames(p.c, p.d);
    PairMembership(k, p);
    SumFew(p.c, p.d, p.d, NetOf);
    OwnAlone(k, p);
    FilterOne(p.c, IsRefund);
    NoRefundsNoTotal();
  }

  lemma OwnAlone(k: Check, p: Padding)
    requires k.cert.claim.orderId == p.o.orderId && p.c.orderId == p.o.orderId && p.d.orderId != p.o.orderId
    ensures RelatedTo(k, [p.c, p.d]) == [p.c]
  {
    FilterTwo(p.c, p.d, OfOrder(p.o.orderId));
    assert [p.c] + [] == [p.c];
  }

  lemma PairDates(k: Check, p: Padding)
    requires IsPadded(k, p) && Paddable(p)
    ensures PassEvidenceHolds(k, Pass1ExactUtr, [p.c, p.d], p.t)
    ensures !NoDelay(k, [p.c, p.d], p.t) && !DelayContradicts(k, [p.c, p.d], p.t)
  {
    hide IsPadded, Filter, LatestCapture, CalendarDelta, ValidDate, SourceNames, RelatedTo;
    PaddedFields(k, p);
    OwnAlone(k, p);
    OneLatest(p.c);
    assert [p.c, p.d][0] == p.c;
  }

  lemma PairMembership(k: Check, p: Padding)
    requires k.cert.claim.orderId == p.c.orderId && NamedGroups([p.c, p.d]) == {"None"}
    requires PaymentIdSet([p.c, p.d]) == CompleteGroupIds(k.rows, {"None"})
    ensures MembershipHolds(k, [p.c, p.d])
  {
    assert [p.c, p.d][0] == p.c;
  }

  lemma OneLatest(c: Capture)
    ensures LatestCapture([c]) == c.capturedAt
  {
    assert c in [c];
  }

  /** The claim is accepted, and what it cites is not the settlement: the credit pays for a payment of another order. */
  lemma PaddedGroupIsAccepted(k: Check, p: Padding)
    requires IsPadded(k, p) && Paddable(p)
    ensures Accepts(k) && ClaimsSettlementVerdict(k) && NamedGroups(ClaimedCaptures(k)) == {"None"}
    ensures ClaimedCaptures(k) == [p.c, p.d] && GroupRows(k, "None") == [p.c]
  {
    hide IsPadded, Paddable, GroupRows, ClaimedCaptures, SourceErrors, EnvelopeErrors, ExpectationErrors, TdsErrors,
         TermErrors, AmountErrors, RuleErrors, SchemaErrors, EvidenceErrors, Raises, NamedGroups;
    PaddedFields(k, p);
    PaddedRules(k, p);
    PaddedRows(k, p);
    PaddedSources(k, p);
    PaddedTerms(k, p);
    PaddedGroup(k, p);
    PaddedEvidence(k, p);
    PaddableNames(p);
    PairNames(p.c, p.d);
  }

  lemma PaddableNames(p: Padding)
    requires Paddable(p)
    ensures p.c.settlementId == "None" && p.d.settlementId == ""
  {
  }

  /** An invoice of 100 and a foreign payment of 50 under one credit of 150. */
  function Example(): Padding {
    var day := Date(2025, 6, 2);
    Padding(Order("o", "i", "c", "n", 100, day, Gateway),
            Capture("p1", "o", 100, 0, 0, Captured, day, "None", "u"), Capture("p2", "x", 50, 0, 0, Captured, day, "", ""),
            BankTxn("t", day, 150, true, "u", "n", 0), Refund("r", "p2", "x", 50, Processed, day))
  }

  lemma ExampleIsPaddable()
    ensures Paddable(Example())
  {
    var names := SourceNames(Example());
    assert names == ["o", "p1", "p2", "t", "r"];
    assert NoDup(names);
  }

  /** Under any digests and any reading of narrations the example's claim is accepted and is not its settlement. */
  lemma PaddingExists(dig: Digests, reader: Reader, configHash: string, calibrationId: string) returns (k: Check)
    ensures IsPadded(k, Example()) && Accepts(k) && ClaimedCaptures(k) != GroupRows(k, "None")
  {
    k := Check(Sealed(PaddedClaim(Example(), configHash, calibrationId, dig), dig), Sources(Example()), dig, reader,
               Some(configHash), Some(calibrationId));
    hide Accepts, ClaimedCaptures, GroupRows, PaddedClaim, Sources, Example, Paddable;
    ExampleIsPaddable();
    PaddedGroupIsAccepted(k, Example());
    assert |ClaimedCaptures(k)| == 2;
  }
}
