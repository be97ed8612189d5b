/** What an accepted certificate proves about the source rows, whoever wrote it. */
module ProofSoundness {
  import opened Prelude
  import opened Models
  import opened SourceRows
  import opened Certificates
  import opened Verifier

  // ------------------------------------------------------------ from codes to facts

  lemma AcceptedSections(k: Check)
    requires Accepts(k)
    ensures EnvelopeErrors(k) == {} && SourceErrors(k) == {} && TdsErrors(k) == {} && TermErrors(k) == {}
    ensures AmountErrors(k) == {} && RuleErrors(k) == {} && SchemaErrors(k) == {} && EvidenceErrors(k) == {}
    ensures ExpectationErrors(k) == {}
  {
    hide EnvelopeErrors, SourceErrors, TdsErrors, TermErrors, AmountErrors, RuleErrors, SchemaErrors, EvidenceErrors,
         ExpectationErrors, Raises;
  }

  lemma NotRaised(raised: bool, code: ErrorCode)
    requires Flag(raised, code) == {}
    ensures !raised
  {
  }

  /** The claim names one known pass that may justify its verdict, and its amounts have the verdict's shape. */
  lemma AcceptedRules(k: Check)
    requires Accepts(k)
    ensures RuleFitsVerdict(k) && !InvariantBroken(k)
  {
    hide RuleFitsVerdict, InvariantBroken, Accepts, RuleAllowed;
    AcceptedSections(k);
    NotRaised(!RuleFitsVerdict(k), RuleVerdictMismatch);
    NotRaised(InvariantBroken(k), VerdictInvariantFailed);
  }

  /** The claimed order is one of the rows. */
  lemma AcceptedOrder(k: Check)
    requires Accepts(k)
    ensures InvoiceOf(k).Some? && !VerdictAmountWrong(k, InvoiceOf(k).value)
    ensures NoDup(RowIds(k.rows))
  {
    hide VerdictAmountWrong, Accepts, HashDiffers, RootMatches, Indexed, RowIds, Sum;
    AcceptedSections(k);
    var id := k.cert.claim.orderId;
    NotRaised(id !in ClaimedIds(k), OrderSourceMissing);
    NotRaised(exists x :: x in ClaimedIds(k) && x !in Indexed(k.rows), SourceMissing);
    NotRaised(!NoDup(RowIds(k.rows)), DuplicateSourceConsumption);
    assert id in Indexed(k.rows);
    NotRaised(InvoiceOf(k).Some? && VerdictAmountWrong(k, InvoiceOf(k).value), VerdictAmountMismatch);
  }

  lemma AcceptedEvidence(k: Check)
    requires Accepts(k)
    ensures !Raises(k)
    ensures SettlementRule(k) ==> SettlementErrors(k, TheRecon(k).value) == {}
    ensures ScoredRule(k) ==> ScoredErrors(k) == {}
  {
    hide SettlementErrors, ScoredErrors, TheRecon, Raises, RejectedErrors, StatusErrors, DisputeErrors, ExhaustedErrors,
         NegativeErrors, ClaimsUndecided, AllErrors;
    AcceptedSections(k);
    assert !Raises(k);
  }

  // ------------------------------------------------------------ the complete settlement group

  /** Every indexed gateway row of the settlement. */
  function GroupRows(k: Check, sid: string): seq<Capture> {
    Filter(CapturesIn(Uniques(k.rows)), InSettlement(sid))
  }

  /** The payments that refund and dispute rows name. */
  function EventPayments(rows: seq<Row>): set<string> {
    set r | r in Uniques(rows) && r.EventRow? && PaymentField(r).Some? :: PaymentField(r).value
  }

  /** Which payments the verifier counts as the group: rows without a settlement column read as "None". */
  lemma CompleteIdsMeaning(k: Check, sid: string)
    ensures CompleteGroupIds(k.rows, {sid})
         == PaymentIdSet(GroupRows(k, sid)) + (if sid == "None" then EventPayments(k.rows) else {})
  {
    hide Uniques;
    var ids, group := CompleteGroupIds(k.rows, {sid}), GroupRows(k, sid);
    forall p
      ensures p in ids <==> p in PaymentIdSet(group) || (sid == "None" && p in EventPayments(k.rows))
    {
      if p in ids {
        var r :| r in Uniques(k.rows) && PaymentField(r) == Some(p) && SettlementText(r) == sid;
        if r.CaptureRow? {
          assert r.capture in group;
        } else {
          assert r.EventRow?;
        }
      }
      if p in PaymentIdSet(group) {
        var c :| c in group && c.paymentId == p;
        assert CaptureRow(c) in Uniques(k.rows) && SettlementText(CaptureRow(c)) == sid;
      }
      if sid == "None" && p in EventPayments(k.rows) {
        var r :| r in Uniques(k.rows) && r.EventRow? && PaymentField(r) == Some(p);
        assert SettlementText(r) == "None";
      }
    }
  }

  lemma ClaimedAreSelected(k: Check)
    ensures ClaimedCaptures(k) == Filter(CapturesIn(Uniques(k.rows)), PaymentIn(ClaimedIds(k)))
  {
    CapturesOfSelected(Uniques(k.rows), ClaimedIds(k));
  }

  lemma SamePayment(k: Check, c: Capture, d: Capture)
    requires c in CapturesIn(Uniques(k.rows)) && d in CapturesIn(Uniques(k.rows)) && c.paymentId == d.paymentId
    ensures c == d
  {
    hide Uniques;
    SameIdSameRow(k.rows, CaptureRow(c), CaptureRow(d));
  }

  /** Claimed gateway rows with the payment ids of a selection are that selection. */
  lemma SameIdsSameCaptures(k: Check, p: Capture -> bool)
    requires PaymentIdSet(ClaimedCaptures(k)) == PaymentIdSet(Filter(CapturesIn(Uniques(k.rows)), p))
    ensures ClaimedCaptures(k) == Filter(CapturesIn(Uniques(k.rows)), p)
  {
    hide Uniques, CapturesIn, ClaimedCaptures;
    ClaimedAreSelected(k);
    var all := CapturesIn(Uniques(k.rows));
    var chosen := Filter(all, p);
    forall c | c in all
      ensures PaymentIn(ClaimedIds(k))(c) == p(c)
    {
      if p(c) {
        assert c.paymentId in PaymentIdSet(chosen);
        var d :| d in ClaimedCaptures(k) && d.paymentId == c.paymentId;
      }
      if c.paymentId in ClaimedIds(k) {
        assert c in ClaimedCaptures(k);
        assert c.paymentId in PaymentIdSet(chosen);
        var d :| d in chosen && d.paymentId == c.paymentId;
        SamePayment(k, c, d);
      }
    }
    FilterAgree(all, PaymentIn(ClaimedIds(k)), p);
  }

  lemma OneName(names: set<string>) returns (sid: string)
    requires |names| == 1
    ensures names == {sid}
  {
    sid :| sid in names;
    assert |names - {sid}| == 0;
  }

  predicate ClaimsSettlementVerdict(k: Check) {
    Claims(k, SettledClean) || Claims(k, SettledLate) || Claims(k, PartiallyPaid)
  }

  lemma AcceptedSettlementRule(k: Check)
    requires Accepts(k) && ClaimsSettlementVerdict(k)
    ensures SettlementRule(k)
    ensures InvoiceOf(k) == Some(k.cert.claim.moneyReceivedPaise + k.cert.claim.deltaDuePaise)
    ensures k.cert.claim.moneyReceivedPaise > 0 && k.cert.claim.deltaDuePaise >= 0
  {
    hide Accepts, InvoiceOf, TheRecon;
    AcceptedRules(k);
    AcceptedOrder(k);
  }

  lemma AcceptedSettlementFacts(k: Check) returns (credit: BankTxn)
    requires Accepts(k) && SettlementRule(k)
    ensures ClaimedCredits(k) == [credit] && ClaimedCaptures(k) != []
    ensures MembershipHolds(k, ClaimedCaptures(k))
    ensures Sum(ClaimedCaptures(k), NetOf) == credit.amountPaise
    ensures ReceivedMatches(k, ClaimedCaptures(k))
    ensures PassEvidenceHolds(k, TheRecon(k).value, ClaimedCaptures(k), credit)
    ensures !NoDelay(k, ClaimedCaptures(k), credit) && !DelayContradicts(k, ClaimedCaptures(k), credit)
  {
    hide Accepts, ClaimedCaptures, ClaimedCredits, MembershipHolds, ReceivedMatches, PassEvidenceHolds, NoDelay,
         DelayContradicts, Sum, TheRecon;
    AcceptedEvidence(k);
    var pass := TheRecon(k).value;
    assert SettlementShaped(k);
    credit := ClaimedCredits(k)[0];
    var caps := ClaimedCaptures(k);
    NotRaised(!MembershipHolds(k, caps), SettlementMembershipMismatch);
    NotRaised(Sum(caps, NetOf) != credit.amountPaise, SettlementEquationFailed);
    NotRaised(!ReceivedMatches(k, caps), EvidenceAmountMismatch);
    NotRaised(!PassEvidenceHolds(k, pass, caps, credit), RuleEvidenceMismatch);
    NotRaised(DelayContradicts(k, caps, credit), VerdictEvidenceMismatch);
  }

  // ------------------------------------------------------------ soundness

  /**
   * An accepted settlement certificate: the cited gateway rows are one settlement, their amounts less fees and tax
   * are the one cited credit, and receipt and remaining debt make the invoice.
   */
  lemma SettlementCertificateBalances(k: Check) returns (sid: string, credit: BankTxn)
    requires Accepts(k) && ClaimsSettlementVerdict(k)
    ensures sid != "" && NamedGroups(ClaimedCaptures(k)) == {sid}
    ensures ClaimedCredits(k) == [credit] && Sum(ClaimedCaptures(k), NetOf) == credit.amountPaise
    ensures PaymentIdSet(ClaimedCaptures(k))
         == PaymentIdSet(GroupRows(k, sid)) + (if sid == "None" then EventPayments(k.rows) else {})
    ensures sid != "None" ==> Sum(GroupRows(k, sid), NetOf) == credit.amountPaise
    ensures InvoiceOf(k) == Some(k.cert.claim.moneyReceivedPaise + k.cert.claim.deltaDuePaise)
    ensures k.cert.claim.deltaDuePaise == RefundTotal(Filter(RelatedTo(k, ClaimedCaptures(k)), IsRefund))
  {
    hide Accepts, ClaimedCaptures, ClaimedCredits, InvoiceOf, TheRecon, PassEvidenceHolds, NoDelay, DelayContradicts,
         CompleteGroupIds, RelatedTo, RefundTotal, GroupRows, EventPayments, Sum;
    AcceptedSettlementRule(k);
    credit := AcceptedSettlementFacts(k);
    var caps := ClaimedCaptures(k);
    sid := OneName(NamedGroups(caps));
    assert sid in NamedGroups(caps);
    CompleteIdsMeaning(k, sid);
    if sid != "None" {
      GroupIsClaimed(k, sid);
    }
  }

  lemma GroupIsClaimed(k: Check, sid: string)
    requires PaymentIdSet(ClaimedCaptures(k)) == PaymentIdSet(GroupRows(k, sid))
    ensures ClaimedCaptures(k) == GroupRows(k, sid)
  {
    SameIdsSameCaptures(k, InSettlement(sid));
  }

  /** The cited rows are the complete group exactly when no event row drags a foreign payment into a group named "None". */
  lemma ClaimedGroupIsComplete(k: Check, sid: string)
    requires Accepts(k) && ClaimsSettlementVerdict(k) && NamedGroups(ClaimedCaptures(k)) == {sid}
    ensures ClaimedCaptures(k) == GroupRows(k, sid)
       <==> (sid == "None" ==> EventPayments(k.rows) <= PaymentIdSet(GroupRows(k, sid)))
  {
    hide Accepts, ClaimedCaptures, GroupRows, EventPayments, ClaimsSettlementVerdict, NamedGroups;
    var s, credit := SettlementCertificateBalances(k);
    assert s in {sid};
    if PaymentIdSet(ClaimedCaptures(k)) == PaymentIdSet(GroupRows(k, sid)) {
      GroupIsClaimed(k, sid);
    }
  }

  lemma AcceptedScoredFacts(k: Check) returns (credit: BankTxn)
    requires Accepts(k) && ScoredRule(k)
    ensures ClaimedCredits(k) == [credit] && credit.amountPaise == k.cert.claim.moneyReceivedPaise
    ensures Claims(k, PaidNetOfTds) && InvoiceOf(k).Some? ==> TdsMatches(k, InvoiceOf(k).value - credit.amountPaise)
    ensures Claims(k, PaidOutOfBand) || Claims(k, PaidNetOfTds) ==> OrderCaptures(k) == []
    ensures Claims(k, RefundedThenRepaid) ==> FullyRefunded(k)
  {
    hide Accepts, ClaimedCredits, InvoiceOf, TdsMatches, OrderCaptures, FullyRefunded, Claims, TheRecon, ClaimsUndecided;
    AcceptedEvidence(k);
    var credits, received := ClaimedCredits(k), k.cert.claim.moneyReceivedPaise;
    NotRaised(|credits| != 1, EvidenceShapeMismatch);
    credit := credits[0];
    NotRaised(|credits| == 1 && credits[0].amountPaise != received, EvidenceAmountMismatch);
    NotRaised(Claims(k, PaidNetOfTds) && InvoiceOf(k).Some? && !TdsMatches(k, InvoiceOf(k).value - received),
              ErrorCode.TdsEvidenceMismatch);
    NotRaised((Claims(k, PaidOutOfBand) || Claims(k, PaidNetOfTds)) && OrderCaptures(k) != [], VerdictEvidenceMismatch);
    NotRaised(Claims(k, RefundedThenRepaid) && !FullyRefunded(k), RefundEvidenceMismatch);
  }

  predicate ClaimsScoredVerdict(k: Check) {
    Claims(k, PaidOutOfBand) || Claims(k, PaidNetOfTds) || Claims(k, RefundedThenRepaid)
  }

  lemma AcceptedScoredRule(k: Check)
    requires Accepts(k) && ClaimsScoredVerdict(k)
    ensures ScoredRule(k) && InvoiceOf(k).Some?
    ensures !Claims(k, PaidNetOfTds) ==> InvoiceOf(k) == Some(k.cert.claim.moneyReceivedPaise)
    ensures k.cert.claim.moneyReceivedPaise > 0 && k.cert.claim.deltaDuePaise == 0
  {
    hide Accepts, InvoiceOf, TheRecon;
    AcceptedRules(k);
    AcceptedOrder(k);
  }

  lemma AcceptedTds(k: Check, e: FinanceEvent)
    requires Accepts(k) && e in TdsIn(ClaimedRows(k))
    ensures SoundTds(e)
  {
    hide Accepts, SoundTds, ClaimedRows;
    AcceptedSections(k);
    NotRaised(exists x :: x in TdsIn(ClaimedRows(k)) && !SoundTds(x), TdsEvidenceInvalid);
  }

  /** Paid net of TDS: the credit and one sound piece of the order's own tax evidence make the invoice. */
  lemma NetOfTdsCertificateBalances(k: Check) returns (credit: BankTxn, proof: FinanceEvent)
    requires Accepts(k) && Claims(k, PaidNetOfTds)
    ensures ClaimedCredits(k) == [credit] && TdsIn(ClaimedRows(k)) == [proof]
    ensures proof.TdsEvidence? && SoundTds(proof) && proof.orderId == k.cert.claim.orderId
    ensures InvoiceOf(k) == Some(credit.amountPaise + proof.amountPaise)
    ensures 0 < credit.amountPaise < InvoiceOf(k).value
    ensures OrderCaptures(k) == []
  {
    hide Accepts, ClaimedCredits, ClaimedRows, InvoiceOf, OrderCaptures, SoundTds;
    AcceptedScoredRule(k);
    credit := AcceptedScoredFacts(k);
    proof := TdsIn(ClaimedRows(k))[0];
    AcceptedTds(k, proof);
    SoundTdsIsPositive(proof);
  }

  lemma SoundTdsIsPositive(e: FinanceEvent)
    requires e.TdsEvidence? && SoundTds(e)
    ensures e.amountPaise > 0
  {
  }

  /** Refunded then repaid: every gateway row of the order is cited and they net to nothing; the credit is the invoice. */
  lemma RepaidCertificateBalances(k: Check) returns (credit: BankTxn)
    requires Accepts(k) && Claims(k, RefundedThenRepaid)
    ensures ClaimedCredits(k) == [credit] && InvoiceOf(k) == Some(credit.amountPaise) && credit.amountPaise > 0
    ensures ClaimedCaptures(k) == OrderCaptures(k) && Sum(OrderCaptures(k), NetOf) == 0
    ensures exists c :: c in OrderCaptures(k) && IsRefund(c)
  {
    hide Accepts, ClaimedCredits, ClaimedCaptures, InvoiceOf, Sum;
    AcceptedScoredRule(k);
    credit := AcceptedScoredFacts(k);
    SameIdsSameCaptures(k, OfOrder(k.cert.claim.orderId));
  }

  /** Paid out of band: one credit of exactly the invoice, and no gateway row of the order. */
  lemma OutOfBandCertificateBalances(k: Check) returns (credit: BankTxn)
    requires Accepts(k) && Claims(k, PaidOutOfBand)
    ensures ClaimedCredits(k) == [credit] && InvoiceOf(k) == Some(credit.amountPaise) && credit.amountPaise > 0
    ensures OrderCaptures(k) == []
  {
    hide Accepts, ClaimedCredits, InvoiceOf, OrderCaptures;
    AcceptedScoredRule(k);
    credit := AcceptedScoredFacts(k);
  }

  // ------------------------------------------------------------ binding

  ghost predicate CollisionFree(dig: Digests) {
    && (forall r, s :: dig.row(r) == dig.row(s) ==> r == s)
    && (forall m, n :: dig.root(m) == dig.root(n) ==> m == n)
    && (forall c, d :: dig.payload(c) == dig.payload(d) ==> c == d)
  }

  lemma AcceptedRoot(k: Check)
    requires Accepts(k)
    ensures RootMatches(k) && NoDup(RowIds(k.rows)) && k.dig.payload(k.cert.claim) == k.cert.proofHash
  {
    hide Accepts, RootMatches, HashDiffers, RowIds, Indexed, RiskProvenanceBad;
    AcceptedSections(k);
    NotRaised(!RootMatches(k), BatchRootMismatch);
    NotRaised(!NoDup(RowIds(k.rows)), DuplicateSourceConsumption);
    NotRaised(k.dig.payload(k.cert.claim) != k.cert.proofHash, ProofHashMismatch);
  }

  /** The root covers the whole batch: two batches over which one claim is accepted hold the same rows. */
  lemma ClaimBindsTheBatch(k: Check, l: Check)
    requires Accepts(k) && Accepts(l) && k.dig == l.dig && CollisionFree(k.dig)
    requires k.cert.proofHash == l.cert.proofHash
    ensures k.cert == l.cert
    ensures forall r :: r in k.rows <==> r in l.rows
  {
    hide Accepts, RowIds;
    AcceptedRoot(k);
    AcceptedRoot(l);
    assert k.cert.claim == l.cert.claim;
    var m, n := RowHashes(k.rows, k.dig), RowHashes(l.rows, l.dig);
    assert m == n;
    SameHashesSameRows(k.rows, l.rows, k.dig);
    SameHashesSameRows(l.rows, k.rows, k.dig);
  }

  lemma SameHashesSameRows(a: seq<Row>, b: seq<Row>, dig: Digests)
    requires NoDup(RowIds(a)) && CollisionFree(dig) && RowHashes(a, dig) == RowHashes(b, dig)
    ensures forall r :: r in a ==> r in b
  {
    DistinctRowsAreIndexed(a);
    forall r | r in a
      ensures r in b
    {
      var id := RowId(r);
      assert id in RowHashes(a, dig) && RowHashes(a, dig)[id] == dig.row(r);
      assert dig.row(Indexed(b)[id]) == dig.row(r);
    }
  }
}
