/** What an accepted certificate of any verdict says about the rows, by any author. */
module ClaimSoundness {
  import opened Prelude
  import opened Sorting
  import opened Dates
  import opened Models
  import opened SourceRows
  import opened Certificates
  import opened Verifier
  import opened ProofSoundness

  // ------------------------------------------------------------ in terms of rows

  ghost predicate CitedId(k: Check, id: string) { id in k.cert.claim.sourceHashes && id != BATCH_ROOT }

  ghost predicate CitedCapture(k: Check, c: Capture) { CaptureRow(c) in k.rows && CitedId(k, c.paymentId) }

  ghost predicate CitedCredit(k: Check, t: BankTxn) { BankRow(t) in k.rows && t.isCredit && CitedId(k, t.txnId) }

  ghost predicate CitedDispute(k: Check, e: FinanceEvent) { EventRow(e) in k.rows && e.Dispute? && CitedId(k, e.disputeId) }

  /** A gateway row of the claimed order, cited or not. */
  ghost predicate OwnRow(k: Check, c: Capture) { CaptureRow(c) in k.rows && c.orderId == k.cert.claim.orderId }

  /** The certificate declares this pass and no other. */
  ghost predicate Declares(k: Check, p: Pass) {
    && ReconRule(KnownPass(p)) in k.cert.claim.ruleIds
    && forall q :: ReconRule(q) in k.cert.claim.ruleIds ==> q == KnownPass(p)
  }

  ghost predicate PossibleAmount(invoice: int, x: int) {
    || x == invoice || x == invoice - invoice * 100 / 10_000
    || x == invoice - invoice * 200 / 10_000 || x == invoice - invoice * 1_000 / 10_000
  }

  lemma {:induction false} DeclaredRules(ids: seq<RuleId>, q: PassName)
    ensures q in ReconRules(ids) <==> ReconRule(q) in ids
  {
    if ids != [] {
      DeclaredRules(ids[1..], q);
      assert ids == [ids[0]] + ids[1..];
    }
  }

  lemma DeclaredPass(k: Check, p: Pass)
    requires TheRecon(k) == Some(p)
    ensures Declares(k, p)
  {
    var rules := ReconRules(k.cert.claim.ruleIds);
    assert rules == [KnownPass(p)];
    forall q
      ensures ReconRule(q) in k.cert.claim.ruleIds <==> q == KnownPass(p)
    {
      DeclaredRules(k.cert.claim.ruleIds, q);
    }
  }

  // ------------------------------------------------------------ what is cited

  lemma AcceptedRows(k: Check)
    requires Accepts(k)
    ensures Uniques(k.rows) == k.rows
    ensures forall r :: r in ClaimedRows(k) <==> r in k.rows && CitedId(k, RowId(r))
  {
    hide Accepts, RowId, RowIds, Uniques;
    AcceptedOrder(k);
    DistinctRowsAreIndexed(k.rows);
  }

  lemma AcceptedCitations(k: Check)
    requires Accepts(k)
    ensures forall c :: c in ClaimedCaptures(k) <==> CitedCapture(k, c)
    ensures forall t :: t in ClaimedCredits(k) <==> CitedCredit(k, t)
    ensures forall e :: e in DisputesIn(ClaimedRows(k)) <==> CitedDispute(k, e)
    ensures forall c :: c in OrderCaptures(k) <==> OwnRow(k, c)
  {
    hide Accepts, ClaimedRows, Uniques, CitedId;
    AcceptedRows(k);
  }

  /** The row whose id the claim calls its order, and the invoice on it. */
  lemma AcceptedInvoice(k: Check) returns (r: Row)
    requires Accepts(k)
    ensures r in k.rows && RowId(r) == k.cert.claim.orderId && InvoiceOf(k) == Some(AmountOf(r)) && CitedId(k, RowId(r))
    ensures Indexed(k.rows)[RowId(r)] == r && RowId(r) in Indexed(k.rows)
  {
    hide Accepts, RowId, RowIds, Indexed, HashDiffers, RootMatches;
    AcceptedOrder(k);
    AcceptedSections(k);
    var id := k.cert.claim.orderId;
    NotRaised(id !in ClaimedIds(k), OrderSourceMissing);
    r := Indexed(k.rows)[id];
  }

  lemma CitedAreHashed(k: Check, id: string)
    requires Accepts(k) && CitedId(k, id)
    ensures exists r :: r in k.rows && RowId(r) == id && k.dig.row(r) == k.cert.claim.sourceHashes[id]
  {
    hide Accepts, RowId, RowIds, Indexed, RootMatches, Uniques,
         EnvelopeErrors, TdsErrors, TermErrors, AmountErrors, RuleErrors, SchemaErrors, EvidenceErrors, ExpectationErrors;
    AcceptedSections(k);
    var claim, ids := k.cert.claim, ClaimedIds(k);
    NotRaised(exists x :: x in ids && x !in Indexed(k.rows), SourceMissing);
    NotRaised(exists x :: x in ids && HashDiffers(claim.sourceHashes, k.rows, k.dig.row, x), SourceHashMismatch);
    assert id in ids && !HashDiffers(claim.sourceHashes, k.rows, k.dig.row, id);
    var r := Indexed(k.rows)[id];
    assert r in k.rows && RowId(r) == id;
  }

  lemma IdsAreUnique(k: Check, r: Row, s: Row)
    requires Accepts(k) && r in k.rows && s in k.rows && RowId(r) == RowId(s)
    ensures r == s
  {
    hide Accepts, RowId, RowIds, Indexed, Uniques;
    AcceptedOrder(k);
    DistinctRowsAreIndexed(k.rows);
  }

  lemma EnvelopeHolds(k: Check)
    requires Accepts(k)
    ensures k.cert.claim.version == CERTIFICATE_VERSION && k.dig.payload(k.cert.claim) == k.cert.proofHash
    ensures Some(k.cert.claim.configHash) == k.configHash && Some(k.cert.claim.calibrationId) == k.calibrationId
  {
    hide Accepts, RiskProvenanceBad, SourceErrors, TdsErrors, TermErrors, AmountErrors, RuleErrors, SchemaErrors, EvidenceErrors;
    AcceptedSections(k);
    NotRaised(k.cert.claim.version != CERTIFICATE_VERSION, UnsupportedVersion);
    NotRaised(k.dig.payload(k.cert.claim) != k.cert.proofHash, ProofHashMismatch);
  }

  /** Proof hash, every cited row, the whole batch, configuration and calibration are those the verifier holds. */
  lemma AcceptedIsBound(k: Check)
    requires Accepts(k)
    ensures k.cert.claim.version == CERTIFICATE_VERSION && k.dig.payload(k.cert.claim) == k.cert.proofHash
    ensures CitedId(k, k.cert.claim.orderId)
    ensures forall id :: CitedId(k, id) ==> exists r :: r in k.rows && RowId(r) == id && k.dig.row(r) == k.cert.claim.sourceHashes[id]
    ensures forall r, s :: r in k.rows && s in k.rows && RowId(r) == RowId(s) ==> r == s
    ensures Some(k.cert.claim.configHash) == k.configHash && Some(k.cert.claim.calibrationId) == k.calibrationId
  {
    hide Accepts, RowId, InvoiceOf;
    var claim := k.cert.claim;
    EnvelopeHolds(k);
    var order := AcceptedInvoice(k);
    forall id | CitedId(k, id)
      ensures exists r :: r in k.rows && RowId(r) == id && k.dig.row(r) == claim.sourceHashes[id]
    {
      CitedAreHashed(k, id);
    }
    forall r, s | r in k.rows && s in k.rows && RowId(r) == RowId(s)
      ensures r == s
    {
      IdsAreUnique(k, r, s);
    }
  }

  /** The risk provenance of an accepted claim: a known path, a score in range, and an authorisation that names its calibration. */
  lemma AcceptedProvenance(k: Check)
    requires Accepts(k)
    ensures var c := k.cert.claim;
            && c.automationPath.KnownPath? && 0 <= c.scorePpm <= 1_000_000
            && (c.automationPath.path.ProbabilisticPath? && c.riskAuthorized ==> c.riskCalibrationId != "")
            && (!c.automationPath.path.ProbabilisticPath? ==> c.riskCalibrationId == "" && c.scorePpm == 0)
  {
    hide Accepts, RiskProvenanceBad;
    AcceptedSections(k);
    NotRaised(RiskProvenanceBad(k.cert.claim), RiskProvenanceInvalid);
    SoundProvenanceMeans(k.cert.claim);
  }

  lemma SoundProvenanceMeans(c: Claim)
    requires !RiskProvenanceBad(c)
    ensures && c.automationPath.KnownPath? && 0 <= c.scorePpm <= 1_000_000
            && (c.automationPath.path.ProbabilisticPath? && c.riskAuthorized ==> c.riskCalibrationId != "")
            && (!c.automationPath.path.ProbabilisticPath? ==> c.riskCalibrationId == "" && c.scorePpm == 0)
  {
  }

  // ------------------------------------------------------------ the money terms

  /** The column a term cites, as it stands in the row. */
  ghost predicate Column(r: Row, f: Field, x: int) {
    match f
    case AmountField => x == AmountOf(r)
    case FeeField => r.CaptureRow? && x == r.capture.feePaise
    case TaxField => r.CaptureRow? && x == r.capture.taxPaise
    case BalanceField => r.BankRow? && x == r.txn.balanceAfter
    case _ => false
  }

  /** The terms add up to nothing, and every term with a source is a cited column up to its sign. */
  lemma AcceptedTerms(k: Check)
    requires Accepts(k)
    ensures Sum(k.cert.claim.amountTerms, TermAmount) == 0
    ensures forall t :: t in k.cert.claim.amountTerms && t.sourceRowId != "" ==>
              exists r, x :: r in k.rows && RowId(r) == t.sourceRowId && CitedId(k, t.sourceRowId)
                             && Column(r, t.sourceField, x) && Abs(t.amountPaise) == Abs(x)
  {
    hide Accepts, Sum, Indexed, RowId, VerdictAmountWrong, InvoiceOf, TermHasSource, TermMismatch;
    AcceptedSections(k);
    var terms := k.cert.claim.amountTerms;
    NotRaised(terms != [] && Sum(terms, TermAmount) != 0, AmountEquationFailed);
    NotRaised(exists t :: t in terms && t.sourceRowId != "" && !TermHasSource(k, t), AmountTermSourceMissing);
    NotRaised(exists t :: t in terms && TermMismatch(k, t), AmountTermSourceMismatch);
    NothingToAdd();
    forall t | t in terms && t.sourceRowId != ""
      ensures exists r, x :: r in k.rows && RowId(r) == t.sourceRowId && CitedId(k, t.sourceRowId)
                             && Column(r, t.sourceField, x) && Abs(t.amountPaise) == Abs(x)
    {
      SourcedTermFits(k, t);
    }
  }

  lemma NothingToAdd()
    ensures Sum([], TermAmount) == 0
  {
  }

  lemma SourcedTermFits(k: Check, t: AmountTerm)
    requires t.sourceRowId != "" && TermHasSource(k, t) && !TermMismatch(k, t)
    ensures exists r, x :: r in k.rows && RowId(r) == t.sourceRowId && CitedId(k, t.sourceRowId)
                           && Column(r, t.sourceField, x) && Abs(t.amountPaise) == Abs(x)
  {
    hide Indexed, RowId;
    var r := Indexed(k.rows)[t.sourceRowId];
    var value := IntField(r, t.sourceField);
    assert r in k.rows && Column(r, t.sourceField, value.value);
  }

  lemma {:induction false} GatewayTermsListed(cs: seq<Capture>)
    ensures |GatewayTerms(cs)| == 3 * |cs|
    ensures forall c :: c in cs ==> Itemised(GatewayTerms(cs), c)
  {
    if cs != [] {
      var rest, last := cs[..|cs| - 1], cs[|cs| - 1];
      GatewayTermsListed(rest);
      assert cs == rest + [last];
      var legs := CaptureTerms(last);
      assert legs[0] in legs && legs[1] in legs && legs[2] in legs;
    }
  }

  /** Gross, fee and tax of a gateway row are terms of the equation, a refund under its own name. */
  ghost predicate Itemised(terms: seq<AmountTerm>, c: Capture) {
    && AmountTerm(if c.status.RefundStatus? then GatewayRefund else GatewayCapture, c.amountPaise, c.paymentId, AmountField) in terms
    && AmountTerm(GatewayFee, -c.feePaise, c.paymentId, FeeField) in terms
    && AmountTerm(GatewayGst, -c.taxPaise, c.paymentId, TaxField) in terms
  }

  lemma ListedTerms(k: Check)
    requires Accepts(k)
    ensures forall t :: t in ExpectedTerms(k) <==> t in k.cert.claim.amountTerms
    ensures |ExpectedTerms(k)| == |k.cert.claim.amountTerms|
  {
    hide Accepts, ExpectedTerms;
    TermsAsExpected(k);
    var a, b := ExpectedTerms(k), k.cert.claim.amountTerms;
    assert forall t :: t in multiset(a) <==> t in a;
    assert forall t :: t in multiset(b) <==> t in b;
    assert |multiset(a)| == |multiset(b)|;
  }

  lemma ByPaymentKeeps(caps: seq<Capture>)
    ensures |ByPayment(caps)| == |caps| && forall c :: c in ByPayment(caps) <==> c in caps
  {
    SortPermutes(caps, PaymentLe);
    assert forall c :: c in multiset(caps) <==> c in caps;
    assert forall c :: c in multiset(ByPayment(caps)) <==> c in ByPayment(caps);
  }

  lemma CreditListed(credit: BankTxn)
    ensures CreditTerms(ByTxn([credit])) == [AmountTerm(BankCredit, -credit.amountPaise, credit.txnId, AmountField)]
    ensures forall x :: ReceiptTerms(ByTxn([credit]), x)
              == [AmountTerm(BankCredit, credit.amountPaise, credit.txnId, AmountField), AmountTerm(EvidenceReceived, -x, "", NoField)]
  {
    SortOne(credit, TxnLe);
    assert [credit][..0] == [];
  }

  /** The equation of a settlement: invoice, receipt and debt, every cited gateway row with fee and tax, and the credit; nothing else. */
  lemma SettlementTermsListed(k: Check) returns (invoice: int, credit: BankTxn)
    requires Accepts(k) && ClaimsSettlementVerdict(k)
    ensures InvoiceOf(k) == Some(invoice) && CitedCredit(k, credit)
    ensures var c := k.cert.claim;
            && AmountTerm(InvoiceTerm, invoice, c.orderId, AmountField) in c.amountTerms
            && AmountTerm(MoneyReceived, -c.moneyReceivedPaise, "", NoField) in c.amountTerms
            && (Claims(k, PartiallyPaid) ==> AmountTerm(DeltaDue, -c.deltaDuePaise, "", NoField) in c.amountTerms)
            && AmountTerm(BankCredit, -credit.amountPaise, credit.txnId, AmountField) in c.amountTerms
            && (forall x :: CitedCapture(k, x) ==> Itemised(c.amountTerms, x))
            && |c.amountTerms| == (if Claims(k, PartiallyPaid) then 4 else 3) + 3 * |ClaimedCaptures(k)|
  {
    hide Accepts, InvoiceOf, ClaimedCaptures, ClaimedCredits, CitedCredit, CitedCapture, GatewayTerms, ByPayment, ExpectedTerms,
         MembershipHolds, ReceivedMatches, PassEvidenceHolds, NoDelay, DelayContradicts, Sum, TheRecon, Itemised;
    AcceptedSettlementRule(k);
    credit := AcceptedSettlementFacts(k);
    invoice := InvoiceOf(k).value;
    AcceptedCitations(k);
    assert credit in [credit];
    ListedTerms(k);
    SettlementSchema(k, invoice, credit);
    var caps := ClaimedCaptures(k);
    var head := BillTerms(k, invoice);
    assert head[0] in head && head[1] in head && head[|head| - 1] in head;
    ByPaymentKeeps(caps);
    GatewayTermsListed(ByPayment(caps));
    forall x | CitedCapture(k, x)
      ensures Itemised(k.cert.claim.amountTerms, x)
    {
      assert x in ByPayment(caps);
      ItemisedIn(GatewayTerms(ByPayment(caps)), k.cert.claim.amountTerms, x);
    }
  }

  lemma ItemisedIn(a: seq<AmountTerm>, b: seq<AmountTerm>, c: Capture)
    requires Itemised(a, c) && forall t :: t in a ==> t in b
    ensures Itemised(b, c)
  {
  }

  function BillTerms(k: Check, invoice: int): seq<AmountTerm> {
    var c := k.cert.claim;
    [AmountTerm(InvoiceTerm, invoice, c.orderId, AmountField), AmountTerm(MoneyReceived, -c.moneyReceivedPaise, "", NoField)]
    + if Claims(k, PartiallyPaid) then [AmountTerm(DeltaDue, -c.deltaDuePaise, "", NoField)] else []
  }

  lemma SettlementSchema(k: Check, invoice: int, credit: BankTxn)
    requires SettlementRule(k) && ClaimsSettlementVerdict(k) && InvoiceOf(k) == Some(invoice) && ClaimedCredits(k) == [credit]
    ensures ExpectedTerms(k) == BillTerms(k, invoice) + GatewayTerms(ByPayment(ClaimedCaptures(k)))
                                + [AmountTerm(BankCredit, -credit.amountPaise, credit.txnId, AmountField)]
  {
    hide InvoiceOf, ClaimedCaptures, ClaimedCredits, GatewayTerms, CreditTerms, ByPayment, ByTxn, ClaimedRows, TheRecon;
    CreditListed(credit);
  }

  /** The equation of an order paid by one scored credit: invoice against receipt, the credit against the receipt it proves. */
  lemma ScoredTermsListed(k: Check) returns (invoice: int, credit: BankTxn)
    requires Accepts(k) && ClaimsScoredVerdict(k)
    ensures InvoiceOf(k) == Some(invoice) && CitedCredit(k, credit) && credit.amountPaise == k.cert.claim.moneyReceivedPaise
    ensures var c := k.cert.claim;
            && AmountTerm(InvoiceTerm, invoice, c.orderId, AmountField) in c.amountTerms
            && AmountTerm(MoneyReceived, -credit.amountPaise, "", NoField) in c.amountTerms
            && AmountTerm(BankCredit, credit.amountPaise, credit.txnId, AmountField) in c.amountTerms
            && AmountTerm(EvidenceReceived, -credit.amountPaise, "", NoField) in c.amountTerms
            && (Claims(k, PaidNetOfTds) ==>
                  exists e :: EventRow(e) in k.rows && e.TdsEvidence? && CitedId(k, e.evidenceId)
                              && AmountTerm(TdsWithheld, -(invoice - credit.amountPaise), e.evidenceId, AmountField) in c.amountTerms)
            && (Claims(k, RefundedThenRepaid) ==> forall x :: CitedCapture(k, x) ==> Itemised(c.amountTerms, x))
            && |c.amountTerms| == if Claims(k, PaidOutOfBand) then 4 else if Claims(k, PaidNetOfTds) then 5
                                  else 4 + 3 * |ClaimedCaptures(k)|
  {
    hide Accepts, InvoiceOf, ClaimedCaptures, CitedCredit, CitedCapture, ByPayment, ExpectedTerms, Itemised, GatewayTerms,
         PaidTerms, CitedId;
    var tds: FinanceEvent;
    invoice, credit, tds := ScoredEquation(k);
    ListedTerms(k);
    ScoredParts(k, invoice, credit, tds);
    ByPaymentKeeps(ClaimedCaptures(k));
    GatewayTermsListed(ByPayment(ClaimedCaptures(k)));
    if Claims(k, RefundedThenRepaid) {
      RepaidItemised(k);
    }
  }

  lemma RepaidItemised(k: Check)
    requires Accepts(k) && forall t :: t in GatewayTerms(ByPayment(ClaimedCaptures(k))) ==> t in k.cert.claim.amountTerms
    ensures forall x :: CitedCapture(k, x) ==> Itemised(k.cert.claim.amountTerms, x)
  {
    hide Accepts, ClaimedCaptures, CitedCapture, ByPayment, Itemised, GatewayTerms;
    AcceptedCitations(k);
    var caps := ClaimedCaptures(k);
    ByPaymentKeeps(caps);
    GatewayTermsListed(ByPayment(caps));
    forall x | CitedCapture(k, x)
      ensures Itemised(k.cert.claim.amountTerms, x)
    {
      assert x in ByPayment(caps);
      ItemisedIn(GatewayTerms(ByPayment(caps)), k.cert.claim.amountTerms, x);
    }
  }

  lemma ScoredEquation(k: Check) returns (invoice: int, credit: BankTxn, tds: FinanceEvent)
    requires Accepts(k) && ClaimsScoredVerdict(k)
    ensures InvoiceOf(k) == Some(invoice) && CitedCredit(k, credit) && credit.amountPaise == k.cert.claim.moneyReceivedPaise
    ensures ExpectedTerms(k) == PaidTerms(k, invoice, credit, tds)
    ensures Claims(k, PaidNetOfTds) ==> EventRow(tds) in k.rows && tds.TdsEvidence? && CitedId(k, tds.evidenceId)
  {
    hide Accepts, InvoiceOf, ClaimedCaptures, ClaimedCredits, ClaimedRows, CitedCredit, CitedCapture, ExpectedTerms, Sum, TheRecon,
         OrderCaptures, FullyRefunded, TdsMatches, PaidTerms, CitedId;
    AcceptedScoredRule(k);
    credit := AcceptedScoredFacts(k);
    invoice := InvoiceOf(k).value;
    CreditIsCited(k, credit);
    tds := ScoredSchema(k, invoice, credit);
    if Claims(k, PaidNetOfTds) {
      TaxIsCited(k, tds);
    }
  }

  lemma CreditIsCited(k: Check, credit: BankTxn)
    requires Accepts(k) && ClaimedCredits(k) == [credit]
    ensures CitedCredit(k, credit)
  {
    hide Accepts, ClaimedCredits, ClaimedCaptures, ClaimedRows, CitedCredit, CitedCapture, OrderCaptures, OwnRow;
    AcceptedCitations(k);
    assert credit in [credit];
  }

  lemma TaxIsCited(k: Check, tds: FinanceEvent)
    requires Accepts(k) && EventRow(tds) in ClaimedRows(k) && tds.TdsEvidence?
    ensures EventRow(tds) in k.rows && CitedId(k, tds.evidenceId)
  {
    hide Accepts, ClaimedRows, CitedId, RowId;
    RowIsCited(k, EventRow(tds));
    TaxRowId(tds);
  }

  lemma RowIsCited(k: Check, r: Row)
    requires Accepts(k)
    ensures r in ClaimedRows(k) <==> r in k.rows && CitedId(k, RowId(r))
  {
    hide Accepts, ClaimedRows, CitedId, RowId;
    AcceptedRows(k);
  }

  lemma TaxRowId(e: FinanceEvent)
    requires e.TdsEvidence?
    ensures RowId(EventRow(e)) == e.evidenceId
  {
  }

  function TaxTerm(k: Check, short: int, tds: FinanceEvent): seq<AmountTerm> {
    if Claims(k, PaidNetOfTds) then [AmountTerm(TdsWithheld, -short, EventId(tds), AmountField)] else []
  }

  function RepaidTerms(k: Check): seq<AmountTerm> {
    if Claims(k, RefundedThenRepaid) then GatewayTerms(ByPayment(ClaimedCaptures(k))) else []
  }

  function PaidTerms(k: Check, invoice: int, credit: BankTxn, tds: FinanceEvent): seq<AmountTerm> {
    var received := credit.amountPaise;
    [AmountTerm(InvoiceTerm, invoice, k.cert.claim.orderId, AmountField), AmountTerm(MoneyReceived, -received, "", NoField)]
    + TaxTerm(k, invoice - received, tds)
    + [AmountTerm(BankCredit, received, credit.txnId, AmountField), AmountTerm(EvidenceReceived, -received, "", NoField)]
    + RepaidTerms(k)
  }

  lemma ScoredParts(k: Check, invoice: int, credit: BankTxn, tds: FinanceEvent)
    ensures var terms, received := PaidTerms(k, invoice, credit, tds), credit.amountPaise;
            && AmountTerm(InvoiceTerm, invoice, k.cert.claim.orderId, AmountField) in terms
            && AmountTerm(MoneyReceived, -received, "", NoField) in terms
            && AmountTerm(BankCredit, received, credit.txnId, AmountField) in terms
            && AmountTerm(EvidenceReceived, -received, "", NoField) in terms
            && (forall t :: t in TaxTerm(k, invoice - received, tds) || t in RepaidTerms(k) ==> t in terms)
            && |terms| == 4 + |TaxTerm(k, invoice - received, tds)| + |RepaidTerms(k)|
  {
    hide TaxTerm, RepaidTerms;
  }

  lemma ScoredSchema(k: Check, invoice: int, credit: BankTxn) returns (tds: FinanceEvent)
    requires ScoredRule(k) && ClaimsScoredVerdict(k) && InvoiceOf(k) == Some(invoice) && ClaimedCredits(k) == [credit]
    requires credit.amountPaise == k.cert.claim.moneyReceivedPaise
    requires Claims(k, PaidNetOfTds) ==> TdsMatches(k, invoice - credit.amountPaise)
    ensures Claims(k, PaidNetOfTds) ==> EventRow(tds) in ClaimedRows(k) && tds.TdsEvidence?
    ensures ExpectedTerms(k) == PaidTerms(k, invoice, credit, tds)
  {
    hide InvoiceOf, ClaimedCaptures, ClaimedCredits, GatewayTerms, ReceiptTerms, ByPayment, ByTxn, ClaimedRows, TheRecon, EventId;
    CreditListed(credit);
    var all := TdsIn(ClaimedRows(k));
    if Claims(k, PaidNetOfTds) {
      tds := all[0];
      assert tds in all;
    } else {
      tds := LedgerEntry("", TdsWithheldEntry, "", 0, CreditDirection, Date(0, 0, 0));
    }
    assert IsScoredPass(TheRecon(k).value);
    assert ExpectedEvidenceTerms(k)
        == ReceiptTerms(ByTxn(ClaimedCredits(k)), credit.amountPaise)
           + (if Claims(k, RefundedThenRepaid) then GatewayTerms(ByPayment(ClaimedCaptures(k))) else []);
  }

  /** The equation of an unpaid order is its invoice against its exposure; undecided and failed claims carry no terms. */
  lemma PlainTermsListed(k: Check)
    requires Accepts(k) && (Claims(k, GenuinelyUnpaid) || Claims(k, FailedNotDebited) || ClaimsUndecided(k))
    ensures InvoiceOf(k).Some?
    ensures var terms := k.cert.claim.amountTerms;
            if Claims(k, GenuinelyUnpaid) then
              multiset(terms) == multiset{AmountTerm(InvoiceTerm, InvoiceOf(k).value, k.cert.claim.orderId, AmountField),
                                          AmountTerm(UnpaidExposure, -InvoiceOf(k).value, "", NoField)}
            else terms == []
  {
    hide Accepts, InvoiceOf, ExpectedTerms;
    AcceptedOrder(k);
    PlainSchema(k);
    TermsAsExpected(k);
    assert |multiset(k.cert.claim.amountTerms)| == |k.cert.claim.amountTerms|;
  }

  lemma TermsAsExpected(k: Check)
    requires Accepts(k)
    ensures multiset(ExpectedTerms(k)) == multiset(k.cert.claim.amountTerms)
  {
    hide Accepts, ExpectedTerms, TdsIn, EnvelopeErrors, SourceErrors, TdsErrors, TermErrors, AmountErrors, RuleErrors, EvidenceErrors, ExpectationErrors;
    AcceptedSections(k);
    NotRaised(multiset(ExpectedTerms(k)) != multiset(k.cert.claim.amountTerms), AmountTermSchemaInvalid);
  }

  lemma PlainSchema(k: Check)
    requires Accepts(k) && InvoiceOf(k).Some?
    requires Claims(k, GenuinelyUnpaid) || Claims(k, FailedNotDebited) || ClaimsUndecided(k)
    ensures ExpectedTerms(k) == if Claims(k, GenuinelyUnpaid) then
                                  [AmountTerm(InvoiceTerm, InvoiceOf(k).value, k.cert.claim.orderId, AmountField),
                                   AmountTerm(UnpaidExposure, -InvoiceOf(k).value, "", NoField)]
                                else []
  {
    hide Accepts, InvoiceOf, ClaimedCaptures, ClaimedCredits, ClaimedRows, TheRecon, TdsIn;
    AcceptedRules(k);
  }

  // ------------------------------------------------------------ settlements

  /** The latest cited gateway row is dated in the window before the credit. */
  ghost predicate DatedWithin(k: Check, credit: BankTxn) {
    && (forall c :: CitedCapture(k, c) ==> ValidDate(c.capturedAt)) && ValidDate(credit.valueDate)
    && ClaimedCaptures(k) != []
    && 0 <= CalendarDelta(LatestCapture(ClaimedCaptures(k)), credit.valueDate) <= 3
  }

  /** What the declared pass asks of the cited rows. */
  ghost predicate PassShown(k: Check, p: Pass, credit: BankTxn) {
    match p
    case Pass1ExactUtr => exists c :: CitedCapture(k, c) && c.utr != "" && c.utr == credit.utr
    case Pass2AmountDate => DatedWithin(k, credit)
    case Pass3SettlementId =>
      exists sid :: k.reader.settlementOf(credit.narration) == Some(sid) && forall c :: CitedCapture(k, c) ==> c.settlementId == sid
    case _ => false
  }

  /** The delay from the order's own latest row, as the verdict claims it. */
  ghost predicate DelayShown(k: Check, credit: BankTxn) {
    var own := RelatedTo(k, ClaimedCaptures(k));
    && own != []
    && (Claims(k, SettledClean) ==> CalendarDelta(LatestCapture(own), credit.valueDate) <= 1)
    && (Claims(k, SettledLate) ==> CalendarDelta(LatestCapture(own), credit.valueDate) > 1)
  }

  /** Beyond the balance: one credit, a row of the order, the evidence of the declared pass, and the claimed delay. */
  lemma SettlementCertificateEvidence(k: Check) returns (p: Pass, credit: BankTxn)
    requires Accepts(k) && ClaimsSettlementVerdict(k)
    ensures Declares(k, p) && CitedCredit(k, credit) && forall t :: CitedCredit(k, t) ==> t == credit
    ensures exists c :: CitedCapture(k, c) && c.orderId == k.cert.claim.orderId
    ensures PassShown(k, p, credit) && DelayShown(k, credit)
  {
    hide Accepts, ClaimedCaptures, ClaimedCredits, TheRecon, MembershipHolds, ReceivedMatches, CitedCapture, CitedCredit,
         Declares, PassEvidenceHolds, PassShown, DelayShown, NoDelay, DelayContradicts, Sum;
    AcceptedSettlementRule(k);
    credit := AcceptedSettlementFacts(k);
    AcceptedCitations(k);
    p := TheRecon(k).value;
    DeclaredPass(k, p);
    assert credit in [credit];
    PassIsShown(k, p, credit);
    DelayIsShown(k, credit);
  }

  lemma PassIsShown(k: Check, p: Pass, credit: BankTxn)
    requires IsSettlementPass(p) && ClaimedCaptures(k) != [] && PassEvidenceHolds(k, p, ClaimedCaptures(k), credit)
    requires forall c :: c in ClaimedCaptures(k) <==> CitedCapture(k, c)
    ensures PassShown(k, p, credit)
  {
    hide ClaimedCaptures, CitedCapture, ValidDate, CalendarDelta, LatestCapture;
    if p.Pass3SettlementId? {
      var named := k.reader.settlementOf(credit.narration);
      forall d | CitedCapture(k, d)
        ensures d.settlementId == named.value
      {
        assert d.settlementId in SettlementIdSet(ClaimedCaptures(k));
      }
    }
  }

  lemma DelayIsShown(k: Check, credit: BankTxn)
    requires MembershipHolds(k, ClaimedCaptures(k))
    requires !NoDelay(k, ClaimedCaptures(k), credit) && !DelayContradicts(k, ClaimedCaptures(k), credit)
    ensures DelayShown(k, credit)
    ensures exists c :: c in ClaimedCaptures(k) && c.orderId == k.cert.claim.orderId
  {
    hide ClaimedCaptures, CompleteGroupIds, NamedGroups, CalendarDelta, LatestCapture;
    var c :| c in ClaimedCaptures(k) && c.orderId == k.cert.claim.orderId;
    assert c in RelatedTo(k, ClaimedCaptures(k));
  }

  // ------------------------------------------------------------ the other verdicts

  /** The check a pass stands for has passed. */
  ghost predicate Cleared(k: Check, p: Pass) {
    match p
    case Pass4Rejected => RejectedErrors(k) == {}
    case GatewayStatus => StatusErrors(k) == {}
    case FinanceEventDispute => DisputeErrors(k) == {}
    case Exhausted => ExhaustedErrors(k) == {}
    case NoPass => NegativeErrors(k, NoPass) == {}
    case NetArithmetic => NegativeErrors(k, NetArithmetic) == {}
    case _ => true
  }

  lemma EvidenceCleared(k: Check, p: Pass)
    requires TheRecon(k) == Some(p) && EvidenceErrors(k) == {}
    ensures Cleared(k, p)
  {
    hide RejectedErrors, StatusErrors, DisputeErrors, ExhaustedErrors, NegativeErrors, SettlementErrors, ScoredErrors, TheRecon,
         ClaimsUndecided;
  }

  lemma OtherEvidence(k: Check) returns (p: Pass)
    requires Accepts(k)
    ensures TheRecon(k) == Some(p) && Declares(k, p) && k.cert.claim.verdict.KnownVerdict?
    ensures Justifies(p, k.cert.claim.verdict.verdict) && Cleared(k, p)
  {
    hide Accepts, Cleared, Justifies, TheRecon, Declares, EvidenceErrors;
    AcceptedRules(k);
    AcceptedSections(k);
    p := TheRecon(k).value;
    DeclaredPass(k, p);
    EvidenceCleared(k, p);
  }

  /** No money is claimed to have moved, and none to be due. */
  ghost predicate ClaimsNothing(k: Check) { k.cert.claim.moneyReceivedPaise == 0 && k.cert.claim.deltaDuePaise == 0 }

  lemma AcceptedAmounts(k: Check)
    requires Accepts(k)
    ensures Claims(k, FailedNotDebited) || Claims(k, GenuinelyUnpaid) || ClaimsUndecided(k) ==> ClaimsNothing(k)
    ensures Claims(k, ChargebackOpen) ==> k.cert.claim.deltaDuePaise == 0 && InvoiceOf(k) == Some(k.cert.claim.moneyReceivedPaise)
  {
    hide Accepts, InvoiceOf;
    AcceptedRules(k);
    AcceptedOrder(k);
  }

  /** Failed and never debited: a cited gateway row of this very order failed. */
  lemma FailedCertificateMeans(k: Check)
    requires Accepts(k) && Claims(k, FailedNotDebited)
    ensures Declares(k, GatewayStatus) && ClaimsNothing(k)
    ensures exists c :: CitedCapture(k, c) && c.orderId == k.cert.claim.orderId && c.status.Failed?
  {
    hide Accepts, ClaimedCaptures, CitedCapture, Declares, ClaimsNothing, TheRecon;
    var p := OtherEvidence(k);
    AcceptedAmounts(k);
    AcceptedCitations(k);
    var related := RelatedTo(k, ClaimedCaptures(k));
    NotRaised(!exists c :: c in related && (if Claims(k, ChargebackOpen) then IsChargeback(c) else IsFailed(c)),
              EvidenceStatusMismatch);
  }

  /** Frozen: a cited chargeback row of this very order, or exactly one cited dispute, open, of this order and within its invoice. */
  lemma FrozenCertificateMeans(k: Check)
    requires Accepts(k) && Claims(k, ChargebackOpen)
    ensures k.cert.claim.deltaDuePaise == 0 && InvoiceOf(k) == Some(k.cert.claim.moneyReceivedPaise)
    ensures Declares(k, GatewayStatus) || Declares(k, FinanceEventDispute)
    ensures Declares(k, GatewayStatus) ==>
              exists c :: CitedCapture(k, c) && c.orderId == k.cert.claim.orderId && c.status.ChargebackStatus?
    ensures Declares(k, FinanceEventDispute) ==>
              exists e :: CitedDispute(k, e) && e.orderId == k.cert.claim.orderId && e.status.Open?
                          && 0 < e.amountPaise <= k.cert.claim.moneyReceivedPaise && forall x :: CitedDispute(k, x) ==> x == e
  {
    hide Accepts, ClaimedCaptures, ClaimedRows, CitedCapture, CitedDispute, InvoiceOf, TheRecon;
    var p := OtherEvidence(k);
    AcceptedAmounts(k);
    AcceptedCitations(k);
    if p.GatewayStatus? {
      var related := RelatedTo(k, ClaimedCaptures(k));
      NotRaised(!exists c :: c in related && (if Claims(k, ChargebackOpen) then IsChargeback(c) else IsFailed(c)),
                EvidenceStatusMismatch);
    } else {
      var disputes := DisputesIn(ClaimedRows(k));
      assert |disputes| == 1;
      assert disputes == [disputes[0]];
      NotRaised(!(disputes[0].orderId == k.cert.claim.orderId && disputes[0].status.Open? && disputes[0].amountPaise > 0
                  && InvoiceOf(k).Some? && disputes[0].amountPaise <= InvoiceOf(k).value), EvidenceStatusMismatch);
      assert CitedDispute(k, disputes[0]);
    }
  }

  lemma ExhaustedMeans(k: Check, order: Row)
    requires Accepts(k) && ExhaustedErrors(k) == {}
    requires k.cert.claim.orderId in Indexed(k.rows) && Indexed(k.rows)[k.cert.claim.orderId] == order
    ensures forall c :: !OwnRow(k, c)
    ensures forall t :: BankRow(t) in k.rows && t.isCredit && PossibleAmount(AmountOf(order), t.amountPaise) ==>
              !k.reader.plausibleOwner(order, t)
  {
    hide Accepts, OrderCaptures, OwnRow, Indexed, Uniques, Contradicts;
    AcceptedCitations(k);
    AcceptedRows(k);
    NotRaised(OrderCaptures(k) != [] || exists r :: r in Uniques(k.rows) && Contradicts(k, r), NegativeEvidenceContradicted);
    forall t | BankRow(t) in k.rows && t.isCredit && PossibleAmount(AmountOf(order), t.amountPaise)
      ensures !k.reader.plausibleOwner(order, t)
    {
      assert !Contradicts(k, BankRow(t));
      if k.reader.plausibleOwner(order, t) {
        ContradictionMeans(k, order, t);
      }
    }
  }

  lemma ContradictionMeans(k: Check, order: Row, t: BankTxn)
    requires k.cert.claim.orderId in Indexed(k.rows) && Indexed(k.rows)[k.cert.claim.orderId] == order
    requires t.isCredit && PossibleAmount(AmountOf(order), t.amountPaise) && k.reader.plausibleOwner(order, t)
    ensures Contradicts(k, BankRow(t))
  {
    hide Indexed;
  }

  lemma RejectedMeans(k: Check, invoice: int)
    requires RejectedErrors(k) == {} && InvoiceOf(k) == Some(invoice)
    ensures exists t :: t in ClaimedCredits(k)
    ensures forall t :: t in ClaimedCredits(k) ==> PossibleAmount(invoice, t.amountPaise)
    ensures k.cert.claim.automationPath == KnownPath(ProbabilisticPath) && !k.cert.claim.riskAuthorized
  {
    hide ClaimedCredits, InvoiceOf, PossibleAmounts;
    var c, credits := k.cert.claim, ClaimedCredits(k);
    NotRaised(c.automationPath != KnownPath(ProbabilisticPath) || c.riskAuthorized, RiskProvenanceInvalid);
    NotRaised(credits == [], EvidenceShapeMismatch);
    NotRaised(credits != [] && (InvoiceOf(k).None?
                                || exists t :: t in credits && t.amountPaise !in PossibleAmounts(InvoiceOf(k).value)),
              EvidenceAmountMismatch);
    assert credits[0] in credits;
    PossibleExactly(invoice);
  }

  lemma PossibleExactly(invoice: int)
    ensures forall x :: x in PossibleAmounts(invoice) <==> PossibleAmount(invoice, x)
  {
  }

  /**
   * Unpaid: nothing was received. After an exhausted search the order has no gateway row and no credit in the whole feed
   * could be its payment; after rejected candidates there is one at least, each of a possible amount, scored and unauthorised.
   */
  lemma UnpaidCertificateMeans(k: Check) returns (order: Row)
    requires Accepts(k) && Claims(k, GenuinelyUnpaid)
    ensures order in k.rows && RowId(order) == k.cert.claim.orderId && ClaimsNothing(k)
    ensures Declares(k, Exhausted) || Declares(k, Pass4Rejected)
    ensures Declares(k, Exhausted) ==>
              && (forall c :: !OwnRow(k, c))
              && forall t :: BankRow(t) in k.rows && t.isCredit && PossibleAmount(AmountOf(order), t.amountPaise) ==>
                   !k.reader.plausibleOwner(order, t)
    ensures Declares(k, Pass4Rejected) ==>
              && (exists t :: CitedCredit(k, t))
              && (forall t :: CitedCredit(k, t) ==> PossibleAmount(AmountOf(order), t.amountPaise))
              && k.cert.claim.automationPath == KnownPath(ProbabilisticPath) && !k.cert.claim.riskAuthorized
  {
    hide Accepts, ClaimedCredits, CitedCredit, OwnRow, InvoiceOf, TheRecon, ClaimsNothing, Indexed, RowId, PossibleAmount,
         ExhaustedErrors, RejectedErrors;
    var p := OtherEvidence(k);
    AcceptedAmounts(k);
    order := AcceptedInvoice(k);
    if p.Exhausted? {
      ExhaustedMeans(k, order);
    } else {
      AcceptedCitations(k);
      RejectedMeans(k, AmountOf(order));
    }
  }

  lemma NoPassMeans(k: Check)
    requires Accepts(k) && NegativeErrors(k, NoPass) == {}
    ensures exists c :: OwnRow(k, c) && c.status.Captured?
  {
    hide Accepts, OrderCaptures, OwnRow;
    AcceptedCitations(k);
    NotRaised(!exists c :: c in OrderCaptures(k) && IsCaptured(c), NegativeEvidenceContradicted);
  }

  lemma NetArithmeticMeans(k: Check)
    requires Accepts(k) && NegativeErrors(k, NetArithmetic) == {}
    ensures exists c :: OwnRow(k, c) && c.status.RefundStatus?
    ensures Sum(OrderCaptures(k), NetOf) == 0 && forall c :: c in OrderCaptures(k) <==> OwnRow(k, c)
  {
    hide Accepts, OrderCaptures, OwnRow, Sum;
    AcceptedCitations(k);
    var caps := OrderCaptures(k);
    NotRaised(!(exists c :: c in caps && IsRefund(c)) || Sum(caps, NetOf) != 0, NegativeEvidenceContradicted);
  }

  /** Undecided: no money is claimed; without a pass the order has a captured row, by arithmetic its rows net to nothing. */
  lemma UndecidedCertificateMeans(k: Check)
    requires Accepts(k) && (Claims(k, Ambiguous) || Claims(k, PossibleTdsWithholding))
    ensures ClaimsNothing(k)
    ensures Declares(k, NoPass) || Declares(k, NetArithmetic) || Declares(k, Pass4Fuzzy)
    ensures Claims(k, PossibleTdsWithholding) ==> Declares(k, Pass4Fuzzy)
    ensures Declares(k, NoPass) ==> exists c :: OwnRow(k, c) && c.status.Captured?
    ensures Declares(k, NetArithmetic) ==>
              && (exists c :: OwnRow(k, c) && c.status.RefundStatus?)
              && Sum(OrderCaptures(k), NetOf) == 0 && forall c :: c in OrderCaptures(k) <==> OwnRow(k, c)
  {
    hide Accepts, OrderCaptures, OwnRow, TheRecon, ClaimsNothing, Sum, NegativeErrors;
    var p := OtherEvidence(k);
    AcceptedAmounts(k);
    if p.NoPass? {
      NoPassMeans(k);
    } else if p.NetArithmetic? {
      NetArithmeticMeans(k);
    }
  }

  // ------------------------------------------------------------ tax evidence and rules

  predicate LowerHex(s: string) { forall c :: c in s ==> '0' <= c <= '9' || 'a' <= c <= 'f' }

  /** A positive amount under a dated rule that was in force, with digests of both parties and a certificate reference. */
  ghost predicate ProperTaxEvidence(e: FinanceEvent)
    requires e.TdsEvidence?
  {
    && e.amountPaise > 0
    && |e.payerPanHash| == 64 && LowerHex(e.payerPanHash) && |e.merchantPanHash| == 64 && LowerHex(e.merchantPanHash)
    && e.taxRule.TaxRule? && ValidDate(e.taxRule.effective) && ValidDate(e.occurredAt)
    && DateLe(e.taxRule.effective, e.occurredAt)
    && exists c :: c in e.certificateRef && c != ' ' && c != '\t' && c != '\n' && c != '\r'
  }

  /** Every cited piece of tax evidence is proper. */
  lemma AcceptedTaxEvidence(k: Check, e: FinanceEvent)
    requires Accepts(k) && EventRow(e) in k.rows && e.TdsEvidence? && CitedId(k, e.evidenceId)
    ensures ProperTaxEvidence(e)
  {
    hide Accepts, ClaimedRows, SoundTds, ProperTaxEvidence, CitedId, RowId;
    TaxRowId(e);
    RowIsCited(k, EventRow(e));
    AcceptedTds(k, e);
    SoundTdsMeans(e);
  }

  lemma SoundTdsMeans(e: FinanceEvent)
    requires e.TdsEvidence? && SoundTds(e)
    ensures ProperTaxEvidence(e)
  {
    hide ValidDate, DateLe;
    var ref := e.certificateRef;
    var i :| 0 <= i < |ref| && ref[i] != ' ' && ref[i] != '\t' && ref[i] != '\n' && ref[i] != '\r';
    assert ref[i] in ref;
  }

  lemma {:induction false} VerdictRulesListed(ids: seq<RuleId>, v: VerdictName)
    ensures v in VerdictRules(ids) <==> VerdictRule(v) in ids
  {
    if ids != [] {
      VerdictRulesListed(ids[1..], v);
      assert ids == [ids[0]] + ids[1..];
    }
  }

  /** The rule ids of an accepted claim: one known pass, the verdict that is claimed, and nothing else. */
  lemma AcceptedRuleIds(k: Check) returns (p: Pass)
    requires Accepts(k)
    ensures Declares(k, p)
    ensures forall r :: r in k.cert.claim.ruleIds <==> r == ReconRule(KnownPass(p)) || r == VerdictRule(k.cert.claim.verdict)
  {
    hide Accepts, RuleFitsVerdict, InvariantBroken, EnvelopeErrors, SourceErrors, TdsErrors, TermErrors, AmountErrors,
         SchemaErrors, EvidenceErrors, ExpectationErrors;
    AcceptedSections(k);
    p := OtherEvidence(k);
    var ids := k.cert.claim.ruleIds;
    NotRaised(exists r :: r in ids && !RuleAllowed(r), RuleNotAllowed);
    NotRaised(VerdictRules(ids) != [k.cert.claim.verdict], VerdictRuleMismatch);
    forall v
      ensures VerdictRule(v) in ids <==> v == k.cert.claim.verdict
    {
      VerdictRulesListed(ids, v);
    }
  }
}
