/** When the certificates this issuer writes are accepted by this verifier. */
module ProofCompleteness {
  import opened Prelude
  import opened Models
  import opened SourceRows
  import opened Certificates
  import opened Verifier

  /** The check of a certificate just issued for the order, against the rows it was issued over. */
  ghost predicate Fresh(k: Check, o: Order, v: OrderVerdict) {
    && WellKeyed(k.rows) && BATCH_ROOT !in RowIds(k.rows)
    && OrderRow(o) in k.rows
    && k.configHash.Some? && k.calibrationId.Some?
    && Issued(o, v, k.rows, k.configHash.value, k.calibrationId.value, k.dig) == Ok(k.cert)
  }

  lemma IdOfRow(rows: seq<Row>, r: Row)
    requires r in rows
    ensures RowId(r) in RowIds(rows)
  {
    var i :| 0 <= i < |rows| && rows[i] == r;
    assert RowIds(rows)[i] == RowId(r);
  }

  lemma RootIsNoRow(rows: seq<Row>)
    requires BATCH_ROOT !in RowIds(rows)
    ensures BATCH_ROOT !in Indexed(rows)
  {
    if BATCH_ROOT in Indexed(rows) {
      IdOfRow(rows, Indexed(rows)[BATCH_ROOT]);
    }
  }

  lemma FreshClaim(k: Check, o: Order, v: OrderVerdict)
    requires Fresh(k, o, v)
    ensures k.configHash.Some? && k.calibrationId.Some?
    ensures Referenced(o, v, k.rows) <= Indexed(k.rows).Keys
    ensures VerdictTerms(o, v, Filter(k.rows, IdIn(Referenced(o, v, k.rows)))).Ok?
    ensures var cited := Filter(k.rows, IdIn(Referenced(o, v, k.rows)));
            k.cert == Sealed(ClaimFor(o, v, k.rows, Referenced(o, v, k.rows),
                                      VerdictTerms(o, v, cited).value + EvidenceTerms(v, cited),
                                      k.configHash.value, k.calibrationId.value, k.dig), k.dig)
  {
    hide Referenced, VerdictTerms, EvidenceTerms, ClaimFor, WellKeyed, Filter;
  }

  lemma FreshIds(k: Check, o: Order, v: OrderVerdict)
    requires Fresh(k, o, v)
    ensures ClaimedIds(k) == Referenced(o, v, k.rows)
    ensures Uniques(k.rows) == k.rows
    ensures ClaimedRows(k) == Filter(k.rows, IdIn(Referenced(o, v, k.rows)))
    ensures forall r :: r in k.rows ==> RowId(r) in Indexed(k.rows) && Indexed(k.rows)[RowId(r)] == r
  {
    hide Referenced, VerdictTerms, EvidenceTerms, Watermark, Fresh, Indexed, Filter, Uniques, RowIds;
    FreshClaim(k, o, v);
    FreshIsKeyed(k, o, v);
    RootIsNoRow(k.rows);
    DistinctRowsAreIndexed(k.rows);
    assert ClaimedIds(k) == Referenced(o, v, k.rows);
  }

  lemma FreshIsKeyed(k: Check, o: Order, v: OrderVerdict)
    requires Fresh(k, o, v)
    ensures NoDup(RowIds(k.rows)) && BATCH_ROOT !in RowIds(k.rows) && o.orderId != "" && OrderRow(o) in k.rows
  {
    hide Issued;
    IdOfRow(k.rows, OrderRow(o));
  }

  // ------------------------------------------------------------ what holds of every fresh certificate

  lemma FreshSources(k: Check, o: Order, v: OrderVerdict)
    requires Fresh(k, o, v)
    ensures SourceErrors(k) == {} && ExpectationErrors(k) == {}
    ensures InvoiceOf(k) == Some(o.amountPaise)
  {
    hide Referenced, VerdictTerms, EvidenceTerms, Watermark, Fresh, Filter, RowIds, Indexed;
    FreshClaim(k, o, v);
    FreshIds(k, o, v);
    FreshIsKeyed(k, o, v);
    RootIsNoRow(k.rows);
    OrderIsReferenced(o, v, k.rows);
    var ids := Referenced(o, v, k.rows);
    assert Indexed(k.rows)[RowId(OrderRow(o))] == OrderRow(o);
    assert RootMatches(k);
    forall id | id in ClaimedIds(k)
      ensures id in Indexed(k.rows) && !HashDiffers(k.cert.claim.sourceHashes, k.rows, k.dig.row, id)
    {
    }
  }

  lemma OrderIsReferenced(o: Order, v: OrderVerdict, rows: seq<Row>)
    ensures o.orderId in Referenced(o, v, rows)
  {
    hide CitedSettlements, RowsNaming;
  }

  lemma OneVerdictRule(n: VerdictName)
    ensures ReconRules([VerdictRule(n)]) == [] && VerdictRules([VerdictRule(n)]) == [n]
  {
    assert [VerdictRule(n)][1..] == [];
    assert [n] + [] == [n];
  }

  lemma TwoRules(p: PassName, n: VerdictName)
    ensures ReconRules([ReconRule(p), VerdictRule(n)]) == [p] && VerdictRules([ReconRule(p), VerdictRule(n)]) == [n]
  {
    var last := [VerdictRule(n)];
    assert [ReconRule(p), VerdictRule(n)][1..] == last && last[1..] == [];
    OneVerdictRule(n);
    assert [p] + [] == [p];
  }

  lemma FreshRules(k: Check, o: Order, v: OrderVerdict)
    requires Fresh(k, o, v)
    ensures VerdictRules(k.cert.claim.ruleIds) == [k.cert.claim.verdict] && |ReconRules(k.cert.claim.ruleIds)| == 1
    ensures forall r :: r in k.cert.claim.ruleIds ==> RuleAllowed(r)
    ensures TheRecon(k) == Some(v.evidence.passUsed)
    ensures k.cert.claim.verdict == KnownVerdict(v.verdict)
  {
    hide Referenced, VerdictTerms, EvidenceTerms, Watermark, Fresh, Filter;
    FreshClaim(k, o, v);
    TwoRules(KnownPass(v.evidence.passUsed), KnownVerdict(v.verdict));
  }

  lemma FreshAmounts(k: Check, o: Order, v: OrderVerdict)
    requires Fresh(k, o, v)
    ensures k.cert.claim.moneyReceivedPaise == v.moneyReceivedPaise && k.cert.claim.deltaDuePaise == v.deltaDuePaise
    ensures k.cert.claim.orderId == o.orderId
    ensures VerdictTerms(o, v, ClaimedRows(k)).Ok?
    ensures k.cert.claim.amountTerms == VerdictTerms(o, v, ClaimedRows(k)).value + EvidenceTerms(v, ClaimedRows(k))
    ensures k.cert.claim.automationPath == KnownPath(v.evidence.automationPath)
    ensures k.cert.claim.scorePpm == v.evidence.scorePpm
    ensures k.cert.claim.riskCalibrationId == v.evidence.riskCalibrationId
    ensures k.cert.claim.riskAuthorized == v.evidence.riskAuthorized
    ensures k.cert.claim.version == CERTIFICATE_VERSION && k.dig.payload(k.cert.claim) == k.cert.proofHash
  {
    hide Referenced, VerdictTerms, EvidenceTerms, Watermark, Fresh, Filter, ClaimedRows, ClaimedIds;
    FreshClaim(k, o, v);
    FreshIds(k, o, v);
  }

  /** The parts of a claim that the expected terms depend on. */
  ghost predicate ClaimsSame(k: Check, o: Order, v: OrderVerdict) {
    && k.cert.claim.orderId == o.orderId && k.cert.claim.verdict == KnownVerdict(v.verdict)
    && k.cert.claim.moneyReceivedPaise == v.moneyReceivedPaise && k.cert.claim.deltaDuePaise == v.deltaDuePaise
  }

  lemma SameVerdictTerms(k: Check, o: Order, v: OrderVerdict)
    requires ClaimsSame(k, o, v) && VerdictTerms(o, v, ClaimedRows(k)).Ok?
    requires v.verdict.PaidNetOfTds? ==> |TdsIn(ClaimedRows(k))| == 1
    ensures ExpectedVerdictTerms(k, o.amountPaise) == VerdictTerms(o, v, ClaimedRows(k)).value
  {
    hide ClaimedRows, TdsIn;
  }

  lemma SameEvidenceTerms(k: Check, o: Order, v: OrderVerdict)
    requires ClaimsSame(k, o, v) && TheRecon(k) == Some(v.evidence.passUsed)
    ensures ExpectedEvidenceTerms(k) == EvidenceTerms(v, ClaimedRows(k))
  {
    hide ClaimedRows, TheRecon, GatewayTerms, CreditTerms, ReceiptTerms, ByPayment, ByTxn, CapturesIn, CreditsIn;
  }

  /** Writer and verifier call for the same terms: for any verdict the certificate's terms are the expected ones. */
  lemma FreshSchema(k: Check, o: Order, v: OrderVerdict)
    requires Fresh(k, o, v)
    requires v.verdict.PaidNetOfTds? ==> |TdsIn(ClaimedRows(k))| == 1
    ensures ExpectedTerms(k) == k.cert.claim.amountTerms
    ensures SchemaErrors(k) == {}
  {
    hide Fresh, ClaimedRows, InvoiceOf, TheRecon, VerdictTerms, EvidenceTerms, ExpectedVerdictTerms, ExpectedEvidenceTerms;
    FreshSources(k, o, v);
    FreshRules(k, o, v);
    FreshAmounts(k, o, v);
    SameVerdictTerms(k, o, v);
    SameEvidenceTerms(k, o, v);
  }
}
