/** Which fault of a claim each error code of the verifier stands for. */
module ErrorCodes {
  import opened Prelude
  import opened Models
  import opened SourceRows
  import opened Certificates
  import opened Verifier
  import opened ClaimSoundness

  // ------------------------------------------------------------ every section has its own codes

  lemma InFlag(raised: bool, code: ErrorCode, c: ErrorCode)
    ensures c in Flag(raised, code) <==> raised && c == code
  {
  }

  lemma EnvelopeCodes(k: Check, c: ErrorCode)
    ensures c in EnvelopeErrors(k) <==> || (c == UnsupportedVersion && k.cert.claim.version != CERTIFICATE_VERSION)
                                        || (c == ProofHashMismatch && k.dig.payload(k.cert.claim) != k.cert.proofHash)
                                        || (c == RiskProvenanceInvalid && RiskProvenanceBad(k.cert.claim))
  {
    hide RiskProvenanceBad, Flag;
    InFlag(k.cert.claim.version != CERTIFICATE_VERSION, UnsupportedVersion, c);
    InFlag(k.dig.payload(k.cert.claim) != k.cert.proofHash, ProofHashMismatch, c);
    InFlag(RiskProvenanceBad(k.cert.claim), RiskProvenanceInvalid, c);
  }

  ghost predicate Unfound(k: Check) { exists id :: id in ClaimedIds(k) && id !in Indexed(k.rows) }

  ghost predicate Differing(k: Check) {
    exists id :: id in ClaimedIds(k) && HashDiffers(k.cert.claim.sourceHashes, k.rows, k.dig.row, id)
  }

  lemma SourceCodes(k: Check, c: ErrorCode)
    ensures c in SourceErrors(k)
       <==> || (c == DuplicateSourceConsumption && !NoDup(RowIds(k.rows))) || (c == BatchRootMismatch && !RootMatches(k))
            || (c == OrderSourceMissing && k.cert.claim.orderId !in ClaimedIds(k))
            || (c == SourceMissing && Unfound(k)) || (c == SourceHashMismatch && Differing(k))
  {
    hide RowIds, RootMatches, Indexed, HashDiffers, ClaimedIds, NoDup, Flag;
    InFlag(!NoDup(RowIds(k.rows)), DuplicateSourceConsumption, c);
    InFlag(!RootMatches(k), BatchRootMismatch, c);
    InFlag(k.cert.claim.orderId !in ClaimedIds(k), OrderSourceMissing, c);
    InFlag(Unfound(k), SourceMissing, c);
    InFlag(Differing(k), SourceHashMismatch, c);
    HashSplit(k);
  }

  lemma HashSplit(k: Check)
    ensures HashErrors(k.cert.claim.sourceHashes, k.rows, k.dig.row, ClaimedIds(k))
         == Flag(Unfound(k), SourceMissing) + Flag(Differing(k), SourceHashMismatch)
  {
    hide Indexed, HashDiffers, ClaimedIds, Flag;
  }

  lemma AmountCodes(k: Check, c: ErrorCode)
    ensures c in AmountErrors(k)
       <==> || (c == VerdictAmountMismatch && InvoiceOf(k).Some? && VerdictAmountWrong(k, InvoiceOf(k).value))
            || (c == AmountEquationFailed && k.cert.claim.amountTerms != [] && Sum(k.cert.claim.amountTerms, TermAmount) != 0)
  {
    hide VerdictAmountWrong, Sum, InvoiceOf, Flag;
    InFlag(InvoiceOf(k).Some? && VerdictAmountWrong(k, InvoiceOf(k).value), VerdictAmountMismatch, c);
    InFlag(k.cert.claim.amountTerms != [] && Sum(k.cert.claim.amountTerms, TermAmount) != 0, AmountEquationFailed, c);
  }

  lemma ExpectationCodes(k: Check, c: ErrorCode)
    ensures c in ExpectationErrors(k)
       <==> if k.configHash.None? || k.calibrationId.None? then c == IdentityExpectationMissing
            else (c == ConfigHashMismatch && k.cert.claim.configHash != k.configHash.value)
                 || (c == CalibrationIdMismatch && k.cert.claim.calibrationId != k.calibrationId.value)
  {
    hide Flag;
    if k.configHash.Some? && k.calibrationId.Some? {
      InFlag(k.cert.claim.configHash != k.configHash.value, ConfigHashMismatch, c);
      InFlag(k.cert.claim.calibrationId != k.calibrationId.value, CalibrationIdMismatch, c);
    }
  }

  lemma TermCodes(k: Check, c: ErrorCode)
    ensures c in TdsErrors(k) ==> c == TdsEvidenceInvalid
    ensures c in TermErrors(k) ==> c == AmountTermSourceMissing || c == AmountTermSourceMismatch
  {
    hide ClaimedRows, SoundTds, TermHasSource, TermMismatch;
  }

  lemma SchemaCodes(k: Check, c: ErrorCode)
    ensures c in SchemaErrors(k) ==> c == TdsEvidenceMissing || c == AmountTermSchemaInvalid
  {
    hide ExpectedTerms, ClaimedRows, TdsIn, InvoiceOf;
  }

  lemma RuleCodes(k: Check, c: ErrorCode)
    ensures c in RuleErrors(k) ==> c == VerdictInvariantFailed || c == RuleNotAllowed || c == VerdictRuleMismatch
                                   || c == ReconRuleMismatch || c == RuleVerdictMismatch
  {
    hide InvariantBroken, RuleAllowed, VerdictRules, ReconRules, RuleFitsVerdict, Flag;
    var ids := k.cert.claim.ruleIds;
    InFlag(InvariantBroken(k), VerdictInvariantFailed, c);
    InFlag(exists r :: r in ids && !RuleAllowed(r), RuleNotAllowed, c);
    InFlag(VerdictRules(ids) != [k.cert.claim.verdict], VerdictRuleMismatch, c);
    InFlag(|ReconRules(ids)| != 1, ReconRuleMismatch, c);
    InFlag(!RuleFitsVerdict(k), RuleVerdictMismatch, c);
  }

  predicate IsEvidenceCode(c: ErrorCode) {
    || c == EvidenceShapeMismatch || c == SettlementMembershipMismatch || c == SettlementEquationFailed
    || c == EvidenceAmountMismatch || c == RuleEvidenceMismatch || c == VerdictEvidenceMismatch
    || c == ErrorCode.TdsEvidenceMismatch || c == RefundEvidenceMismatch || c == EvidenceStatusMismatch
    || c == NegativeEvidenceContradicted
  }

  lemma SettlementCodes(k: Check, p: Pass, c: ErrorCode)
    ensures c in SettlementErrors(k, p)
       <==> if ClaimedCaptures(k) == [] || |ClaimedCredits(k)| != 1 then c == EvidenceShapeMismatch
            else
              var caps, credit := ClaimedCaptures(k), ClaimedCredits(k)[0];
              || (c == SettlementMembershipMismatch && !MembershipHolds(k, caps))
              || (c == SettlementEquationFailed && Sum(caps, NetOf) != credit.amountPaise)
              || (c == EvidenceAmountMismatch && !ReceivedMatches(k, caps))
              || (c == RuleEvidenceMismatch && !PassEvidenceHolds(k, p, caps, credit))
              || (c == VerdictEvidenceMismatch && DelayContradicts(k, caps, credit))
  {
    hide ClaimedCaptures, ClaimedCredits, MembershipHolds, ReceivedMatches, PassEvidenceHolds, DelayContradicts, Sum, Flag;
    if SettlementShaped(k) {
      var caps, credit := ClaimedCaptures(k), ClaimedCredits(k)[0];
      InFlag(!MembershipHolds(k, caps), SettlementMembershipMismatch, c);
      InFlag(Sum(caps, NetOf) != credit.amountPaise, SettlementEquationFailed, c);
      InFlag(!ReceivedMatches(k, caps), EvidenceAmountMismatch, c);
      InFlag(!PassEvidenceHolds(k, p, caps, credit), RuleEvidenceMismatch, c);
      InFlag(DelayContradicts(k, caps, credit), VerdictEvidenceMismatch, c);
    }
  }

  lemma ScoredCodes(k: Check, c: ErrorCode)
    ensures c in ScoredErrors(k) ==> IsEvidenceCode(c)
  {
    hide ClaimedCredits, TdsMatches, FullyRefunded, InvoiceOf, OrderCaptures, Flag;
    var credits, received := ClaimedCredits(k), k.cert.claim.moneyReceivedPaise;
    InFlag(|credits| != 1, EvidenceShapeMismatch, c);
    InFlag(|credits| == 1 && credits[0].amountPaise != received, EvidenceAmountMismatch, c);
    InFlag(Claims(k, PaidNetOfTds) && InvoiceOf(k).Some? && !TdsMatches(k, InvoiceOf(k).value - received),
           ErrorCode.TdsEvidenceMismatch, c);
    InFlag((Claims(k, PaidOutOfBand) || Claims(k, PaidNetOfTds)) && OrderCaptures(k) != [], VerdictEvidenceMismatch, c);
    InFlag(Claims(k, RefundedThenRepaid) && !FullyRefunded(k), RefundEvidenceMismatch, c);
  }

  lemma RejectedCodes(k: Check, c: ErrorCode)
    ensures c in RejectedErrors(k) ==> c == RiskProvenanceInvalid || IsEvidenceCode(c)
  {
    hide ClaimedCredits, InvoiceOf, PossibleAmounts;
  }

  lemma PlainCodes(k: Check, c: ErrorCode)
    ensures c in StatusErrors(k) ==> c == EvidenceStatusMismatch
    ensures c in DisputeErrors(k) ==> c == EvidenceShapeMismatch || c == EvidenceStatusMismatch
    ensures c in ExhaustedErrors(k) ==> c == NegativeEvidenceContradicted
    ensures c in NegativeErrors(k, NoPass) || c in NegativeErrors(k, NetArithmetic) ==> c == NegativeEvidenceContradicted
  {
    hide ClaimedCaptures, ClaimedRows, InvoiceOf, OrderCaptures, Uniques, Contradicts, Sum;
  }

  lemma EvidenceCodes(k: Check, c: ErrorCode)
    ensures c in EvidenceErrors(k) ==> c == RiskProvenanceInvalid || IsEvidenceCode(c)
  {
    hide SettlementErrors, ScoredErrors, RejectedErrors, StatusErrors, DisputeErrors, ExhaustedErrors, NegativeErrors, TheRecon,
         ClaimsUndecided;
    if TheRecon(k).Some? {
      SettlementCodes(k, TheRecon(k).value, c);
    }
    ScoredCodes(k, c);
    RejectedCodes(k, c);
    PlainCodes(k, c);
  }

  predicate IsSourceCode(c: ErrorCode) {
    c == DuplicateSourceConsumption || c == BatchRootMismatch || c == OrderSourceMissing || c == SourceMissing || c == SourceHashMismatch
  }

  lemma InAll(k: Check, c: ErrorCode)
    ensures c in AllErrors(k)
       <==> || c in EnvelopeErrors(k) || c in SourceErrors(k) || c in TdsErrors(k) || c in TermErrors(k) || c in AmountErrors(k)
            || c in RuleErrors(k) || c in SchemaErrors(k) || c in EvidenceErrors(k) || c in ExpectationErrors(k)
  {
    hide EnvelopeErrors, SourceErrors, TdsErrors, TermErrors, AmountErrors, RuleErrors, SchemaErrors, EvidenceErrors,
         ExpectationErrors;
  }

  /** What each section may report. */
  lemma Homes(k: Check, c: ErrorCode)
    ensures c in EnvelopeErrors(k) ==> c == UnsupportedVersion || c == ProofHashMismatch || c == RiskProvenanceInvalid
    ensures c in SourceErrors(k) ==> IsSourceCode(c)
    ensures c in AmountErrors(k) ==> c == VerdictAmountMismatch || c == AmountEquationFailed
    ensures c in EvidenceErrors(k) ==> c == RiskProvenanceInvalid || IsEvidenceCode(c)
    ensures c in ExpectationErrors(k) ==> c == IdentityExpectationMissing || c == ConfigHashMismatch || c == CalibrationIdMismatch
    ensures c in TdsErrors(k) || c in TermErrors(k) || c in RuleErrors(k) || c in SchemaErrors(k) ==> IsContentCode(c)
  {
    hide EnvelopeErrors, SourceErrors, TdsErrors, TermErrors, AmountErrors, RuleErrors, SchemaErrors, EvidenceErrors,
         ExpectationErrors, IsSourceCode, IsEvidenceCode;
    ClaimHomes(k, c);
    SourceHome(k, c);
    TermCodes(k, c);
    SchemaCodes(k, c);
    RuleCodes(k, c);
    EvidenceCodes(k, c);
  }

  predicate IsContentCode(c: ErrorCode) {
    || c == TdsEvidenceInvalid || c == AmountTermSourceMissing || c == AmountTermSourceMismatch || c == TdsEvidenceMissing
    || c == AmountTermSchemaInvalid || c == VerdictInvariantFailed || c == RuleNotAllowed || c == VerdictRuleMismatch
    || c == ReconRuleMismatch || c == RuleVerdictMismatch
  }

  lemma SourceSection(k: Check, c: ErrorCode)
    requires IsSourceCode(c)
    ensures c in AllErrors(k) <==> c in SourceErrors(k)
  {
    hide AllErrors, EnvelopeErrors, SourceErrors, TdsErrors, TermErrors, AmountErrors, RuleErrors, SchemaErrors, EvidenceErrors,
         ExpectationErrors;
    InAll(k, c);
    Homes(k, c);
  }

  lemma EvidenceSection(k: Check, c: ErrorCode)
    requires IsEvidenceCode(c)
    ensures c in AllErrors(k) <==> c in EvidenceErrors(k)
  {
    hide AllErrors, EnvelopeErrors, SourceErrors, TdsErrors, TermErrors, AmountErrors, RuleErrors, SchemaErrors, EvidenceErrors,
         ExpectationErrors;
    InAll(k, c);
    Homes(k, c);
  }

  lemma EnvelopeSection(k: Check, c: ErrorCode)
    requires c == UnsupportedVersion || c == ProofHashMismatch
    ensures c in AllErrors(k) <==> c in EnvelopeErrors(k)
  {
    hide AllErrors, EnvelopeErrors, SourceErrors, TdsErrors, TermErrors, AmountErrors, RuleErrors, SchemaErrors, EvidenceErrors,
         ExpectationErrors;
    InAll(k, c);
    Homes(k, c);
  }

  lemma ExpectationSection(k: Check, c: ErrorCode)
    requires c == IdentityExpectationMissing || c == ConfigHashMismatch || c == CalibrationIdMismatch
    ensures c in AllErrors(k) <==> c in ExpectationErrors(k)
  {
    hide AllErrors, EnvelopeErrors, SourceErrors, TdsErrors, TermErrors, AmountErrors, RuleErrors, SchemaErrors, EvidenceErrors,
         ExpectationErrors;
    InAll(k, c);
    Homes(k, c);
  }

  lemma EquationSection(k: Check)
    ensures AmountEquationFailed in AllErrors(k) <==> AmountEquationFailed in AmountErrors(k)
  {
    hide AllErrors, EnvelopeErrors, SourceErrors, TdsErrors, TermErrors, AmountErrors, RuleErrors, SchemaErrors, EvidenceErrors,
         ExpectationErrors;
    InAll(k, AmountEquationFailed);
    Homes(k, AmountEquationFailed);
  }

  lemma SourceHome(k: Check, c: ErrorCode)
    ensures c in SourceErrors(k) ==> IsSourceCode(c)
  {
    hide SourceErrors, RowIds, RootMatches, ClaimedIds, Unfound, Differing, NoDup;
    SourceCodes(k, c);
  }

  lemma ClaimHomes(k: Check, c: ErrorCode)
    ensures c in EnvelopeErrors(k) ==> c == UnsupportedVersion || c == ProofHashMismatch || c == RiskProvenanceInvalid
    ensures c in AmountErrors(k) ==> c == VerdictAmountMismatch || c == AmountEquationFailed
    ensures c in ExpectationErrors(k) ==> c == IdentityExpectationMissing || c == ConfigHashMismatch || c == CalibrationIdMismatch
  {
    hide EnvelopeErrors, AmountErrors, ExpectationErrors, VerdictAmountWrong, InvoiceOf, Sum, RiskProvenanceBad;
    EnvelopeCodes(k, c);
    AmountCodes(k, c);
    ExpectationCodes(k, c);
  }

  // ------------------------------------------------------------ what the codes mean

  /** The first row under an id. */
  ghost predicate FirstRow(rows: seq<Row>, id: string, r: Row) {
    exists i :: 0 <= i < |rows| && rows[i] == r && RowId(r) == id && forall j :: 0 <= j < i ==> RowId(rows[j]) != id
  }

  lemma FirstGrows(rows: seq<Row>, last: Row, id: string, r: Row)
    ensures FirstRow(rows, id, r) ==> FirstRow(rows + [last], id, r)
    ensures RowId(last) == id && (forall x :: x in rows ==> RowId(x) != id) ==> FirstRow(rows + [last], id, last)
  {
    hide RowId;
    var more := rows + [last];
    if FirstRow(rows, id, r) {
      var i :| 0 <= i < |rows| && rows[i] == r && RowId(r) == id && forall j :: 0 <= j < i ==> RowId(rows[j]) != id;
      assert more[i] == rows[i] && forall j :: 0 <= j < i ==> more[j] == rows[j];
    }
    if RowId(last) == id && forall x :: x in rows ==> RowId(x) != id {
      assert more[|rows|] == last && forall j :: 0 <= j < |rows| ==> more[j] in rows;
    }
  }

  lemma {:induction false} IndexedIsFirst(rows: seq<Row>, id: string)
    ensures id in Indexed(rows) <==> exists r :: r in rows && RowId(r) == id
    ensures id in Indexed(rows) ==> FirstRow(rows, id, Indexed(rows)[id])
  {
    hide RowId, FirstRow;
    if rows != [] {
      hide Indexed;
      var n := |rows| - 1;
      var rest, last := rows[..n], rows[n];
      IndexedIsFirst(rest, id);
      assert rows == rest + [last];
      IndexingStep(rest, last);
      FirstGrows(rest, last, id, if id in Indexed(rest) then Indexed(rest)[id] else last);
      assert last in rows;
    }
  }

  ghost predicate IdRepeats(rows: seq<Row>) {
    exists i, j :: 0 <= i < j < |rows| && RowId(rows[i]) == RowId(rows[j])
  }

  lemma RepeatsExactly(rows: seq<Row>)
    ensures IdRepeats(rows) <==> !NoDup(RowIds(rows))
  {
    hide RowId;
    var ids := RowIds(rows);
    assert forall i :: 0 <= i < |rows| ==> ids[i] == RowId(rows[i]);
    if !NoDup(ids) {
      var i, j :| 0 <= i < j < |ids| && ids[i] == ids[j];
      assert RowId(rows[i]) == RowId(rows[j]);
    }
  }

  /** Repeated ids, an uncited order, a cited id without a row, and a cited row with another digest, each under its own code. */
  lemma SourceCodesMean(k: Check)
    ensures DuplicateSourceConsumption in AllErrors(k) <==> IdRepeats(k.rows)
    ensures OrderSourceMissing in AllErrors(k) <==> !CitedId(k, k.cert.claim.orderId)
    ensures SourceMissing in AllErrors(k) <==> exists id :: CitedId(k, id) && forall r :: r in k.rows ==> RowId(r) != id
    ensures SourceHashMismatch in AllErrors(k)
       <==> exists id, r :: CitedId(k, id) && FirstRow(k.rows, id, r) && k.dig.row(r) != k.cert.claim.sourceHashes[id]
  {
    hide AllErrors, SourceErrors, RootMatches, RowIds, Indexed, RowId, FirstRow, IdRepeats, Unfound, Differing, NoDup;
    SourceCode(k, DuplicateSourceConsumption);
    SourceCode(k, OrderSourceMissing);
    SourceCode(k, SourceMissing);
    SourceCode(k, SourceHashMismatch);
    RepeatsExactly(k.rows);
    HashCodesMean(k);
  }

  /** The root is missing or is not that of the whole batch. */
  lemma RootCodeMeans(k: Check)
    ensures BatchRootMismatch in AllErrors(k)
       <==> !(BATCH_ROOT in k.cert.claim.sourceHashes
              && k.cert.claim.sourceHashes[BATCH_ROOT] == k.dig.root(RowHashes(k.rows, k.dig)))
  {
    hide AllErrors, RowIds, RowHashes, Unfound, Differing, NoDup;
    SourceCode(k, BatchRootMismatch);
  }

  lemma SourceCode(k: Check, c: ErrorCode)
    requires IsSourceCode(c)
    ensures c in AllErrors(k)
       <==> || (c == DuplicateSourceConsumption && !NoDup(RowIds(k.rows))) || (c == BatchRootMismatch && !RootMatches(k))
            || (c == OrderSourceMissing && k.cert.claim.orderId !in ClaimedIds(k))
            || (c == SourceMissing && Unfound(k)) || (c == SourceHashMismatch && Differing(k))
  {
    hide AllErrors, SourceErrors, RowIds, RootMatches, ClaimedIds, Unfound, Differing, NoDup;
    SourceSection(k, c);
    SourceCodes(k, c);
  }

  lemma FirstIsOne(rows: seq<Row>, id: string, r: Row)
    requires FirstRow(rows, id, r)
    ensures id in Indexed(rows) && Indexed(rows)[id] == r
  {
    hide RowId;
    IndexedIsFirst(rows, id);
    var i :| 0 <= i < |rows| && rows[i] == r && RowId(r) == id && forall j :: 0 <= j < i ==> RowId(rows[j]) != id;
    assert rows[i] in rows;
    var s := Indexed(rows)[id];
    var n :| 0 <= n < |rows| && rows[n] == s && RowId(s) == id && forall j :: 0 <= j < n ==> RowId(rows[j]) != id;
    assert n == i;
  }

  lemma HashCodesMean(k: Check)
    ensures Unfound(k)
       <==> exists id :: CitedId(k, id) && forall r :: r in k.rows ==> RowId(r) != id
    ensures Differing(k)
       <==> exists id, r :: CitedId(k, id) && FirstRow(k.rows, id, r) && k.dig.row(r) != k.cert.claim.sourceHashes[id]
  {
    hide Indexed, RowId, FirstRow;
    forall id
      ensures id in ClaimedIds(k) <==> CitedId(k, id)
      ensures id in Indexed(k.rows) <==> exists r :: r in k.rows && RowId(r) == id
      ensures id in Indexed(k.rows) ==> FirstRow(k.rows, id, Indexed(k.rows)[id])
    {
      IndexedIsFirst(k.rows, id);
    }
    if id, r :| CitedId(k, id) && FirstRow(k.rows, id, r) && k.dig.row(r) != k.cert.claim.sourceHashes[id] {
      FirstIsOne(k.rows, id, r);
    }
  }

  /** Version, proof hash, money equation and expected identities, each under its own code. */
  lemma ClaimCodesMean(k: Check)
    ensures UnsupportedVersion in AllErrors(k) <==> k.cert.claim.version != "2"
    ensures ProofHashMismatch in AllErrors(k) <==> k.dig.payload(k.cert.claim) != k.cert.proofHash
    ensures AmountEquationFailed in AllErrors(k) <==> Sum(k.cert.claim.amountTerms, TermAmount) != 0
    ensures IdentityExpectationMissing in AllErrors(k) <==> k.configHash.None? || k.calibrationId.None?
    ensures k.configHash.Some? && k.calibrationId.Some? ==>
              && (ConfigHashMismatch in AllErrors(k) <==> k.cert.claim.configHash != k.configHash.value)
              && (CalibrationIdMismatch in AllErrors(k) <==> k.cert.claim.calibrationId != k.calibrationId.value)
  {
    hide AllErrors, EnvelopeErrors, AmountErrors, ExpectationErrors, RiskProvenanceBad, VerdictAmountWrong, InvoiceOf, Sum;
    EnvelopeSection(k, UnsupportedVersion);
    EnvelopeSection(k, ProofHashMismatch);
    EnvelopeCodes(k, UnsupportedVersion);
    EnvelopeCodes(k, ProofHashMismatch);
    EquationSection(k);
    AmountCodes(k, AmountEquationFailed);
    NothingToAdd();
    ExpectationSection(k, IdentityExpectationMissing);
    ExpectationSection(k, ConfigHashMismatch);
    ExpectationSection(k, CalibrationIdMismatch);
    ExpectationCodes(k, IdentityExpectationMissing);
    ExpectationCodes(k, ConfigHashMismatch);
    ExpectationCodes(k, CalibrationIdMismatch);
  }

  lemma AmountSection(k: Check)
    ensures VerdictAmountMismatch in AllErrors(k) <==> VerdictAmountMismatch in AmountErrors(k)
  {
    hide AllErrors, EnvelopeErrors, SourceErrors, TdsErrors, TermErrors, AmountErrors, RuleErrors, SchemaErrors, EvidenceErrors,
         ExpectationErrors;
    InAll(k, VerdictAmountMismatch);
    Homes(k, VerdictAmountMismatch);
  }

  /** The claimed amounts disagree with the invoice, in the way each verdict ties them to it. */
  lemma AmountCodeMeans(k: Check, invoice: int)
    requires InvoiceOf(k) == Some(invoice)
    ensures var c := k.cert.claim;
            VerdictAmountMismatch in AllErrors(k)
            <==> match c.verdict
                 case KnownVerdict(GenuinelyUnpaid) =>
                   AmountsByName(c.amountTerms) != map[InvoiceTerm := invoice, UnpaidExposure := -invoice]
                 case KnownVerdict(PaidNetOfTds) =>
                   forall t :: t in c.amountTerms && t.name.TdsWithheld? ==> t.amountPaise + (invoice - c.moneyReceivedPaise) != 0
                 case KnownVerdict(PartiallyPaid) => invoice != c.moneyReceivedPaise + c.deltaDuePaise
                 case KnownVerdict(Ambiguous) => false
                 case KnownVerdict(PossibleTdsWithholding) => false
                 case KnownVerdict(FailedNotDebited) => false
                 case _ => invoice != c.moneyReceivedPaise
  {
    hide AllErrors, AmountErrors, InvoiceOf, Sum, AmountsByName;
    AmountSection(k);
    AmountCodes(k, VerdictAmountMismatch);
  }

  lemma TermSection(k: Check, c: ErrorCode)
    requires c == AmountTermSourceMissing || c == AmountTermSourceMismatch
    ensures c in AllErrors(k) <==> c in TermErrors(k)
  {
    hide AllErrors, EnvelopeErrors, SourceErrors, TdsErrors, TermErrors, AmountErrors, RuleErrors, SchemaErrors, EvidenceErrors,
         ExpectationErrors;
    InAll(k, c);
    Homes(k, c);
    TermCodes(k, c);
    RuleCodes(k, c);
    SchemaCodes(k, c);
  }

  lemma InTermErrors(k: Check, c: ErrorCode)
    ensures c in TermErrors(k)
       <==> || (c == AmountTermSourceMissing && exists t :: t in k.cert.claim.amountTerms && t.sourceRowId != "" && !TermHasSource(k, t))
            || (c == AmountTermSourceMismatch && exists t :: t in k.cert.claim.amountTerms && TermMismatch(k, t))
  {
    hide TermHasSource, TermMismatch, Flag;
    InFlag(exists t :: t in k.cert.claim.amountTerms && t.sourceRowId != "" && !TermHasSource(k, t), AmountTermSourceMissing, c);
    InFlag(exists t :: t in k.cert.claim.amountTerms && TermMismatch(k, t), AmountTermSourceMismatch, c);
  }

  /** The term cites an id that is not claimed, or that no row has. */
  ghost predicate Unsourced(k: Check, t: AmountTerm) {
    t.sourceRowId != "" && (!CitedId(k, t.sourceRowId) || forall r :: r in k.rows ==> RowId(r) != t.sourceRowId)
  }

  /** The term differs from its column, or restates receipt or debt wrongly. */
  ghost predicate Misstated(k: Check, t: AmountTerm) {
    if t.sourceRowId != "" then
      CitedId(k, t.sourceRowId)
      && exists r :: FirstRow(k.rows, t.sourceRowId, r) && forall x :: Column(r, t.sourceField, x) ==> Abs(t.amountPaise) != Abs(x)
    else
      (t.name.DeltaDue? && t.amountPaise != -k.cert.claim.deltaDuePaise)
      || (t.name.MoneyReceived? && t.amountPaise != -k.cert.claim.moneyReceivedPaise)
  }

  lemma ColumnExactly(r: Row, f: Field, x: int)
    ensures Column(r, f, x) <==> IntField(r, f) == Some(x)
  {
  }

  lemma TermExactly(k: Check, t: AmountTerm)
    ensures t.sourceRowId != "" && !TermHasSource(k, t) <==> Unsourced(k, t)
    ensures TermMismatch(k, t) <==> Misstated(k, t)
  {
    hide Indexed, RowId, FirstRow, Column, IntField;
    var id := t.sourceRowId;
    IndexedIsFirst(k.rows, id);
    if id in Indexed(k.rows) {
      var r := Indexed(k.rows)[id];
      forall x
        ensures Column(r, t.sourceField, x) <==> IntField(r, t.sourceField) == Some(x)
      {
        ColumnExactly(r, t.sourceField, x);
      }
      forall s | FirstRow(k.rows, id, s)
        ensures s == r
      {
        FirstIsOne(k.rows, id, s);
      }
    } else {
      forall s
        ensures !FirstRow(k.rows, id, s)
      {
        if FirstRow(k.rows, id, s) {
          FirstIsOne(k.rows, id, s);
        }
      }
    }
  }

  /** A term without a claimed row, and a term that misstates its column, receipt or debt, each under its own code. */
  lemma TermCodesMean(k: Check)
    ensures AmountTermSourceMissing in AllErrors(k) <==> exists t :: t in k.cert.claim.amountTerms && Unsourced(k, t)
    ensures AmountTermSourceMismatch in AllErrors(k) <==> exists t :: t in k.cert.claim.amountTerms && Misstated(k, t)
  {
    hide AllErrors, TermErrors, TermHasSource, TermMismatch, Unsourced, Misstated;
    TermSection(k, AmountTermSourceMissing);
    TermSection(k, AmountTermSourceMismatch);
    InTermErrors(k, AmountTermSourceMissing);
    InTermErrors(k, AmountTermSourceMismatch);
    forall t: AmountTerm
      ensures t.sourceRowId != "" && !TermHasSource(k, t) <==> Unsourced(k, t)
      ensures TermMismatch(k, t) <==> Misstated(k, t)
    {
      TermExactly(k, t);
    }
  }

  /** The five faults of a settlement claim with its evidence in shape, each under its own code. */
  lemma SettlementCodesMean(k: Check, p: Pass, credit: BankTxn)
    requires TheRecon(k) == Some(p) && IsSettlementPass(p)
    requires ClaimedCaptures(k) != [] && ClaimedCredits(k) == [credit]
    ensures EvidenceShapeMismatch !in AllErrors(k)
    ensures SettlementMembershipMismatch in AllErrors(k) <==> !MembershipHolds(k, ClaimedCaptures(k))
    ensures SettlementEquationFailed in AllErrors(k) <==> Sum(ClaimedCaptures(k), NetOf) != credit.amountPaise
    ensures EvidenceAmountMismatch in AllErrors(k) <==> !ReceivedMatches(k, ClaimedCaptures(k))
    ensures RuleEvidenceMismatch in AllErrors(k) <==> !PassEvidenceHolds(k, p, ClaimedCaptures(k), credit)
    ensures VerdictEvidenceMismatch in AllErrors(k) <==> DelayContradicts(k, ClaimedCaptures(k), credit)
  {
    hide AllErrors, EvidenceErrors, SettlementErrors, MembershipHolds, ReceivedMatches, PassEvidenceHolds, DelayContradicts, Sum,
         ClaimedCaptures, ClaimedCredits, TheRecon;
    SettlementCode(k, p, EvidenceShapeMismatch);
    SettlementCode(k, p, SettlementMembershipMismatch);
    SettlementCode(k, p, SettlementEquationFailed);
    SettlementCode(k, p, EvidenceAmountMismatch);
    SettlementCode(k, p, RuleEvidenceMismatch);
    SettlementCode(k, p, VerdictEvidenceMismatch);
    SettlementCodes(k, p, EvidenceShapeMismatch);
    SettlementCodes(k, p, SettlementMembershipMismatch);
    SettlementCodes(k, p, SettlementEquationFailed);
    SettlementCodes(k, p, EvidenceAmountMismatch);
    SettlementCodes(k, p, RuleEvidenceMismatch);
    SettlementCodes(k, p, VerdictEvidenceMismatch);
  }

  lemma SettlementCode(k: Check, p: Pass, c: ErrorCode)
    requires TheRecon(k) == Some(p) && IsSettlementPass(p) && IsEvidenceCode(c)
    ensures c in AllErrors(k) <==> c in SettlementErrors(k, p)
  {
    hide AllErrors, SettlementErrors, TheRecon, IsEvidenceCode;
    EvidenceSection(k, c);
  }
}
