/** The independent verifier: a certificate is an untrusted claim, re-derived from the source rows. */
module Verifier {
  import opened Prelude
  import opened Dates
  import opened Models
  import opened SourceRows
  import opened Certificates

  datatype ErrorCode =
    | UnsupportedVersion | ProofHashMismatch | RiskProvenanceInvalid
    | DuplicateSourceConsumption | BatchRootMismatch | OrderSourceMissing | SourceMissing | SourceHashMismatch
    | TdsEvidenceInvalid | AmountTermSourceMissing | AmountTermSourceMismatch
    | VerdictAmountMismatch | AmountEquationFailed | VerdictInvariantFailed
    | RuleNotAllowed | VerdictRuleMismatch | ReconRuleMismatch | RuleVerdictMismatch
    | TdsEvidenceMissing | AmountTermSchemaInvalid
    | EvidenceShapeMismatch | SettlementMembershipMismatch | SettlementEquationFailed | EvidenceAmountMismatch
    | RuleEvidenceMismatch | VerdictEvidenceMismatch | TdsEvidenceMismatch | RefundEvidenceMismatch
    | EvidenceStatusMismatch | NegativeEvidenceContradicted
    | IdentityExpectationMissing | ConfigHashMismatch | CalibrationIdMismatch
    | IdentitySourceInvalid | IdentityRuleNotAllowed | IdentityTermSchemaInvalid | IdentityAmountMismatch
    | CertificateSchemaInvalid

  /** The text judgements the verifier takes as given: the settlement a narration names, and the owner heuristic. */
  datatype Reader = Reader(settlementOf: string -> Option<string>, plausibleOwner: (Row, BankTxn) -> bool)

  datatype Check = Check(cert: Certificate, rows: seq<Row>, dig: Digests, reader: Reader,
                         configHash: Option<string>, calibrationId: Option<string>)

  datatype VerificationResult = VerificationResult(valid: bool, errorCodes: seq<ErrorCode>)

  function Flag(raised: bool, code: ErrorCode): set<ErrorCode> {
    if raised then {code} else {}
  }

  // ------------------------------------------------------------ what the claim names

  function ClaimedIds(k: Check): set<string> { k.cert.claim.sourceHashes.Keys - {BATCH_ROOT} }

  function ClaimedRows(k: Check): seq<Row> { Filter(Uniques(k.rows), IdIn(ClaimedIds(k))) }

  function ClaimedCaptures(k: Check): seq<Capture> { CapturesIn(ClaimedRows(k)) }

  function ClaimedCredits(k: Check): seq<BankTxn> { CreditsIn(ClaimedRows(k)) }

  /** Every gateway row of the claimed order, cited or not. */
  function OrderCaptures(k: Check): seq<Capture> {
    Filter(CapturesIn(Uniques(k.rows)), OfOrder(k.cert.claim.orderId))
  }

  function InvoiceOf(k: Check): Option<int> {
    var indexed := Indexed(k.rows);
    if k.cert.claim.orderId in indexed then Some(AmountOf(indexed[k.cert.claim.orderId])) else None
  }

  function ReconRules(ids: seq<RuleId>): seq<PassName> {
    if ids == [] then []
    else if ids[0].ReconRule? then [ids[0].pass] + ReconRules(ids[1..])
    else ReconRules(ids[1..])
  }

  function VerdictRules(ids: seq<RuleId>): seq<VerdictName> {
    if ids == [] then []
    else if ids[0].VerdictRule? then [ids[0].verdict] + VerdictRules(ids[1..])
    else VerdictRules(ids[1..])
  }

  /** The one declared pass, when there is exactly one and it is a known pass. */
  function TheRecon(k: Check): Option<Pass> {
    var rules := ReconRules(k.cert.claim.ruleIds);
    if |rules| == 1 && rules[0].KnownPass? then Some(rules[0].pass) else None
  }

  predicate Claims(k: Check, v: Verdict) { k.cert.claim.verdict == KnownVerdict(v) }

  predicate ClaimsUndecided(k: Check) { Claims(k, Ambiguous) || Claims(k, PossibleTdsWithholding) }

  predicate ClaimsNoMoney(k: Check) { ClaimsUndecided(k) || Claims(k, FailedNotDebited) }

  predicate SettlementRule(k: Check) { TheRecon(k).Some? && IsSettlementPass(TheRecon(k).value) }

  predicate ScoredRule(k: Check) { TheRecon(k).Some? && IsScoredPass(TheRecon(k).value) && !ClaimsUndecided(k) }

  // ------------------------------------------------------------ integrity

  predicate RiskProvenanceBad(c: Claim) {
    || c.automationPath.OtherPath?
    || !(0 <= c.scorePpm <= 1_000_000)
    || (c.automationPath == KnownPath(ProbabilisticPath) && c.riskAuthorized && c.riskCalibrationId == "")
    || ((c.automationPath == KnownPath(ExactPath) || c.automationPath == KnownPath(ManualPath))
        && (c.riskCalibrationId != "" || c.scorePpm != 0))
  }

  function EnvelopeErrors(k: Check): set<ErrorCode> {
    Flag(k.cert.claim.version != CERTIFICATE_VERSION, UnsupportedVersion)
    + Flag(k.dig.payload(k.cert.claim) != k.cert.proofHash, ProofHashMismatch)
    + Flag(RiskProvenanceBad(k.cert.claim), RiskProvenanceInvalid)
  }

  predicate RootMatches(k: Check) {
    BATCH_ROOT in k.cert.claim.sourceHashes
    && k.cert.claim.sourceHashes[BATCH_ROOT] == k.dig.root(RowHashes(k.rows, k.dig))
  }

  predicate HashDiffers(claimed: map<string, string>, rows: seq<Row>, digest: Row -> string, id: string) {
    id in claimed && id in Indexed(rows) && digest(Indexed(rows)[id]) != claimed[id]
  }

  /** Claimed ids without a row, and rows whose digest is not the claimed one. */
  ghost function HashErrors(claimed: map<string, string>, rows: seq<Row>, digest: Row -> string, ids: set<string>)
    : set<ErrorCode>
  {
    Flag(exists id :: id in ids && id !in Indexed(rows), SourceMissing)
    + Flag(exists id :: id in ids && HashDiffers(claimed, rows, digest, id), SourceHashMismatch)
  }

  ghost function SourceErrors(k: Check): set<ErrorCode> {
    Flag(!NoDup(RowIds(k.rows)), DuplicateSourceConsumption)
    + Flag(!RootMatches(k), BatchRootMismatch)
    + Flag(k.cert.claim.orderId !in ClaimedIds(k), OrderSourceMissing)
    + HashErrors(k.cert.claim.sourceHashes, k.rows, k.dig.row, ClaimedIds(k))
  }

  // ------------------------------------------------------------ tax evidence

  predicate IsHexDigest(s: string) {
    |s| == 64 && forall i :: 0 <= i < |s| ==> '0' <= s[i] <= '9' || 'a' <= s[i] <= 'f'
  }

  predicate NotBlank(s: string) {
    exists i :: 0 <= i < |s| && s[i] != ' ' && s[i] != '\t' && s[i] != '\n' && s[i] != '\r'
  }

  /** Correctly hashed but malformed tax evidence is still no proof. */
  predicate SoundTds(e: FinanceEvent)
    requires e.TdsEvidence?
  {
    && e.amountPaise > 0
    && IsHexDigest(e.payerPanHash) && IsHexDigest(e.merchantPanHash)
    && e.taxRule.TaxRule? && ValidDate(e.taxRule.effective) && ValidDate(e.occurredAt)
    && DateLe(e.taxRule.effective, e.occurredAt)
    && NotBlank(e.certificateRef)
  }

  ghost function TdsErrors(k: Check): set<ErrorCode> {
    Flag(exists e :: e in TdsIn(ClaimedRows(k)) && !SoundTds(e), TdsEvidenceInvalid)
  }

  // ------------------------------------------------------------ amounts

  predicate TermHasSource(k: Check, t: AmountTerm) {
    t.sourceRowId in Indexed(k.rows) && t.sourceRowId in ClaimedIds(k)
  }

  predicate TermMismatch(k: Check, t: AmountTerm) {
    if t.sourceRowId != "" then
      TermHasSource(k, t)
      && var value := IntField(Indexed(k.rows)[t.sourceRowId], t.sourceField);
         value.None? || Abs(t.amountPaise) != Abs(value.value)
    else
      (t.name.DeltaDue? && t.amountPaise != -k.cert.claim.deltaDuePaise)
      || (t.name.MoneyReceived? && t.amountPaise != -k.cert.claim.moneyReceivedPaise)
  }

  ghost function TermErrors(k: Check): set<ErrorCode> {
    Flag(exists t :: t in k.cert.claim.amountTerms && t.sourceRowId != "" && !TermHasSource(k, t),
         AmountTermSourceMissing)
    + Flag(exists t :: t in k.cert.claim.amountTerms && TermMismatch(k, t), AmountTermSourceMismatch)
  }

  /** `{term.name: term.amount_paise}`: the last amount under every name. */
  function AmountsByName(terms: seq<AmountTerm>): map<TermName, int> {
    if terms == [] then map[]
    else AmountsByName(terms[..|terms| - 1])[terms[|terms| - 1].name := terms[|terms| - 1].amountPaise]
  }

  predicate VerdictAmountWrong(k: Check, invoice: int) {
    var c := k.cert.claim;
    if Claims(k, GenuinelyUnpaid) then
      AmountsByName(c.amountTerms) != map[InvoiceTerm := invoice, UnpaidExposure := -invoice]
    else if Claims(k, PaidNetOfTds) then
      !exists t :: t in c.amountTerms && t.name.TdsWithheld? && t.amountPaise == -(invoice - c.moneyReceivedPaise)
    else if Claims(k, PartiallyPaid) then invoice != c.moneyReceivedPaise + c.deltaDuePaise
    else !ClaimsNoMoney(k) && invoice != c.moneyReceivedPaise
  }

  function AmountErrors(k: Check): set<ErrorCode> {
    Flag(InvoiceOf(k).Some? && VerdictAmountWrong(k, InvoiceOf(k).value), VerdictAmountMismatch)
    + Flag(k.cert.claim.amountTerms != [] && Sum(k.cert.claim.amountTerms, TermAmount) != 0, AmountEquationFailed)
  }

  predicate ClaimsFullPayment(k: Check) {
    || Claims(k, SettledClean) || Claims(k, SettledLate) || Claims(k, PaidOutOfBand)
    || Claims(k, RefundedThenRepaid) || Claims(k, PaidNetOfTds) || Claims(k, ChargebackOpen)
  }

  predicate InvariantBroken(k: Check) {
    var c := k.cert.claim;
    || c.verdict.OtherVerdict?
    || c.moneyReceivedPaise < 0 || c.deltaDuePaise < 0
    || (if Claims(k, PartiallyPaid) then c.moneyReceivedPaise <= 0 || c.deltaDuePaise <= 0
        else if ClaimsFullPayment(k) then c.moneyReceivedPaise <= 0 || c.deltaDuePaise != 0
        else c.moneyReceivedPaise != 0 || c.deltaDuePaise != 0)
  }

  // ------------------------------------------------------------ rules

  predicate RuleAllowed(r: RuleId) {
    (r.ReconRule? && r.pass.KnownPass?) || (r.VerdictRule? && r.verdict.KnownVerdict?)
  }

  /** Which verdicts each pass may justify. */
  predicate Justifies(p: Pass, v: Verdict) {
    match p
    case Pass1ExactUtr => v.SettledClean? || v.SettledLate? || v.PartiallyPaid?
    case Pass2AmountDate => v.SettledClean? || v.SettledLate? || v.PartiallyPaid?
    case Pass3SettlementId => v.SettledClean? || v.SettledLate? || v.PartiallyPaid?
    case Pass4Fuzzy => v.PaidOutOfBand? || v.RefundedThenRepaid? || v.Ambiguous? || v.PossibleTdsWithholding?
    case Pass4FuzzyTdsEvidence => v.PaidNetOfTds?
    case Pass4Rejected => v.GenuinelyUnpaid?
    case GatewayStatus => v.ChargebackOpen? || v.FailedNotDebited?
    case FinanceEventDispute => v.ChargebackOpen?
    case NetArithmetic => v.Ambiguous?
    case Exhausted => v.GenuinelyUnpaid?
    case NoPass => v.Ambiguous?
  }

  predicate RuleFitsVerdict(k: Check) {
    TheRecon(k).Some? && k.cert.claim.verdict.KnownVerdict? && Justifies(TheRecon(k).value, k.cert.claim.verdict.verdict)
  }

  function RuleErrors(k: Check): set<ErrorCode> {
    var ids := k.cert.claim.ruleIds;
    Flag(InvariantBroken(k), VerdictInvariantFailed)
    + Flag(exists r :: r in ids && !RuleAllowed(r), RuleNotAllowed)
    + Flag(VerdictRules(ids) != [k.cert.claim.verdict], VerdictRuleMismatch)
    + Flag(|ReconRules(ids)| != 1, ReconRuleMismatch)
    + Flag(!RuleFitsVerdict(k), RuleVerdictMismatch)
  }

  // ------------------------------------------------------------ the expected terms

  function ExpectedVerdictTerms(k: Check, invoice: int): seq<AmountTerm> {
    var c := k.cert.claim;
    var bill := AmountTerm(InvoiceTerm, invoice, c.orderId, AmountField);
    if Claims(k, GenuinelyUnpaid) then [bill, AmountTerm(UnpaidExposure, -invoice, "", NoField)]
    else if ClaimsNoMoney(k) then []
    else
      var tds := TdsIn(ClaimedRows(k));
      [bill, AmountTerm(MoneyReceived, -c.moneyReceivedPaise, "", NoField)]
      + (if Claims(k, PartiallyPaid) then [AmountTerm(DeltaDue, -c.deltaDuePaise, "", NoField)]
         else if Claims(k, PaidNetOfTds) && |tds| == 1 then
           [AmountTerm(TdsWithheld, -(invoice - c.moneyReceivedPaise), EventId(tds[0]), AmountField)]
         else [])
  }

  function ExpectedEvidenceTerms(k: Check): seq<AmountTerm> {
    if SettlementRule(k) then
      GatewayTerms(ByPayment(ClaimedCaptures(k))) + CreditTerms(ByTxn(ClaimedCredits(k)))
    else if ScoredRule(k) then
      ReceiptTerms(ByTxn(ClaimedCredits(k)), k.cert.claim.moneyReceivedPaise)
      + (if Claims(k, RefundedThenRepaid) then GatewayTerms(ByPayment(ClaimedCaptures(k))) else [])
    else []
  }

  function ExpectedTerms(k: Check): seq<AmountTerm> {
    (if InvoiceOf(k).Some? then ExpectedVerdictTerms(k, InvoiceOf(k).value) else []) + ExpectedEvidenceTerms(k)
  }

  function SchemaErrors(k: Check): set<ErrorCode> {
    Flag(InvoiceOf(k).Some? && Claims(k, PaidNetOfTds) && |TdsIn(ClaimedRows(k))| != 1, TdsEvidenceMissing)
    + Flag(multiset(ExpectedTerms(k)) != multiset(k.cert.claim.amountTerms), AmountTermSchemaInvalid)
  }

  // ------------------------------------------------------------ settlement evidence

  function NamedGroups(caps: seq<Capture>): set<string> {
    set c | c in caps && c.settlementId != "" :: c.settlementId
  }

  function PaymentIdSet(caps: seq<Capture>): set<string> { set c | c in caps :: c.paymentId }

  /** The payment ids of every row, cited or not, whose settlement reads as one of these. */
  function CompleteGroupIds(rows: seq<Row>, sids: set<string>): set<string> {
    set r | r in Uniques(rows) && PaymentField(r).Some? && SettlementText(r) in sids :: PaymentField(r).value
  }

  predicate MembershipHolds(k: Check, caps: seq<Capture>) {
    && |NamedGroups(caps)| == 1
    && (exists c :: c in caps && c.orderId == k.cert.claim.orderId)
    && PaymentIdSet(caps) == CompleteGroupIds(k.rows, NamedGroups(caps))
  }

  function RelatedTo(k: Check, caps: seq<Capture>): seq<Capture> { Filter(caps, OfOrder(k.cert.claim.orderId)) }

  predicate ReceivedMatches(k: Check, caps: seq<Capture>) {
    var refunded := RefundTotal(Filter(RelatedTo(k, caps), IsRefund));
    InvoiceOf(k).Some? && InvoiceOf(k).value - refunded == k.cert.claim.moneyReceivedPaise
  }

  function SettlementIdSet(caps: seq<Capture>): set<string> { set c | c in caps :: c.settlementId }

  predicate PassEvidenceHolds(k: Check, pass: Pass, caps: seq<Capture>, credit: BankTxn)
    requires caps != []
  {
    match pass
    case Pass1ExactUtr => exists c :: c in caps && c.utr != "" && c.utr == credit.utr
    case Pass2AmountDate =>
      && (forall c :: c in caps ==> ValidDate(c.capturedAt)) && ValidDate(credit.valueDate)
      && 0 <= CalendarDelta(LatestCapture(caps), credit.valueDate) <= 3
    case Pass3SettlementId =>
      var named := k.reader.settlementOf(credit.narration);
      named.Some? && SettlementIdSet(caps) == {named.value}
    case _ => true
  }

  predicate ClaimsSettled(k: Check) { Claims(k, SettledClean) || Claims(k, SettledLate) }

  /** No date to measure the delay from: the only place where typed rows make the source raise. */
  predicate NoDelay(k: Check, caps: seq<Capture>, credit: BankTxn) {
    var related := RelatedTo(k, caps);
    ClaimsSettled(k) && (related == [] || !ValidDate(LatestCapture(related)) || !ValidDate(credit.valueDate))
  }

  predicate DelayContradicts(k: Check, caps: seq<Capture>, credit: BankTxn) {
    var related := RelatedTo(k, caps);
    related != []
    && var delay := CalendarDelta(LatestCapture(related), credit.valueDate);
       (Claims(k, SettledClean) && delay > 1) || (Claims(k, SettledLate) && delay <= 1)
  }

  predicate SettlementShaped(k: Check) { ClaimedCaptures(k) != [] && |ClaimedCredits(k)| == 1 }

  function SettlementErrors(k: Check, pass: Pass): set<ErrorCode> {
    if !SettlementShaped(k) then {EvidenceShapeMismatch}
    else
      var caps, credit := ClaimedCaptures(k), ClaimedCredits(k)[0];
      Flag(!MembershipHolds(k, caps), SettlementMembershipMismatch)
      + Flag(Sum(caps, NetOf) != credit.amountPaise, SettlementEquationFailed)
      + Flag(!ReceivedMatches(k, caps), EvidenceAmountMismatch)
      + Flag(!PassEvidenceHolds(k, pass, caps, credit), RuleEvidenceMismatch)
      + Flag(DelayContradicts(k, caps, credit), VerdictEvidenceMismatch)
  }

  predicate Raises(k: Check) {
    SettlementRule(k) && SettlementShaped(k) && NoDelay(k, ClaimedCaptures(k), ClaimedCredits(k)[0])
  }

  // ------------------------------------------------------------ the other kinds of evidence

  predicate TdsMatches(k: Check, withheld: int) {
    var tds := TdsIn(ClaimedRows(k));
    |tds| == 1 && tds[0].orderId == k.cert.claim.orderId && tds[0].amountPaise == withheld
  }

  predicate FullyRefunded(k: Check) {
    && PaymentIdSet(ClaimedCaptures(k)) == PaymentIdSet(OrderCaptures(k))
    && (exists c :: c in OrderCaptures(k) && IsRefund(c))
    && Sum(OrderCaptures(k), NetOf) == 0
  }

  function ScoredErrors(k: Check): set<ErrorCode> {
    var credits, received := ClaimedCredits(k), k.cert.claim.moneyReceivedPaise;
    Flag(|credits| != 1, EvidenceShapeMismatch)
    + Flag(|credits| == 1 && credits[0].amountPaise != received, EvidenceAmountMismatch)
    + Flag(Claims(k, PaidNetOfTds) && InvoiceOf(k).Some? && !TdsMatches(k, InvoiceOf(k).value - received),
           TdsEvidenceMismatch)
    + Flag((Claims(k, PaidOutOfBand) || Claims(k, PaidNetOfTds)) && OrderCaptures(k) != [], VerdictEvidenceMismatch)
    + Flag(Claims(k, RefundedThenRepaid) && !FullyRefunded(k), RefundEvidenceMismatch)
  }

  /** The invoice and its three common TDS-shaped nets. */
  function PossibleAmounts(invoice: int): set<int> {
    {invoice, invoice - invoice * 100 / 10_000, invoice - invoice * 200 / 10_000, invoice - invoice * 1_000 / 10_000}
  }

  function RejectedErrors(k: Check): set<ErrorCode> {
    var c, credits := k.cert.claim, ClaimedCredits(k);
    Flag(c.automationPath != KnownPath(ProbabilisticPath) || c.riskAuthorized, RiskProvenanceInvalid)
    + Flag(credits == [], EvidenceShapeMismatch)
    + Flag(credits != [] && (InvoiceOf(k).None?
                             || exists t :: t in credits && t.amountPaise !in PossibleAmounts(InvoiceOf(k).value)),
           EvidenceAmountMismatch)
  }

  function StatusErrors(k: Check): set<ErrorCode> {
    var related := RelatedTo(k, ClaimedCaptures(k));
    Flag(!exists c :: c in related && (if Claims(k, ChargebackOpen) then IsChargeback(c) else IsFailed(c)),
         EvidenceStatusMismatch)
  }

  function DisputeErrors(k: Check): set<ErrorCode> {
    var disputes := DisputesIn(ClaimedRows(k));
    if |disputes| != 1 then {EvidenceShapeMismatch}
    else
      Flag(!(disputes[0].orderId == k.cert.claim.orderId && disputes[0].status.Open? && disputes[0].amountPaise > 0
             && InvoiceOf(k).Some? && disputes[0].amountPaise <= InvoiceOf(k).value), EvidenceStatusMismatch)
  }

  /** A credit anywhere in the sources that could be the payment this claim says is missing. */
  predicate Contradicts(k: Check, r: Row) {
    && r.BankRow? && r.txn.isCredit
    && k.cert.claim.orderId in Indexed(k.rows)
    && r.txn.amountPaise in PossibleAmounts(AmountOf(Indexed(k.rows)[k.cert.claim.orderId]))
    && k.reader.plausibleOwner(Indexed(k.rows)[k.cert.claim.orderId], r.txn)
  }

  function ExhaustedErrors(k: Check): set<ErrorCode> {
    Flag(OrderCaptures(k) != [] || exists r :: r in Uniques(k.rows) && Contradicts(k, r), NegativeEvidenceContradicted)
  }

  function NegativeErrors(k: Check, pass: Pass): set<ErrorCode> {
    var caps := OrderCaptures(k);
    if pass.NoPass? then Flag(!exists c :: c in caps && IsCaptured(c), NegativeEvidenceContradicted)
    else Flag(!(exists c :: c in caps && IsRefund(c)) || Sum(caps, NetOf) != 0, NegativeEvidenceContradicted)
  }

  function EvidenceErrors(k: Check): set<ErrorCode> {
    if TheRecon(k).None? then {}
    else if SettlementRule(k) then SettlementErrors(k, TheRecon(k).value)
    else if ScoredRule(k) then ScoredErrors(k)
    else
      match TheRecon(k).value
      case Pass4Rejected => RejectedErrors(k)
      case GatewayStatus => StatusErrors(k)
      case FinanceEventDispute => DisputeErrors(k)
      case Exhausted => ExhaustedErrors(k)
      case NoPass => NegativeErrors(k, NoPass)
      case NetArithmetic => NegativeErrors(k, NetArithmetic)
      case _ => {}
  }

  function ExpectationErrors(k: Check): set<ErrorCode> {
    if k.configHash.None? || k.calibrationId.None? then {IdentityExpectationMissing}
    else
      Flag(k.cert.claim.configHash != k.configHash.value, ConfigHashMismatch)
      + Flag(k.cert.claim.calibrationId != k.calibrationId.value, CalibrationIdMismatch)
  }

  // ------------------------------------------------------------ the verdict on the certificate

  ghost function AllErrors(k: Check): set<ErrorCode> {
    EnvelopeErrors(k) + SourceErrors(k) + TdsErrors(k) + TermErrors(k) + AmountErrors(k)
    + RuleErrors(k) + SchemaErrors(k) + EvidenceErrors(k) + ExpectationErrors(k)
  }

  ghost predicate Accepts(k: Check) {
    !Raises(k) && AllErrors(k) == {}
  }

  // ------------------------------------------------------------ the procedure

  /** `reject`: a code is reported once, in the order it was first raised. */
  method Reject(errors: seq<ErrorCode>, code: ErrorCode) returns (out: seq<ErrorCode>)
    requires NoDup(errors)
    ensures NoDup(out) && Elems(out) == Elems(errors) + {code}
  {
    out := errors;
    if code !in errors {
      out := errors + [code];
      NoDupAppend(errors, code);
    }
  }

  method RejectIf(errors: seq<ErrorCode>, raised: bool, code: ErrorCode) returns (out: seq<ErrorCode>)
    requires NoDup(errors)
    ensures NoDup(out) && Elems(out) == Elems(errors) + Flag(raised, code)
  {
    out := errors;
    if raised {
      out := Reject(errors, code);
    }
  }

  method IndexRows(rows: seq<Row>) returns (indexed: map<string, Row>, listed: seq<Row>, duplicates: set<string>)
    ensures indexed == Indexed(rows) && listed == Uniques(rows)
    ensures duplicates == {} <==> NoDup(RowIds(rows))
  {
    hide Indexed, Uniques, RowIds;
    NothingIndexed();
    assert rows[..0] == [];
    indexed, listed, duplicates := map[], [], {};
    for i := 0 to |rows|
      invariant indexed == Indexed(rows[..i]) && listed == Uniques(rows[..i])
      invariant duplicates == {} <==> NoDup(RowIds(rows[..i]))
    {
      var id := RowId(rows[i]);
      assert rows[..i + 1] == rows[..i] + [rows[i]];
      IndexingStep(rows[..i], rows[i]);
      DuplicateAppears(rows[..i], rows[i]);
      if id in indexed {
        duplicates := duplicates + {id};
      } else {
        indexed := indexed[id := rows[i]];
        listed := listed + [rows[i]];
      }
    }
    assert rows[..|rows|] == rows;
  }

  lemma NothingIndexed()
    ensures Indexed([]) == map[] && Uniques([]) == [] && NoDup(RowIds([]))
  {
  }

  lemma DuplicateAppears(rows: seq<Row>, r: Row)
    ensures NoDup(RowIds(rows + [r])) <==> NoDup(RowIds(rows)) && RowId(r) !in Indexed(rows)
  {
    var ids, more := RowIds(rows), RowIds(rows + [r]);
    assert more == ids + [RowId(r)];
    if RowId(r) in Indexed(rows) {
      var i :| 0 <= i < |rows| && rows[i] == Indexed(rows)[RowId(r)];
      assert more[i] == more[|rows|];
    } else {
      forall i | 0 <= i < |rows|
        ensures ids[i] != RowId(r)
      {
        assert rows[i] in rows;
      }
    }
    if NoDup(more) {
      assert forall i, j :: 0 <= i < j < |ids| ==> more[i] == ids[i] && more[j] == ids[j];
    }
  }

  method CheckSources(k: Check, errors: seq<ErrorCode>) returns (out: seq<ErrorCode>)
    requires NoDup(errors)
    ensures NoDup(out) && Elems(out) == Elems(errors) + SourceErrors(k)
  {
    hide Indexed, Uniques, RowIds;
    var indexed, listed, duplicates := IndexRows(k.rows);
    out := RejectIf(errors, duplicates != {}, DuplicateSourceConsumption);
    out := RejectIf(out, !RootMatches(k), BatchRootMismatch);
    out := RejectIf(out, k.cert.claim.orderId !in ClaimedIds(k), OrderSourceMissing);
    out := CheckHashes(k.cert.claim.sourceHashes, k.rows, k.dig.row, ClaimedIds(k), out);
  }

  method CheckHash(claimed: map<string, string>, rows: seq<Row>, digest: Row -> string, id: string, errors: seq<ErrorCode>)
    returns (out: seq<ErrorCode>)
    requires NoDup(errors)
    ensures NoDup(out)
    ensures Elems(out) == Elems(errors) + Flag(id !in Indexed(rows), SourceMissing)
                          + Flag(HashDiffers(claimed, rows, digest, id), SourceHashMismatch)
  {
    hide Indexed;
    out := errors;
    if id !in Indexed(rows) {
      out := Reject(out, SourceMissing);
    } else if HashDiffers(claimed, rows, digest, id) {
      out := Reject(out, SourceHashMismatch);
    }
  }

  method CheckHashes(claimed: map<string, string>, rows: seq<Row>, digest: Row -> string, ids: set<string>,
                     errors: seq<ErrorCode>) returns (out: seq<ErrorCode>)
    requires NoDup(errors)
    ensures NoDup(out) && Elems(out) == Elems(errors) + HashErrors(claimed, rows, digest, ids)
  {
    hide Indexed, HashDiffers, HashErrors, Flag, Elems;
    out := errors;
    NoHashErrors(claimed, rows, digest);
    var todo := ids;
    ghost var done: set<string> := {};
    while todo != {}
      invariant done + todo == ids
      invariant NoDup(out) && Elems(out) == Elems(errors) + HashErrors(claimed, rows, digest, done)
      decreases |todo|
    {
      var id :| id in todo;
      out := CheckHash(claimed, rows, digest, id, out);
      HashErrorsGrow(claimed, rows, digest, done, id);
      done, todo := done + {id}, todo - {id};
    }
    assert done == ids;
  }

  lemma NoHashErrors(claimed: map<string, string>, rows: seq<Row>, digest: Row -> string)
    ensures HashErrors(claimed, rows, digest, {}) == {}
  {
  }

  lemma HashErrorsGrow(claimed: map<string, string>, rows: seq<Row>, digest: Row -> string, ids: set<string>, id: string)
    ensures HashErrors(claimed, rows, digest, ids + {id})
         == HashErrors(claimed, rows, digest, ids) + Flag(id !in Indexed(rows), SourceMissing)
            + Flag(HashDiffers(claimed, rows, digest, id), SourceHashMismatch)
  {
    hide Indexed, HashDiffers;
  }

  ghost predicate AnyUnsoundTds(es: seq<FinanceEvent>)
    requires forall e :: e in es ==> e.TdsEvidence?
  {
    exists e :: e in es && !SoundTds(e)
  }

  method CheckTds(k: Check, errors: seq<ErrorCode>) returns (out: seq<ErrorCode>)
    requires NoDup(errors)
    ensures NoDup(out) && Elems(out) == Elems(errors) + TdsErrors(k)
  {
    hide SoundTds;
    out := errors;
    var tds := TdsIn(ClaimedRows(k));
    for i := 0 to |tds|
      invariant NoDup(out) && Elems(out) == Elems(errors) + Flag(AnyUnsoundTds(tds[..i]), TdsEvidenceInvalid)
    {
      assert tds[..i + 1] == tds[..i] + [tds[i]];
      if !SoundTds(tds[i]) {
        out := Reject(out, TdsEvidenceInvalid);
      }
      assert AnyUnsoundTds(tds[..i + 1]) <==> AnyUnsoundTds(tds[..i]) || !SoundTds(tds[i]);
    }
    assert tds[..|tds|] == tds;
  }

  ghost predicate AnyUnsourced(k: Check, ts: seq<AmountTerm>) {
    exists t :: t in ts && t.sourceRowId != "" && !TermHasSource(k, t)
  }

  ghost predicate AnyMismatch(k: Check, ts: seq<AmountTerm>) {
    exists t :: t in ts && TermMismatch(k, t)
  }

  lemma TermChecksGrow(k: Check, ts: seq<AmountTerm>, t: AmountTerm)
    ensures AnyUnsourced(k, ts + [t]) <==> AnyUnsourced(k, ts) || (t.sourceRowId != "" && !TermHasSource(k, t))
    ensures AnyMismatch(k, ts + [t]) <==> AnyMismatch(k, ts) || TermMismatch(k, t)
  {
    hide TermHasSource, TermMismatch;
    assert forall x :: x in ts + [t] <==> x in ts || x == t;
  }

  method CheckTerms(k: Check, errors: seq<ErrorCode>) returns (out: seq<ErrorCode>)
    requires NoDup(errors)
    ensures NoDup(out) && Elems(out) == Elems(errors) + TermErrors(k)
  {
    out := errors;
    var terms := k.cert.claim.amountTerms;
    ghost var missing, differing := false, false;
    for i := 0 to |terms|
      invariant missing == AnyUnsourced(k, terms[..i]) && differing == AnyMismatch(k, terms[..i])
      invariant NoDup(out)
      invariant Elems(out) == Elems(errors) + Flag(missing, AmountTermSourceMissing)
                              + Flag(differing, AmountTermSourceMismatch)
    {
      assert terms[..i + 1] == terms[..i] + [terms[i]];
      TermChecksGrow(k, terms[..i], terms[i]);
      out := CheckTerm(k, terms[i], out);
      missing := missing || (terms[i].sourceRowId != "" && !TermHasSource(k, terms[i]));
      differing := differing || TermMismatch(k, terms[i]);
    }
    assert terms[..|terms|] == terms;
  }

  method CheckTerm(k: Check, t: AmountTerm, errors: seq<ErrorCode>) returns (out: seq<ErrorCode>)
    requires NoDup(errors)
    ensures NoDup(out)
    ensures Elems(out) == Elems(errors)
                          + Flag(t.sourceRowId != "" && !TermHasSource(k, t), AmountTermSourceMissing)
                          + Flag(TermMismatch(k, t), AmountTermSourceMismatch)
  {
    hide Indexed;
    out := errors;
    if t.sourceRowId != "" {
      if !TermHasSource(k, t) {
        out := Reject(out, AmountTermSourceMissing);
        return;
      }
      var value := IntField(Indexed(k.rows)[t.sourceRowId], t.sourceField);
      if value.None? || Abs(t.amountPaise) != Abs(value.value) {
        out := Reject(out, AmountTermSourceMismatch);
      }
    } else if t.name.DeltaDue? && t.amountPaise != -k.cert.claim.deltaDuePaise {
      out := Reject(out, AmountTermSourceMismatch);
    } else if t.name.MoneyReceived? && t.amountPaise != -k.cert.claim.moneyReceivedPaise {
      out := Reject(out, AmountTermSourceMismatch);
    }
  }

  method CheckEnvelope(k: Check) returns (out: seq<ErrorCode>)
    ensures NoDup(out) && Elems(out) == EnvelopeErrors(k)
  {
    hide RiskProvenanceBad;
    out := RejectIf([], k.cert.claim.version != CERTIFICATE_VERSION, UnsupportedVersion);
    out := RejectIf(out, k.dig.payload(k.cert.claim) != k.cert.proofHash, ProofHashMismatch);
    out := RejectIf(out, RiskProvenanceBad(k.cert.claim), RiskProvenanceInvalid);
  }

  method CheckAmounts(k: Check, errors: seq<ErrorCode>) returns (out: seq<ErrorCode>)
    requires NoDup(errors)
    ensures NoDup(out) && Elems(out) == Elems(errors) + AmountErrors(k)
  {
    hide VerdictAmountWrong;
    out := RejectIf(errors, InvoiceOf(k).Some? && VerdictAmountWrong(k, InvoiceOf(k).value), VerdictAmountMismatch);
    var total := 0;
    var terms := k.cert.claim.amountTerms;
    for i := 0 to |terms|
      invariant total == Sum(terms[..i], TermAmount)
    {
      assert terms[..i + 1] == terms[..i] + [terms[i]];
      SumSnoc(terms[..i], terms[i], TermAmount);
      total := total + terms[i].amountPaise;
    }
    assert terms[..|terms|] == terms;
    out := RejectIf(out, terms != [] && total != 0, AmountEquationFailed);
  }

  method CheckRules(k: Check, errors: seq<ErrorCode>) returns (out: seq<ErrorCode>)
    requires NoDup(errors)
    ensures NoDup(out) && Elems(out) == Elems(errors) + RuleErrors(k)
  {
    hide InvariantBroken, RuleAllowed, RuleFitsVerdict;
    var ids := k.cert.claim.ruleIds;
    out := RejectIf(errors, InvariantBroken(k), VerdictInvariantFailed);
    out := RejectIf(out, exists r :: r in ids && !RuleAllowed(r), RuleNotAllowed);
    out := RejectIf(out, VerdictRules(ids) != [k.cert.claim.verdict], VerdictRuleMismatch);
    out := RejectIf(out, |ReconRules(ids)| != 1, ReconRuleMismatch);
    out := RejectIf(out, !RuleFitsVerdict(k), RuleVerdictMismatch);
  }

  /** The terms the sources call for, in the verifier's own order. */
  method ExpectTerms(k: Check, errors: seq<ErrorCode>) returns (expected: seq<AmountTerm>, out: seq<ErrorCode>)
    requires NoDup(errors)
    ensures expected == ExpectedTerms(k)
    ensures NoDup(out)
    ensures Elems(out) == Elems(errors) + Flag(InvoiceOf(k).Some? && Claims(k, PaidNetOfTds) && |TdsIn(ClaimedRows(k))| != 1,
                                               TdsEvidenceMissing)
  {
    hide ClaimedRows, ClaimedCaptures, ClaimedCredits, InvoiceOf, TheRecon, SettlementRule, ScoredRule, GatewayTerms,
         CreditTerms, ReceiptTerms, ByPayment, ByTxn;
    var c, invoice := k.cert.claim, InvoiceOf(k);
    expected, out := [], errors;
    if invoice.Some? {
      expected := ExpectedVerdictTerms(k, invoice.value);
      out := RejectIf(out, Claims(k, PaidNetOfTds) && |TdsIn(ClaimedRows(k))| != 1, TdsEvidenceMissing);
    }
    ghost var head := expected;
    if SettlementRule(k) {
      expected := AppendGatewayTerms(expected, ByPayment(ClaimedCaptures(k)));
      expected := AppendCreditTerms(expected, ByTxn(ClaimedCredits(k)));
    } else if ScoredRule(k) {
      expected := AppendReceiptTerms(expected, ByTxn(ClaimedCredits(k)), c.moneyReceivedPaise);
      if Claims(k, RefundedThenRepaid) {
        expected := AppendGatewayTerms(expected, ByPayment(ClaimedCaptures(k)));
      }
    }
    assert expected == head + ExpectedEvidenceTerms(k);
  }

  method CheckSchema(k: Check, errors: seq<ErrorCode>) returns (out: seq<ErrorCode>)
    requires NoDup(errors)
    ensures NoDup(out) && Elems(out) == Elems(errors) + SchemaErrors(k)
  {
    hide ExpectedTerms, InvoiceOf, ClaimedRows;
    var expected: seq<AmountTerm>;
    expected, out := ExpectTerms(k, errors);
    out := RejectIf(out, multiset(expected) != multiset(k.cert.claim.amountTerms), AmountTermSchemaInvalid);
  }

  method CheckSettlement(k: Check, pass: Pass, errors: seq<ErrorCode>) returns (out: seq<ErrorCode>)
    requires NoDup(errors)
    ensures NoDup(out) && Elems(out) == Elems(errors) + SettlementErrors(k, pass)
  {
    hide ClaimedCaptures, ClaimedCredits, MembershipHolds, ReceivedMatches, PassEvidenceHolds, DelayContradicts, Sum;
    if !SettlementShaped(k) {
      out := Reject(errors, EvidenceShapeMismatch);
      return;
    }
    var caps, credit := ClaimedCaptures(k), ClaimedCredits(k)[0];
    out := RejectIf(errors, !MembershipHolds(k, caps), SettlementMembershipMismatch);
    out := RejectIf(out, Sum(caps, NetOf) != credit.amountPaise, SettlementEquationFailed);
    out := RejectIf(out, !ReceivedMatches(k, caps), EvidenceAmountMismatch);
    out := RejectIf(out, !PassEvidenceHolds(k, pass, caps, credit), RuleEvidenceMismatch);
    out := RejectIf(out, DelayContradicts(k, caps, credit), VerdictEvidenceMismatch);
  }

  method CheckScored(k: Check, errors: seq<ErrorCode>) returns (out: seq<ErrorCode>)
    requires NoDup(errors)
    ensures NoDup(out) && Elems(out) == Elems(errors) + ScoredErrors(k)
  {
    hide ClaimedCredits, InvoiceOf, TdsMatches, OrderCaptures, FullyRefunded, Claims;
    var credits, received := ClaimedCredits(k), k.cert.claim.moneyReceivedPaise;
    if |credits| != 1 {
      out := Reject(errors, EvidenceShapeMismatch);
    } else {
      out := RejectIf(errors, credits[0].amountPaise != received, EvidenceAmountMismatch);
    }
    out := RejectIf(out, Claims(k, PaidNetOfTds) && InvoiceOf(k).Some? && !TdsMatches(k, InvoiceOf(k).value - received),
                    TdsEvidenceMismatch);
    out := RejectIf(out, (Claims(k, PaidOutOfBand) || Claims(k, PaidNetOfTds)) && OrderCaptures(k) != [],
                    VerdictEvidenceMismatch);
    out := RejectIf(out, Claims(k, RefundedThenRepaid) && !FullyRefunded(k), RefundEvidenceMismatch);
  }

  method CheckRejected(k: Check, errors: seq<ErrorCode>) returns (out: seq<ErrorCode>)
    requires NoDup(errors)
    ensures NoDup(out) && Elems(out) == Elems(errors) + RejectedErrors(k)
  {
    hide ClaimedCredits, InvoiceOf, PossibleAmounts;
    var c, credits := k.cert.claim, ClaimedCredits(k);
    out := RejectIf(errors, c.automationPath != KnownPath(ProbabilisticPath) || c.riskAuthorized, RiskProvenanceInvalid);
    if credits == [] {
      out := Reject(out, EvidenceShapeMismatch);
    } else if InvoiceOf(k).None? {
      out := Reject(out, EvidenceAmountMismatch);
    } else {
      var possible := PossibleAmounts(InvoiceOf(k).value);
      out := RejectIf(out, exists t :: t in credits && t.amountPaise !in possible, EvidenceAmountMismatch);
    }
  }

  /** The scan for contradicting credits, stopped at the first one. */
  method CheckExhausted(k: Check, errors: seq<ErrorCode>) returns (out: seq<ErrorCode>)
    requires NoDup(errors)
    ensures NoDup(out) && Elems(out) == Elems(errors) + ExhaustedErrors(k)
  {
    hide OrderCaptures, Contradicts, Uniques;
    out := RejectIf(errors, OrderCaptures(k) != [], NegativeEvidenceContradicted);
    var rows := Uniques(k.rows);
    for i := 0 to |rows|
      invariant NoDup(out) && forall r :: r in rows[..i] ==> !Contradicts(k, r)
      invariant Elems(out) == Elems(errors) + Flag(OrderCaptures(k) != [], NegativeEvidenceContradicted)
    {
      assert rows[..i + 1] == rows[..i] + [rows[i]];
      if Contradicts(k, rows[i]) {
        out := Reject(out, NegativeEvidenceContradicted);
        assert rows[i] in rows;
        return;
      }
    }
    assert rows[..|rows|] == rows;
  }

  method CheckEvidence(k: Check, errors: seq<ErrorCode>) returns (out: seq<ErrorCode>)
    requires NoDup(errors)
    ensures NoDup(out) && Elems(out) == Elems(errors) + EvidenceErrors(k)
  {
    hide TheRecon, SettlementErrors, ScoredErrors, RejectedErrors, ExhaustedErrors, ClaimsUndecided, ClaimedRows,
         InvoiceOf, OrderCaptures, ClaimedCaptures, RelatedTo, Claims, Sum;
    out := errors;
    var recon := TheRecon(k);
    if SettlementRule(k) {
      out := CheckSettlement(k, recon.value, out);
    } else if ScoredRule(k) {
      out := CheckScored(k, out);
    } else if recon == Some(Pass4Rejected) {
      out := CheckRejected(k, out);
    } else if recon == Some(GatewayStatus) {
      var related := RelatedTo(k, ClaimedCaptures(k));
      var found := exists c :: c in related && (if Claims(k, ChargebackOpen) then IsChargeback(c) else IsFailed(c));
      out := RejectIf(out, !found, EvidenceStatusMismatch);
    } else if recon == Some(FinanceEventDispute) {
      var disputes := DisputesIn(ClaimedRows(k));
      if |disputes| != 1 {
        out := Reject(out, EvidenceShapeMismatch);
      } else {
        var d := disputes[0];
        out := RejectIf(out, !(d.orderId == k.cert.claim.orderId && d.status.Open? && d.amountPaise > 0
                               && InvoiceOf(k).Some? && d.amountPaise <= InvoiceOf(k).value), EvidenceStatusMismatch);
      }
    } else if recon == Some(Exhausted) {
      out := CheckExhausted(k, out);
    } else if recon == Some(NoPass) {
      out := RejectIf(out, !exists c :: c in OrderCaptures(k) && IsCaptured(c), NegativeEvidenceContradicted);
    } else if recon == Some(NetArithmetic) {
      out := RejectIf(out, !(exists c :: c in OrderCaptures(k) && IsRefund(c)) || Sum(OrderCaptures(k), NetOf) != 0,
                      NegativeEvidenceContradicted);
    }
  }

  method CheckExpectations(k: Check, errors: seq<ErrorCode>) returns (out: seq<ErrorCode>)
    requires NoDup(errors)
    ensures NoDup(out) && Elems(out) == Elems(errors) + ExpectationErrors(k)
  {
    if k.configHash.None? || k.calibrationId.None? {
      out := Reject(errors, IdentityExpectationMissing);
    } else {
      out := RejectIf(errors, k.cert.claim.configHash != k.configHash.value, ConfigHashMismatch);
      out := RejectIf(out, k.cert.claim.calibrationId != k.calibrationId.value, CalibrationIdMismatch);
    }
  }

  /** The total public boundary: valid exactly when nothing is raised and no code is reported. */
  method VerifyCertificate(k: Check) returns (r: VerificationResult)
    ensures r.valid <==> Accepts(k)
    ensures Raises(k) ==> r.errorCodes == [CertificateSchemaInvalid]
    ensures !Raises(k) ==> NoDup(r.errorCodes) && Elems(r.errorCodes) == AllErrors(k)
  {
    hide Raises, EnvelopeErrors, SourceErrors, TdsErrors, TermErrors, AmountErrors, RuleErrors, SchemaErrors,
         EvidenceErrors, ExpectationErrors;
    var errors := CheckEnvelope(k);
    errors := CheckSources(k, errors);
    errors := CheckTds(k, errors);
    errors := CheckTerms(k, errors);
    errors := CheckAmounts(k, errors);
    errors := CheckRules(k, errors);
    errors := CheckSchema(k, errors);
    if Raises(k) {
      return VerificationResult(false, [CertificateSchemaInvalid]);
    }
    errors := CheckEvidence(k, errors);
    errors := CheckExpectations(k, errors);
    assert Elems(errors) == AllErrors(k);
    assert errors == [] <==> Elems(errors) == {} by {
      assert errors != [] ==> errors[0] in Elems(errors);
    }
    return VerificationResult(errors == [], errors);
  }
}
