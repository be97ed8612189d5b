/** Proof certificates, and the issuer that writes them from a verdict. */
module Certificates {
  import opened Prelude
  import opened Sorting
  import opened Dates
  import opened Models
  import opened SourceRows

  const CERTIFICATE_VERSION := "2"
  const BATCH_ROOT := "BATCH_ROOT"

  datatype TermName =
    | InvoiceTerm | UnpaidExposure | MoneyReceived | DeltaDue | TdsWithheld
    | GatewayCapture | GatewayRefund | GatewayFee | GatewayGst
    | BankCredit | EvidenceReceived
    | RefundTerm | AdjustmentTerm | PaymentTerm
    | OtherTerm(text: string)

  /** One signed amount of the money equation; an empty row id cites nothing. */
  datatype AmountTerm = AmountTerm(name: TermName, amountPaise: int, sourceRowId: string, sourceField: Field)

  /** A name the closed sets know, or any other text a certificate may claim. */
  datatype VerdictName = KnownVerdict(verdict: Verdict) | OtherVerdict(text: string)

  datatype PassName = KnownPass(pass: Pass) | OtherPass(text: string)

  datatype PathName = KnownPath(path: AutomationPath) | OtherPath(text: string)

  datatype RuleId = ReconRule(pass: PassName) | VerdictRule(verdict: VerdictName) | OtherRule(text: string)

  /** Everything the proof hash covers. */
  datatype Claim = Claim(version: string, orderId: string, verdict: VerdictName, sourceHashes: map<string, string>,
                         amountTerms: seq<AmountTerm>, moneyReceivedPaise: int, deltaDuePaise: int,
                         ruleIds: seq<RuleId>, configHash: string, calibrationId: string, automationPath: PathName,
                         scorePpm: int, riskCalibrationId: string, riskAuthorized: bool, generatedAt: Date)

  datatype Certificate = Certificate(claim: Claim, proofHash: string)

  /** SHA-256 over canonical JSON of a row, of the id-to-hash table, and of a claim. */
  datatype Digests = Digests(row: Row -> string, root: map<string, string> -> string, payload: Claim -> string)

  datatype IssueError = BadIdentifiers | UnknownSourceRows | MissingTdsEvidence

  function TermAmount(t: AmountTerm): int { t.amountPaise }

  // ------------------------------------------------------------ hashes

  ghost predicate WellKeyed(rows: seq<Row>) {
    NoDup(RowIds(rows)) && "" !in RowIds(rows)
  }

  function RowHashes(rows: seq<Row>, dig: Digests): map<string, string> {
    map id | id in Indexed(rows) :: dig.row(Indexed(rows)[id])
  }

  lemma HashesGrow(rows: seq<Row>, r: Row, dig: Digests)
    requires RowId(r) !in Indexed(rows)
    ensures RowHashes(rows + [r], dig) == RowHashes(rows, dig)[RowId(r) := dig.row(r)]
  {
    assert (rows + [r])[..|rows|] == rows;
  }

  method SourceHashMap(rows: seq<Row>, dig: Digests) returns (r: Result<map<string, string>, IssueError>)
    ensures r.Ok? <==> WellKeyed(rows)
    ensures r.Ok? ==> r.value == RowHashes(rows, dig)
    ensures r.Err? ==> r.error == BadIdentifiers
  {
    hide Indexed, RowHashes, RowId;
    var hashes: map<string, string> := map[];
    NothingHashed(dig);
    assert rows[..0] == [];
    for i := 0 to |rows|
      invariant WellKeyed(rows[..i])
      invariant hashes == RowHashes(rows[..i], dig)
    {
      var id := RowId(rows[i]);
      assert rows[..i + 1] == rows[..i] + [rows[i]];
      assert RowIds(rows[..i + 1]) == RowIds(rows[..i]) + [id];
      HashedAreIndexed(rows[..i], dig);
      if id == "" || id in hashes {
        NotWellKeyed(rows, i);
        return Err(BadIdentifiers);
      }
      NewIdKeepsKeys(rows[..i], id);
      HashesGrow(rows[..i], rows[i], dig);
      hashes := hashes[id := dig.row(rows[i])];
    }
    assert rows[..|rows|] == rows;
    return Ok(hashes);
  }

  lemma NothingHashed(dig: Digests)
    ensures RowHashes([], dig) == map[]
  {
  }

  lemma HashedAreIndexed(rows: seq<Row>, dig: Digests)
    ensures RowHashes(rows, dig).Keys == Indexed(rows).Keys
  {
  }

  lemma NewIdKeepsKeys(rows: seq<Row>, id: string)
    requires NoDup(RowIds(rows)) && id !in Indexed(rows)
    ensures NoDup(RowIds(rows) + [id])
  {
    NoDupAppend(RowIds(rows), id);
  }

  lemma NotWellKeyed(rows: seq<Row>, i: nat)
    requires i < |rows|
    requires RowId(rows[i]) == "" || RowId(rows[i]) in Indexed(rows[..i])
    ensures !WellKeyed(rows)
  {
    var ids := RowIds(rows);
    if RowId(rows[i]) != "" {
      var m := Indexed(rows[..i]);
      var k :| 0 <= k < i && rows[..i][k] == m[RowId(rows[i])];
      assert ids[k] == ids[i];
    } else {
      assert ids[i] == "";
    }
  }

  // ------------------------------------------------------------ settlement groups

  function InGroup(sid: string): Row -> bool { (r: Row) => SettlementField(r) == Some(sid) }

  /** The ids of every row that names the settlement, sorted. */
  function MembersOf(rows: seq<Row>, sid: string): seq<string> {
    SortStrings(RowIds(Filter(rows, InGroup(sid))))
  }

  ghost predicate NamesSettlement(rows: seq<Row>, sid: string) {
    sid != "" && exists r :: r in rows && SettlementField(r) == Some(sid)
  }

  ghost predicate GroupedUpTo(rows: seq<Row>, groups: map<string, seq<string>>) {
    && (forall sid :: sid in groups <==> NamesSettlement(rows, sid))
    && (forall sid :: sid in groups ==> groups[sid] == RowIds(Filter(rows, InGroup(sid))))
  }

  /** `groups.setdefault(sid, []).append(row_id)`, for a row that names a settlement. */
  function Appended(groups: map<string, seq<string>>, r: Row): map<string, seq<string>> {
    var sid := SettlementField(r).GetOr("");
    if sid == "" then groups
    else groups[sid := (if sid in groups then groups[sid] else []) + [RowId(r)]]
  }

  lemma NoGroupYet(rows: seq<Row>, sid: string)
    requires sid != "" && !NamesSettlement(rows, sid)
    ensures Filter(rows, InGroup(sid)) == []
  {
    FilterEmpty(rows, InGroup(sid));
  }

  lemma NamingGrows(rows: seq<Row>, r: Row, sid: string)
    ensures NamesSettlement(rows + [r], sid) <==> NamesSettlement(rows, sid) || (sid != "" && SettlementField(r) == Some(sid))
  {
    if NamesSettlement(rows, sid) {
      var x :| x in rows && SettlementField(x) == Some(sid);
      assert x in rows + [r];
    }
    assert r in rows + [r];
  }

  lemma BucketGrows(rows: seq<Row>, r: Row, groups: map<string, seq<string>>, sid: string)
    requires GroupedUpTo(rows, groups) && sid in Appended(groups, r)
    ensures Appended(groups, r)[sid] == RowIds(Filter(rows + [r], InGroup(sid)))
  {
    hide RowId;
    FilterSnoc(rows, r, InGroup(sid));
    var kept := Filter(rows, InGroup(sid));
    assert RowIds(kept + [r]) == RowIds(kept) + [RowId(r)];
    if sid !in groups {
      NoGroupYet(rows, sid);
      assert SettlementField(r) == Some(sid);
      assert RowIds(kept) == [];
    }
  }

  lemma NothingGrouped()
    ensures GroupedUpTo([], map[])
  {
  }

  lemma GroupGrows(rows: seq<Row>, r: Row, groups: map<string, seq<string>>)
    requires GroupedUpTo(rows, groups)
    ensures GroupedUpTo(rows + [r], Appended(groups, r))
  {
    hide NamesSettlement, RowIds;
    forall sid
      ensures sid in Appended(groups, r) <==> NamesSettlement(rows + [r], sid)
    {
      NamingGrows(rows, r, sid);
    }
    forall sid | sid in Appended(groups, r)
      ensures Appended(groups, r)[sid] == RowIds(Filter(rows + [r], InGroup(sid)))
    {
      BucketGrows(rows, r, groups, sid);
    }
  }

  /** `_settlement_members`: bucket the ids by settlement, then sort every bucket. */
  method SettlementMembers(rows: seq<Row>) returns (members: map<string, seq<string>>)
    ensures forall sid :: sid in members <==> NamesSettlement(rows, sid)
    ensures forall sid :: sid in members ==> members[sid] == MembersOf(rows, sid)
  {
    hide NamesSettlement, RowIds, SortStrings;
    var groups: map<string, seq<string>> := map[];
    NothingGrouped();
    assert rows[..0] == [];
    for i := 0 to |rows|
      invariant GroupedUpTo(rows[..i], groups)
    {
      ghost var before := groups;
      var sid := SettlementField(rows[i]).GetOr("");
      if sid != "" {
        groups := groups[sid := (if sid in groups then groups[sid] else []) + [RowId(rows[i])]];
      }
      assert rows[..i + 1] == rows[..i] + [rows[i]];
      GroupGrows(rows[..i], rows[i], before);
    }
    assert rows[..|rows|] == rows;
    members := map sid | sid in groups :: SortStrings(groups[sid]);
  }

  // ------------------------------------------------------------ amount terms

  predicate PaymentLe(a: Capture, b: Capture) { StringLe(a.paymentId, b.paymentId) }
  predicate TxnLe(a: BankTxn, b: BankTxn) { StringLe(a.txnId, b.txnId) }

  function ByPayment(cs: seq<Capture>): seq<Capture> { Sort(cs, PaymentLe) }
  function ByTxn(ts: seq<BankTxn>): seq<BankTxn> { Sort(ts, TxnLe) }

  /** A gateway row counts in full, its fee and its tax against it. */
  function LegsOf(name: TermName, c: Capture): seq<AmountTerm> {
    [AmountTerm(name, c.amountPaise, c.paymentId, AmountField),
     AmountTerm(GatewayFee, -c.feePaise, c.paymentId, FeeField),
     AmountTerm(GatewayGst, -c.taxPaise, c.paymentId, TaxField)]
  }

  function CaptureTerms(c: Capture): seq<AmountTerm> {
    LegsOf(if c.status.RefundStatus? then GatewayRefund else GatewayCapture, c)
  }

  function GatewayTerms(cs: seq<Capture>): seq<AmountTerm> {
    if cs == [] then [] else GatewayTerms(cs[..|cs| - 1]) + CaptureTerms(cs[|cs| - 1])
  }

  function CreditTerm(t: BankTxn): AmountTerm { AmountTerm(BankCredit, -t.amountPaise, t.txnId, AmountField) }

  function CreditTerms(ts: seq<BankTxn>): seq<AmountTerm> {
    if ts == [] then [] else CreditTerms(ts[..|ts| - 1]) + [CreditTerm(ts[|ts| - 1])]
  }

  function ReceiptTerm(t: BankTxn, received: int): seq<AmountTerm> {
    [AmountTerm(BankCredit, t.amountPaise, t.txnId, AmountField),
     AmountTerm(EvidenceReceived, -received, "", NoField)]
  }

  function ReceiptTerms(ts: seq<BankTxn>, received: int): seq<AmountTerm> {
    if ts == [] then [] else ReceiptTerms(ts[..|ts| - 1], received) + ReceiptTerm(ts[|ts| - 1], received)
  }

  /** Verdicts that decide nothing about the money. */
  predicate Undecided(v: Verdict) {
    v.Ambiguous? || v.PossibleTdsWithholding?
  }

  predicate IsScoredPass(p: Pass) {
    p.Pass4Fuzzy? || p.Pass4FuzzyTdsEvidence?
  }

  function VerdictTerms(o: Order, v: OrderVerdict, rows: seq<Row>): Result<seq<AmountTerm>, IssueError> {
    var invoice := AmountTerm(InvoiceTerm, o.amountPaise, o.orderId, AmountField);
    var received := AmountTerm(MoneyReceived, -v.moneyReceivedPaise, "", NoField);
    match v.verdict
    case Ambiguous => Ok([])
    case PossibleTdsWithholding => Ok([])
    case FailedNotDebited => Ok([])
    case GenuinelyUnpaid => Ok([invoice, AmountTerm(UnpaidExposure, -o.amountPaise, "", NoField)])
    case PartiallyPaid => Ok([invoice, received, AmountTerm(DeltaDue, -v.deltaDuePaise, "", NoField)])
    case PaidNetOfTds =>
      if TdsIn(rows) == [] then Err(MissingTdsEvidence)
      else Ok([invoice, received,
               AmountTerm(TdsWithheld, -(o.amountPaise - v.moneyReceivedPaise), EventId(TdsIn(rows)[0]), AmountField)])
    case _ => Ok([invoice, received])
  }

  function EvidenceTerms(v: OrderVerdict, rows: seq<Row>): seq<AmountTerm> {
    if IsSettlementPass(v.evidence.passUsed) then
      GatewayTerms(ByPayment(CapturesIn(rows))) + CreditTerms(ByTxn(CreditsIn(rows)))
    else if IsScoredPass(v.evidence.passUsed) && !Undecided(v.verdict) then
      ReceiptTerms(ByTxn(CreditsIn(rows)), v.moneyReceivedPaise)
      + if v.verdict.RefundedThenRepaid? then GatewayTerms(ByPayment(CapturesIn(rows))) else []
    else []
  }

  method AppendGatewayTerms(start: seq<AmountTerm>, cs: seq<Capture>) returns (terms: seq<AmountTerm>)
    ensures terms == start + GatewayTerms(cs)
  {
    terms := start;
    for i := 0 to |cs|
      invariant terms == start + GatewayTerms(cs[..i])
    {
      assert cs[..i + 1][..i] == cs[..i];
      terms := terms + CaptureTerms(cs[i]);
    }
    assert cs[..|cs|] == cs;
  }

  method AppendCreditTerms(start: seq<AmountTerm>, ts: seq<BankTxn>) returns (terms: seq<AmountTerm>)
    ensures terms == start + CreditTerms(ts)
  {
    terms := start;
    for i := 0 to |ts|
      invariant terms == start + CreditTerms(ts[..i])
    {
      assert ts[..i + 1][..i] == ts[..i];
      terms := terms + [CreditTerm(ts[i])];
    }
    assert ts[..|ts|] == ts;
  }

  method AppendReceiptTerms(start: seq<AmountTerm>, ts: seq<BankTxn>, received: int) returns (terms: seq<AmountTerm>)
    ensures terms == start + ReceiptTerms(ts, received)
  {
    terms := start;
    for i := 0 to |ts|
      invariant terms == start + ReceiptTerms(ts[..i], received)
    {
      assert ts[..i + 1][..i] == ts[..i];
      terms := terms + ReceiptTerm(ts[i], received);
    }
    assert ts[..|ts|] == ts;
  }

  method AmountTerms(o: Order, v: OrderVerdict, rows: seq<Row>) returns (r: Result<seq<AmountTerm>, IssueError>)
    ensures VerdictTerms(o, v, rows).Err? ==> r == VerdictTerms(o, v, rows)
    ensures VerdictTerms(o, v, rows).Ok? ==> r == Ok(VerdictTerms(o, v, rows).value + EvidenceTerms(v, rows))
  {
    hide VerdictTerms, GatewayTerms, CreditTerms, ReceiptTerms, ByPayment, ByTxn, CapturesIn, CreditsIn;
    var head := VerdictTerms(o, v, rows);
    if head.Err? {
      return head;
    }
    var terms := head.value;
    if IsSettlementPass(v.evidence.passUsed) {
      terms := AppendGatewayTerms(terms, ByPayment(CapturesIn(rows)));
      terms := AppendCreditTerms(terms, ByTxn(CreditsIn(rows)));
    } else if IsScoredPass(v.evidence.passUsed) && !Undecided(v.verdict) {
      terms := AppendReceiptTerms(terms, ByTxn(CreditsIn(rows)), v.moneyReceivedPaise);
      if v.verdict.RefundedThenRepaid? {
        terms := AppendGatewayTerms(terms, ByPayment(CapturesIn(rows)));
      }
    }
    assert terms == head.value + EvidenceTerms(v, rows);
    return Ok(terms);
  }

  // ------------------------------------------------------------ the rows a certificate cites

  /** The order, the verdict's own references, and for a repaid order every gateway row it has. */
  function Cited(o: Order, v: OrderVerdict, rows: seq<Row>): set<string> {
    {o.orderId} + Elems(v.evidence.sourceRows)
    + if v.verdict.RefundedThenRepaid? then (set r | r in rows && r.CaptureRow? && r.capture.orderId == o.orderId :: RowId(r))
      else {}
  }

  function CitedSettlements(ids: set<string>, rows: seq<Row>): set<string> {
    set id | id in ids && id in Indexed(rows) && SettlementField(Indexed(rows)[id]).GetOr("") != ""
      :: SettlementField(Indexed(rows)[id]).GetOr("")
  }

  function RowsNaming(sids: set<string>, rows: seq<Row>): set<string> {
    set r | r in rows && SettlementField(r).Some? && SettlementField(r).value in sids :: RowId(r)
  }

  /** The cited rows with the complete group of every settlement they name. */
  function Referenced(o: Order, v: OrderVerdict, rows: seq<Row>): set<string> {
    var cited := Cited(o, v, rows);
    cited + RowsNaming(CitedSettlements(cited, rows), rows)
  }

  lemma MembersAreRows(rows: seq<Row>, sid: string)
    ensures Elems(MembersOf(rows, sid)) == RowsNaming({sid}, rows)
  {
    var group := Filter(rows, InGroup(sid));
    SortElems(RowIds(group), StringLe);
    forall id
      ensures id in RowIds(group) <==> id in RowsNaming({sid}, rows)
    {
      if id in RowIds(group) {
        var i :| 0 <= i < |group| && RowIds(group)[i] == id;
        assert group[i] in group;
      }
      if id in RowsNaming({sid}, rows) {
        var r :| r in rows && SettlementField(r) == Some(sid) && RowId(r) == id;
        var i :| 0 <= i < |group| && group[i] == r;
        assert RowIds(group)[i] == id;
      }
    }
  }

  lemma RowsNamingSplits(a: set<string>, b: set<string>, rows: seq<Row>)
    ensures RowsNaming(a + b, rows) == RowsNaming(a, rows) + RowsNaming(b, rows)
  {
  }

  lemma NamingNothing(sid: string, rows: seq<Row>)
    requires sid != "" && !NamesSettlement(rows, sid)
    ensures RowsNaming({sid}, rows) == {}
  {
  }

  method CollectReferenced(o: Order, v: OrderVerdict, rows: seq<Row>) returns (referenced: set<string>)
    ensures referenced == Referenced(o, v, rows)
  {
    hide NamesSettlement, RowsNaming, MembersOf, Cited, CitedSettlements;
    var members := SettlementMembers(rows);
    referenced := Cited(o, v, rows);
    ghost var cited := referenced;
    var todo := CitedSettlements(referenced, rows);
    ghost var done: set<string> := {};
    NamingNone(rows);
    CitedAreNamed(referenced, rows);
    while todo != {}
      invariant done + todo == CitedSettlements(cited, rows) && "" !in todo
      invariant referenced == cited + RowsNaming(done, rows)
      decreases |todo|
    {
      var sid :| sid in todo;
      if sid in members {
        MembersAreRows(rows, sid);
        referenced := referenced + Elems(members[sid]);
      } else {
        NamingNothing(sid, rows);
      }
      RowsNamingSplits(done, {sid}, rows);
      done, todo := done + {sid}, todo - {sid};
    }
    assert done == CitedSettlements(cited, rows);
  }

  lemma CitedAreNamed(ids: set<string>, rows: seq<Row>)
    ensures "" !in CitedSettlements(ids, rows)
  {
  }

  lemma NamingNone(rows: seq<Row>)
    ensures RowsNaming({}, rows) == {}
  {
  }

  // ------------------------------------------------------------ issuing

  /** The latest date of any row, or the epoch. */
  function Watermark(rows: seq<Row>): Date {
    if rows == [] then Date(1970, 1, 1) else Latest(Map(rows, RowDate))
  }

  function ClaimFor(o: Order, v: OrderVerdict, rows: seq<Row>, ids: set<string>, terms: seq<AmountTerm>,
                    configHash: string, calibrationId: string, dig: Digests): Claim {
    var hashes := RowHashes(rows, dig);
    Claim(CERTIFICATE_VERSION, o.orderId, KnownVerdict(v.verdict),
          (map id | id in ids && id in hashes :: hashes[id])[BATCH_ROOT := dig.root(hashes)], terms,
          v.moneyReceivedPaise, v.deltaDuePaise,
          [ReconRule(KnownPass(v.evidence.passUsed)), VerdictRule(KnownVerdict(v.verdict))],
          configHash, calibrationId, KnownPath(v.evidence.automationPath), v.evidence.scorePpm,
          v.evidence.riskCalibrationId, v.evidence.riskAuthorized, Watermark(rows))
  }

  function Sealed(claim: Claim, dig: Digests): Certificate {
    Certificate(claim, dig.payload(claim))
  }

  /** What the issuer makes of a verdict over rows that carry distinct ids. */
  function Issued(o: Order, v: OrderVerdict, rows: seq<Row>, configHash: string, calibrationId: string, dig: Digests)
    : Result<Certificate, IssueError>
  {
    var ids := Referenced(o, v, rows);
    if !(ids <= Indexed(rows).Keys) then Err(UnknownSourceRows)
    else
      var cited := Filter(rows, IdIn(ids));
      match VerdictTerms(o, v, cited)
      case Err(e) => Err(e)
      case Ok(head) =>
        Ok(Sealed(ClaimFor(o, v, rows, ids, head + EvidenceTerms(v, cited), configHash, calibrationId, dig), dig))
  }

  method BuildCertificate(o: Order, v: OrderVerdict, rows: seq<Row>, configHash: string, calibrationId: string, dig: Digests)
    returns (r: Result<Certificate, IssueError>)
    ensures !WellKeyed(rows) ==> r == Err(BadIdentifiers)
    ensures WellKeyed(rows) ==> r == Issued(o, v, rows, configHash, calibrationId, dig)
  {
    hide WellKeyed, Referenced, VerdictTerms, EvidenceTerms, Watermark, Filter;
    var hashes := SourceHashMap(rows, dig);
    if hashes.Err? {
      return Err(BadIdentifiers);
    }
    var ids := CollectReferenced(o, v, rows);
    if !(ids <= hashes.value.Keys) {
      return Err(UnknownSourceRows);
    }
    var terms := AmountTerms(o, v, Filter(rows, IdIn(ids)));
    if terms.Err? {
      return Err(terms.error);
    }
    return Ok(Sealed(ClaimFor(o, v, rows, ids, terms.value, configHash, calibrationId, dig), dig));
  }
}
