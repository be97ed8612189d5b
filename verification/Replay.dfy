/** The zero-regression replay gate and its runner-signed receipts over immutable corpora. */
module Replay {
  import opened Prelude

  datatype RuleStatus = Proposed | ReplayPassed | Approved | Active | Rejected

  datatype Outcome = Outcome(caseId: string, beforeCorrect: bool, afterCorrect: bool, beforeWrongPaise: nat,
                             afterWrongPaise: nat, beforeProofValid: bool, afterProofValid: bool,
                             beforeSafeCoverage: nat, afterSafeCoverage: nat)

  datatype Report = Report(ruleId: string, ruleVersion: int, status: RuleStatus, confirmed: seq<Outcome>,
                           attacks: seq<Outcome>, newWrongVerdicts: int, newWrongPaise: int, proofsValid: bool,
                           confirmedCoverageChange: int, attackCoverageChange: int, coverageChange: int, promotable: bool)

  datatype ReplayError =
    | NotProposed | NoConfirmed | NoAttacks | DuplicateCase
    | WrongRule | WrongRunner | BadSignature | NoCorpus | CorpusTampered | BindingInvalid | ReportMismatch

  // ------------------------------------------------------------ the aggregates

  function WrongTurn(o: Outcome): int { if o.beforeCorrect && !o.afterCorrect then 1 else 0 }

  function WrongPaiseRise(o: Outcome): int {
    if o.afterWrongPaise > o.beforeWrongPaise then o.afterWrongPaise - o.beforeWrongPaise else 0
  }

  function CoverageChange(o: Outcome): int { o.afterSafeCoverage - o.beforeSafeCoverage }

  function CaseIds(outcomes: seq<Outcome>): seq<string> { Map(outcomes, (o: Outcome) => o.caseId) }

  predicate AllProofsValid(outcomes: seq<Outcome>) { forall o :: o in outcomes ==> o.afterProofValid }

  predicate Promotable(confirmed: seq<Outcome>, attacks: seq<Outcome>) {
    && Sum(confirmed + attacks, WrongTurn) == 0
    && Sum(confirmed + attacks, WrongPaiseRise) == 0
    && AllProofsValid(confirmed + attacks)
    && Sum(confirmed, CoverageChange) >= 0
    && Sum(attacks, CoverageChange) >= 0
  }

  function ReportOn(ruleId: string, version: int, confirmed: seq<Outcome>, attacks: seq<Outcome>): Report {
    var all, promotable := confirmed + attacks, Promotable(confirmed, attacks);
    Report(ruleId, version, if promotable then ReplayPassed else Rejected, confirmed, attacks,
           Sum(all, WrongTurn), Sum(all, WrongPaiseRise), AllProofsValid(all),
           Sum(confirmed, CoverageChange), Sum(attacks, CoverageChange), Sum(all, CoverageChange), promotable)
  }

  predicate DistinctCases(confirmed: seq<Outcome>, attacks: seq<Outcome>) {
    var ids := CaseIds(confirmed + attacks);
    |ids| == |Elems(ids)|
  }

  /** `replay_rule`: the gate over two corpora. */
  function ReplayRule(ruleId: string, version: int, status: RuleStatus, confirmed: seq<Outcome>, attacks: seq<Outcome>)
    : Result<Report, ReplayError>
  {
    if !status.Proposed? then Err(NotProposed)
    else if confirmed == [] then Err(NoConfirmed)
    else if attacks == [] then Err(NoAttacks)
    else if !DistinctCases(confirmed, attacks) then Err(DuplicateCase)
    else Ok(ReportOn(ruleId, version, confirmed, attacks))
  }

  ghost predicate NoRegression(o: Outcome) {
    && (o.beforeCorrect ==> o.afterCorrect)
    && o.afterWrongPaise <= o.beforeWrongPaise
    && o.afterProofValid
  }

  /** The gate opens exactly when no single case regresses and neither corpus loses coverage. */
  lemma PromotableMeans(confirmed: seq<Outcome>, attacks: seq<Outcome>)
    ensures Promotable(confirmed, attacks)
       <==> && (forall o :: o in confirmed + attacks ==> NoRegression(o))
            && Sum(confirmed, CoverageChange) >= 0 && Sum(attacks, CoverageChange) >= 0
  {
    hide Sum;
    var all := confirmed + attacks;
    ZeroSum(all, WrongTurn);
    ZeroSum(all, WrongPaiseRise);
    assert forall o :: o in all ==> (NoRegression(o) <==> WrongTurn(o) == 0 && WrongPaiseRise(o) == 0 && o.afterProofValid);
  }

  // ------------------------------------------------------------ reading a report back

  /** `from_json` on fields of the right types: every aggregate and the gate result are recomputed. */
  function Decode(v: Report): Option<Report> {
    var all := v.confirmed + v.attacks;
    if v.confirmed == [] || v.attacks == [] then None
    else if v.newWrongPaise < 0 || v.newWrongVerdicts < 0 then None
    else if v.newWrongVerdicts != Sum(all, WrongTurn) || v.newWrongPaise != Sum(all, WrongPaiseRise)
            || v.proofsValid != AllProofsValid(all)
            || v.confirmedCoverageChange != Sum(v.confirmed, CoverageChange)
            || v.attackCoverageChange != Sum(v.attacks, CoverageChange)
            || v.coverageChange != Sum(all, CoverageChange) then None
    else if v.promotable != Promotable(v.confirmed, v.attacks)
            || v.status != (if Promotable(v.confirmed, v.attacks) then ReplayPassed else Rejected) then None
    else if "" in CaseIds(all) || !DistinctCases(v.confirmed, v.attacks) then None
    else if v.ruleId == "" || v.ruleVersion < 1 then None
    else Some(v)
  }

  /** A stored report is readable exactly when the gate itself would have written it. */
  lemma DecodeIsExact(v: Report)
    requires v.ruleId != "" && v.ruleVersion >= 1 && "" !in CaseIds(v.confirmed + v.attacks)
    ensures Decode(v) == Some(v) <==> ReplayRule(v.ruleId, v.ruleVersion, Proposed, v.confirmed, v.attacks) == Ok(v)
    ensures Decode(v).None? || Decode(v) == Some(v)
  {
    hide Sum, Promotable, DistinctCases, AllProofsValid;
    var all := v.confirmed + v.attacks;
    ZeroSum(all, WrongTurn);
    ZeroSum(all, WrongPaiseRise);
  }

  // ------------------------------------------------------------ corpora and receipts

  datatype CorpusClass = Confirmed | Attack

  datatype Record = Record(outcome: Outcome, hash: string)

  datatype Corpus = Corpus(kind: CorpusClass, records: seq<Record>, hash: string)

  datatype ReceiptPayload = ReceiptPayload(ruleId: string, ruleVersion: int, runnerId: string, confirmedId: string,
                                           confirmedHash: string, attackId: string, attackHash: string,
                                           outcomeHashes: seq<string>, report: Report)

  datatype Receipt = Receipt(payload: ReceiptPayload, signature: string)

  /** SHA-256 of an outcome and of a corpus, and the runner's keyed signature. */
  datatype ReplayDigests = ReplayDigests(outcome: Outcome -> string, corpus: (CorpusClass, string, seq<string>) -> string,
                                         sign: ReceiptPayload -> string)

  datatype CorpusStore = CorpusStore(runnerId: string, corpora: map<string, Corpus>, dig: ReplayDigests)

  function RecordOutcome(r: Record): Outcome { r.outcome }
  function RecordHash(r: Record): string { r.hash }
  function OutcomesOf(c: Corpus): seq<Outcome> { Map(c.records, RecordOutcome) }
  function HashesOf(c: Corpus): seq<string> { Map(c.records, RecordHash) }

  predicate Intact(s: CorpusStore, id: string, c: Corpus) {
    && (forall r :: r in c.records ==> r.hash == s.dig.outcome(r.outcome))
    && c.hash == s.dig.corpus(c.kind, id, HashesOf(c))
  }

  /** Why a corpus cannot be loaded as this kind. */
  function LoadError(s: CorpusStore, id: string, kind: CorpusClass): Option<ReplayError> {
    if id !in s.corpora || s.corpora[id].kind != kind || s.corpora[id].records == [] then Some(NoCorpus)
    else if !Intact(s, id, s.corpora[id]) then Some(CorpusTampered)
    else None
  }

  function RunReplay(s: CorpusStore, ruleId: string, version: int, status: RuleStatus, confirmedId: string, attackId: string)
    : Result<Receipt, ReplayError>
  {
    var badConfirmed, badAttack := LoadError(s, confirmedId, Confirmed), LoadError(s, attackId, Attack);
    if badConfirmed.Some? then Err(badConfirmed.value)
    else if badAttack.Some? then Err(badAttack.value)
    else
      var confirmed, attack := s.corpora[confirmedId], s.corpora[attackId];
      match ReplayRule(ruleId, version, status, OutcomesOf(confirmed), OutcomesOf(attack))
      case Err(e) => Err(e)
      case Ok(report) =>
        var payload := ReceiptPayload(ruleId, version, s.runnerId, confirmedId, confirmed.hash, attackId, attack.hash,
                                      HashesOf(confirmed) + HashesOf(attack), report);
        Ok(Receipt(payload, s.dig.sign(payload)))
  }

  /** Nothing in the receipt is trusted: the corpora are read again and the gate is run again. */
  function VerifyReceipt(s: CorpusStore, ruleId: string, version: int, status: RuleStatus, r: Receipt)
    : Result<Report, ReplayError>
  {
    var p := r.payload;
    if p.ruleId != ruleId || p.ruleVersion != version then Err(WrongRule)
    else if p.runnerId != s.runnerId then Err(WrongRunner)
    else if r.signature != s.dig.sign(p) then Err(BadSignature)
    else if LoadError(s, p.confirmedId, Confirmed).Some? then Err(LoadError(s, p.confirmedId, Confirmed).value)
    else if LoadError(s, p.attackId, Attack).Some? then Err(LoadError(s, p.attackId, Attack).value)
    else
      var confirmed, attack := s.corpora[p.confirmedId], s.corpora[p.attackId];
      if p.confirmedHash != confirmed.hash || p.attackHash != attack.hash
         || p.outcomeHashes != HashesOf(confirmed) + HashesOf(attack) then Err(BindingInvalid)
      else
        match ReplayRule(ruleId, version, status, OutcomesOf(confirmed), OutcomesOf(attack))
        case Err(e) => Err(e)
        case Ok(report) => if p.report != report then Err(ReportMismatch) else Ok(report)
  }

  /** What the runner signs, it accepts; and it accepts nothing that its corpora do not yield. */
  lemma RunThenVerify(s: CorpusStore, ruleId: string, version: int, status: RuleStatus, confirmedId: string, attackId: string)
    requires RunReplay(s, ruleId, version, status, confirmedId, attackId).Ok?
    ensures var receipt := RunReplay(s, ruleId, version, status, confirmedId, attackId).value;
            VerifyReceipt(s, ruleId, version, status, receipt) == Ok(receipt.payload.report)
  {
    hide Intact, ReplayRule;
  }

  lemma VerifiedIsReplayed(s: CorpusStore, ruleId: string, version: int, status: RuleStatus, r: Receipt)
    requires VerifyReceipt(s, ruleId, version, status, r).Ok?
    ensures r.payload.confirmedId in s.corpora && r.payload.attackId in s.corpora
    ensures var report := VerifyReceipt(s, ruleId, version, status, r).value;
            && status.Proposed?
            && report == ReportOn(ruleId, version, OutcomesOf(s.corpora[r.payload.confirmedId]),
                                  OutcomesOf(s.corpora[r.payload.attackId]))
            && s.corpora[r.payload.confirmedId].kind.Confirmed? && s.corpora[r.payload.attackId].kind.Attack?
            && r == RunReplay(s, ruleId, version, status, r.payload.confirmedId, r.payload.attackId).value
  {
    hide Intact, ReportOn, DistinctCases;
  }
}
