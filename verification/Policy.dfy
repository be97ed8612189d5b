/** The deterministic gate in front of every money action. */
module Policy {
  import opened Prelude
  import opened Models
  import Authority

  const MAX_ATTEMPTS := 3
  const CONTACT_BUDGET_7D := 2
  const AFA_LIMIT_PAISE := 15_000_00
  const LLM_MIN_CONFIDENCE: real := 0.85
  const COST_WRONG_CHASE_PAISE := 800_00
  const RECOVERY_RATE_NUM := 6
  const RECOVERY_RATE_DEN := 10

  datatype Outcome = Allow | Deny | Hold | EscalateOut

  datatype RuleFired = RDriftHalt | R1DenyAlreadyPaid | R1DenyNotADebt | R1DenyNetOfTds | R1EscalateDisputeOpen
                     | R1HoldAmbiguous | R2HoldInsufficientEvidence | R3DenyMaxAttempts | R4HoldContactBudget
                     | R5DenyNegativeEv | R6EscalateAfaHuman | R7HoldForHuman | RRiskBudget | RAllow | RDefaultDeny

  datatype Decision = Decision(outcome: Outcome, rule: RuleFired)

  datatype Disposition = Chase | BlockAlreadyPaid | BlockNotADebt | FreezeEscalate | BlockStatutoryDeduction
                       | AbstainForHuman

  datatype Action = CreatePaymentLink | DraftReminder | AutoCharge | OtherAction(name: string)

  function DispositionOf(v: Verdict): Disposition {
    match v
    case SettledClean => BlockAlreadyPaid
    case SettledLate => BlockAlreadyPaid
    case PaidOutOfBand => BlockAlreadyPaid
    case RefundedThenRepaid => BlockAlreadyPaid
    case PartiallyPaid => Chase
    case GenuinelyUnpaid => Chase
    case PaidNetOfTds => BlockStatutoryDeduction
    case PossibleTdsWithholding => AbstainForHuman
    case FailedNotDebited => BlockNotADebt
    case ChargebackOpen => FreezeEscalate
    case Ambiguous => AbstainForHuman
  }

  function R1(v: Verdict): Option<Decision> {
    match DispositionOf(v)
    case Chase => None
    case BlockAlreadyPaid => Some(Decision(Deny, R1DenyAlreadyPaid))
    case BlockNotADebt => Some(Decision(Deny, R1DenyNotADebt))
    case BlockStatutoryDeduction => Some(Decision(Deny, R1DenyNetOfTds))
    case FreezeEscalate => Some(Decision(EscalateOut, R1EscalateDisputeOpen))
    case AbstainForHuman => Some(Decision(Hold, R1HoldAmbiguous))
  }

  /** `verdict.delta_due_paise or order.amount_paise` */
  function ChaseAmount(o: Order, v: OrderVerdict): int {
    if v.deltaDuePaise != 0 then v.deltaDuePaise else o.amountPaise
  }

  function ExpectedValue(amount: int): int {
    amount * RECOVERY_RATE_NUM / RECOVERY_RATE_DEN
  }

  predicate RevokedAuthority(s: Option<Authority.AuthorityState>) {
    s.Some? && Authority.Revoked(s.value)
  }

  predicate ProvenOrAuthorized(e: Evidence) {
    e.automationPath.ExactPath?
    || (e.automationPath.ProbabilisticPath? && e.riskAuthorized && e.riskCalibrationId != "")
  }

  function Evaluate(o: Order, v: OrderVerdict, action: Action, attempts: int, contacts7d: int,
                    llmConfidence: Option<real>): Decision {
    if v.evidence.automationPath.ProbabilisticPath? && RevokedAuthority(v.evidence.authorityState) then
      Decision(Hold, RDriftHalt)
    else if R1(v.verdict).Some? then R1(v.verdict).value
    else if !v.bankCoverageOk then Decision(Hold, R2HoldInsufficientEvidence)
    else if attempts >= MAX_ATTEMPTS then Decision(Deny, R3DenyMaxAttempts)
    else if contacts7d >= CONTACT_BUDGET_7D then Decision(Hold, R4HoldContactBudget)
    else if ExpectedValue(ChaseAmount(o, v)) <= COST_WRONG_CHASE_PAISE then Decision(Deny, R5DenyNegativeEv)
    else if action.AutoCharge? && (!o.channelExpected.Mandate? || ChaseAmount(o, v) > AFA_LIMIT_PAISE) then
      Decision(EscalateOut, R6EscalateAfaHuman)
    else if llmConfidence.Some? && llmConfidence.value < LLM_MIN_CONFIDENCE then Decision(Hold, R7HoldForHuman)
    else if action.OtherAction? then Decision(Deny, RDefaultDeny)
    else if !ProvenOrAuthorized(v.evidence) then Decision(Hold, RRiskBudget)
    else Decision(Allow, RAllow)
  }

  /** An ALLOW means that every gate agrees, whatever their order: nothing else stops or grants the action. */
  lemma AllowMeans(o: Order, v: OrderVerdict, action: Action, attempts: int, contacts7d: int, llm: Option<real>)
    ensures Evaluate(o, v, action, attempts, contacts7d, llm).outcome == Allow
       <==> && Chaseable(v.verdict) && v.bankCoverageOk
            && attempts < MAX_ATTEMPTS && contacts7d < CONTACT_BUDGET_7D
            && ChaseAmount(o, v) >= 133_335
            && (action.AutoCharge? ==> o.channelExpected.Mandate? && ChaseAmount(o, v) <= AFA_LIMIT_PAISE)
            && (llm.Some? ==> llm.value >= LLM_MIN_CONFIDENCE)
            && !action.OtherAction?
            && ProvenOrAuthorized(v.evidence)
            && !(v.evidence.automationPath.ProbabilisticPath? && RevokedAuthority(v.evidence.authorityState))
  {
    hide ProvenOrAuthorized, RevokedAuthority;
    assert ExpectedValue(ChaseAmount(o, v)) > COST_WRONG_CHASE_PAISE <==> ChaseAmount(o, v) >= 133_335;
  }

  /** Revoking authority can only take an ALLOW away, never grant one, and leaves exact verdicts alone. */
  lemma RevocationOnlyRemoves(o: Order, v: OrderVerdict, s: Option<Authority.AuthorityState>, action: Action,
                              attempts: int, contacts7d: int, llm: Option<real>)
    requires RevokedAuthority(s)
    ensures var halted := v.(evidence := v.evidence.(authorityState := s));
            var after := Evaluate(o, halted, action, attempts, contacts7d, llm);
            && (v.evidence.automationPath.ProbabilisticPath? ==> after == Decision(Hold, RDriftHalt))
            && (!v.evidence.automationPath.ProbabilisticPath? ==>
                  after == Evaluate(o, v, action, attempts, contacts7d, llm))
  {
  }

  /** Score-borne evidence under an authority that a drift halt or degradation took away. */
  ghost predicate Halted(v: OrderVerdict) {
    v.evidence.automationPath.ProbabilisticPath?
    && match v.evidence.authorityState
       case Some(Degraded) => true
       case Some(AutomationHalted) => true
       case _ => false
  }

  /** What is never chased: money received is denied, a dispute escalates, doubt and halted scores wait for a human. */
  lemma BlockedOutcomes(o: Order, v: OrderVerdict, action: Action, attempts: int, contacts7d: int, llm: Option<real>)
    ensures var d := Evaluate(o, v, action, attempts, contacts7d, llm);
            && (Halted(v) ==> d.outcome == Hold)
            && (!Halted(v) ==>
                  match v.verdict
                  case GenuinelyUnpaid => true
                  case PartiallyPaid => true
                  case ChargebackOpen => d.outcome == EscalateOut
                  case Ambiguous => d.outcome == Hold
                  case PossibleTdsWithholding => d.outcome == Hold
                  case _ => d.outcome == Deny)
  {
  }

  /** A chase within the limits of attempts, contacts and worth that no halt stops. */
  ghost predicate WorthAsking(o: Order, v: OrderVerdict, attempts: int, contacts7d: int) {
    && (v.verdict.GenuinelyUnpaid? || v.verdict.PartiallyPaid?) && !Halted(v) && v.bankCoverageOk
    && attempts < 3 && contacts7d < 2
    && (if v.deltaDuePaise != 0 then v.deltaDuePaise else o.amountPaise) >= 133_335
  }

  /** An automatic debit needs a mandate and at most fifteen thousand rupees. */
  ghost predicate DebitAllowed(o: Order, v: OrderVerdict) {
    o.channelExpected.Mandate? && (if v.deltaDuePaise != 0 then v.deltaDuePaise else o.amountPaise) <= 1_500_000
  }

  /** A chaseable order: who escalates, who is denied, who is allowed; everyone else is held. */
  lemma ChaseOutcomes(o: Order, v: OrderVerdict, action: Action, attempts: int, contacts7d: int, llm: Option<real>)
    requires v.verdict.GenuinelyUnpaid? || v.verdict.PartiallyPaid?
    ensures var d := Evaluate(o, v, action, attempts, contacts7d, llm);
            var asked, trusted := WorthAsking(o, v, attempts, contacts7d), llm.None? || llm.value >= 0.85;
            && (d.outcome == EscalateOut <==> asked && action.AutoCharge? && !DebitAllowed(o, v))
            && (d.outcome == Deny <==>
                  !Halted(v) && v.bankCoverageOk
                  && (attempts >= 3
                      || (contacts7d < 2 && (if v.deltaDuePaise != 0 then v.deltaDuePaise else o.amountPaise) < 133_335)
                      || (asked && action.OtherAction? && trusted)))
            && (d.outcome == Allow <==>
                  asked && !action.OtherAction? && trusted && (action.AutoCharge? ==> DebitAllowed(o, v))
                  && (v.evidence.automationPath.ExactPath?
                      || (v.evidence.automationPath.ProbabilisticPath? && v.evidence.riskAuthorized && v.evidence.riskCalibrationId != "")))
  {
    var amount := if v.deltaDuePaise != 0 then v.deltaDuePaise else o.amountPaise;
    assert amount * 6 / 10 > 80_000 <==> amount >= 133_335;
  }
}
