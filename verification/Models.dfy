/** Typed source records, the closed verdict taxonomy, and the evidence behind a verdict. */
module Models {
  import opened Prelude
  import opened Dates
  import Authority

  datatype Channel = Gateway | BankTransfer | Mandate

  datatype Order = Order(orderId: string, invoiceNo: string, customerId: string, customerName: string,
                         amountPaise: int, dueDate: Date, channelExpected: Channel)

  datatype CaptureStatus = Captured | Failed | RefundStatus | ChargebackStatus

  datatype Capture = Capture(paymentId: string, orderId: string, amountPaise: int, feePaise: int, taxPaise: int,
                             status: CaptureStatus, capturedAt: Date, settlementId: string, utr: string)

  datatype BankTxn = BankTxn(txnId: string, valueDate: Date, amountPaise: int, isCredit: bool, utr: string,
                             narration: string, balanceAfter: int)

  datatype EventStatus = Pending | Processed | FailedEvent | Open | Won | Lost | Closed

  datatype AdjustmentKind = CreditKind | DebitKind | FeeReversalKind | GstVarianceKind

  datatype LedgerKind = TdsWithheldEntry | FeeReversalEntry | GstVarianceEntry | SettlementAdjustmentEntry

  datatype Direction = CreditDirection | DebitDirection

  /** `LAW:RULE@YYYY-MM-DD`, or a text without that shape. */
  datatype TaxRule = TaxRule(law: string, effective: Date) | MalformedRule(text: string)

  datatype FinanceEvent =
    | Refund(refundId: string, paymentId: string, orderId: string, amountPaise: int, status: EventStatus, createdAt: Date)
    | Dispute(disputeId: string, paymentId: string, orderId: string, amountPaise: int, status: EventStatus, createdAt: Date)
    | Adjustment(adjustmentId: string, settlementId: string, amountPaise: int, kind: AdjustmentKind, createdAt: Date)
    | Settlement(settlementId: string, amountPaise: int, settledAt: Date, utr: string, status: EventStatus)
    | LedgerEntry(entryId: string, entryKind: LedgerKind, sourceRef: string, amountPaise: int, direction: Direction, occurredAt: Date)
    | TdsEvidence(evidenceId: string, orderId: string, amountPaise: int, payerPanHash: string, merchantPanHash: string,
                  taxRule: TaxRule, certificateRef: string, occurredAt: Date)

  datatype Verdict = SettledClean | SettledLate | PaidOutOfBand | RefundedThenRepaid | PartiallyPaid | PaidNetOfTds
                   | PossibleTdsWithholding | GenuinelyUnpaid | FailedNotDebited | ChargebackOpen | Ambiguous

  predicate Chaseable(v: Verdict) {
    v.GenuinelyUnpaid? || v.PartiallyPaid?
  }

  datatype Pass = Pass1ExactUtr | Pass2AmountDate | Pass3SettlementId | Pass4Fuzzy | Pass4Rejected
                | Pass4FuzzyTdsEvidence | GatewayStatus | FinanceEventDispute | NetArithmetic | Exhausted | NoPass

  predicate IsSettlementPass(p: Pass) {
    p.Pass1ExactUtr? || p.Pass2AmountDate? || p.Pass3SettlementId?
  }

  datatype AutomationPath = ExactPath | ProbabilisticPath | ManualPath

  datatype Evidence = Evidence(passUsed: Pass, sourceRows: seq<string>, automationPath: AutomationPath,
                               riskCalibrationId: string, riskAuthorized: bool, scorePpm: int,
                               authorityState: Option<Authority.AuthorityState>)

  /** The dataclass defaults: nothing probabilistic is claimed. */
  function PlainEvidence(pass: Pass, refs: seq<string>, path: AutomationPath, authorized: bool): Evidence {
    Evidence(pass, refs, path, "", authorized, 0, None)
  }

  datatype OrderVerdict = OrderVerdict(orderId: string, verdict: Verdict, evidence: Evidence,
                                       moneyReceivedPaise: int, deltaDuePaise: int, bankCoverageOk: bool)

  function NetOf(c: Capture): int {
    c.amountPaise - c.feePaise - c.taxPaise
  }

  function OfOrder(oid: string): Capture -> bool { (c: Capture) => c.orderId == oid }
  function InSettlement(sid: string): Capture -> bool { (c: Capture) => c.settlementId == sid }

  function IsRefund(c: Capture): bool { c.status.RefundStatus? }
  function IsCaptured(c: Capture): bool { c.status.Captured? }
  function IsFailed(c: Capture): bool { c.status.Failed? }
  function IsChargeback(c: Capture): bool { c.status.ChargebackStatus? }
  function IsLive(c: Capture): bool { c.status.Captured? || c.status.RefundStatus? }

  function CapturedOn(c: Capture): Date { c.capturedAt }

  /** The date of one of the rows, and of none a later one. */
  function LatestCapture(caps: seq<Capture>): (d: Date)
    requires caps != []
    ensures (exists c :: c in caps && c.capturedAt == d) && forall c :: c in caps ==> DateLe(c.capturedAt, d)
  {
    CapturedDates(caps);
    Latest(Map(caps, CapturedOn))
  }

  lemma CapturedDates(caps: seq<Capture>)
    ensures forall d :: d in Map(caps, CapturedOn) <==> exists c :: c in caps && c.capturedAt == d
  {
    var dates := Map(caps, CapturedOn);
    forall d
      ensures d in dates <==> exists c :: c in caps && c.capturedAt == d
    {
      if d in dates {
        var i :| 0 <= i < |dates| && dates[i] == d;
        assert CapturedOn(caps[i]) == d;
      }
      if c :| c in caps && c.capturedAt == d {
        var i :| 0 <= i < |caps| && caps[i] == c;
        assert dates[i] == CapturedOn(caps[i]);
      }
    }
  }

  function RefundedBy(c: Capture): int { -c.amountPaise }

  function RefundTotal(refunds: seq<Capture>): int {
    Sum(refunds, RefundedBy)
  }

  // ------------------------------------------------------------ validated rows

  /** What row validation at the boundary guarantees about signs. */
  predicate ValidOrder(o: Order) {
    o.amountPaise > 0 && ValidDate(o.dueDate)
  }

  predicate ValidCapture(c: Capture) {
    && c.amountPaise != 0 && c.feePaise >= 0 && c.taxPaise >= 0
    && (c.status.RefundStatus? <==> c.amountPaise < 0)
    && ValidDate(c.capturedAt)
  }

  predicate ValidBankTxn(b: BankTxn) {
    b.amountPaise > 0 && ValidDate(b.valueDate)
  }

  predicate ValidEvent(e: FinanceEvent) {
    match e
    case Adjustment(_, _, amount, kind, _) =>
      && amount != 0
      && (kind.CreditKind? || kind.FeeReversalKind? ==> amount > 0)
      && (kind.DebitKind? ==> amount < 0)
    case Settlement(_, amount, _, _, _) => amount >= 0
    case Refund(_, _, _, amount, status, _) => amount > 0 && (status.Pending? || status.Processed? || status.FailedEvent?)
    case _ => e.amountPaise > 0
  }
}
