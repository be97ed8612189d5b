/** Certificates for the verdicts of passes 1 to 3: exactly which of them the verifier accepts. */
module SettlementProofs {
  import opened Prelude
  import opened Dates
  import opened Models
  import opened Recon
  import opened ReconSafety
  import opened SourceRows
  import opened Certificates
  import opened Verifier
  import opened ProofSoundness
  import opened ProofCompleteness
  import ComponentAssignment
  import Enumeration
  import Matching
  import Sorting
  import Money

  // ------------------------------------------------------------ the rows of a batch

  /** Orders, gateway rows, bank rows, then finance events. */
  function RowsOf(b: Batch): seq<Row> {
    OrderRows(b.orders) + CaptureRows(b.captures) + BankRows(b.bank) + EventRows(b.events)
  }

  lemma RowsMembers(b: Batch, r: Row)
    ensures r in RowsOf(b) <==> match r
                                case OrderRow(o) => o in b.orders
                                case CaptureRow(c) => c in b.captures
                                case BankRow(t) => t in b.bank
                                case EventRow(e) => e in b.events
  {
    var os, cs, ts, es := OrderRows(b.orders), CaptureRows(b.captures), BankRows(b.bank), EventRows(b.events);
    match r
    case OrderRow(o) =>
      if o in b.orders { var i :| 0 <= i < |b.orders| && b.orders[i] == o; assert os[i] == r; }
    case CaptureRow(c) =>
      if c in b.captures { var i :| 0 <= i < |b.captures| && b.captures[i] == c; assert cs[i] == r; }
    case BankRow(t) =>
      if t in b.bank { var i :| 0 <= i < |b.bank| && b.bank[i] == t; assert ts[i] == r; }
    case EventRow(e) =>
      if e in b.events { var i :| 0 <= i < |b.events| && b.events[i] == e; assert es[i] == r; }
  }

  lemma {:induction false} CapturesOfCaptureRows(caps: seq<Capture>)
    ensures CapturesIn(CaptureRows(caps)) == caps && CreditsIn(CaptureRows(caps)) == []
  {
    if caps != [] {
      assert CaptureRows(caps)[1..] == CaptureRows(caps[1..]);
      CapturesOfCaptureRows(caps[1..]);
    }
  }

  lemma {:induction false} CreditsOfBankRows(bank: seq<BankTxn>)
    ensures CreditsIn(BankRows(bank)) == Filter(bank, IsCredit) && CapturesIn(BankRows(bank)) == []
  {
    if bank != [] {
      assert BankRows(bank)[1..] == BankRows(bank[1..]);
      CreditsOfBankRows(bank[1..]);
    }
  }

  lemma {:induction false} NeitherInOtherRows(rows: seq<Row>)
    requires forall r :: r in rows ==> r.OrderRow? || r.EventRow?
    ensures CapturesIn(rows) == [] && CreditsIn(rows) == []
  {
    if rows != [] {
      assert rows == [rows[0]] + rows[1..];
      NeitherInOtherRows(rows[1..]);
    }
  }

  lemma KindsInRows(b: Batch)
    ensures CapturesIn(RowsOf(b)) == b.captures && CreditsIn(RowsOf(b)) == Credits(b)
  {
    hide Filter;
    var os, cs, ts, es := OrderRows(b.orders), CaptureRows(b.captures), BankRows(b.bank), EventRows(b.events);
    NeitherInOtherRows(os);
    CapturesOfCaptureRows(b.captures);
    CreditsOfBankRows(b.bank);
    NeitherInOtherRows(es);
    CapturesConcat(os, cs);
    CapturesConcat(os + cs, ts);
    CapturesConcat(os + cs + ts, es);
    CreditsConcat(os, cs);
    CreditsConcat(os + cs, ts);
    CreditsConcat(os + cs + ts, es);
  }

  lemma SameIdInRows(rows: seq<Row>, r: Row, s: Row)
    requires NoDup(RowIds(rows)) && r in rows && s in rows && RowId(r) == RowId(s)
    ensures r == s
  {
    var i :| 0 <= i < |rows| && rows[i] == r;
    var j :| 0 <= j < |rows| && rows[j] == s;
    assert RowIds(rows)[i] == RowIds(rows)[j];
  }

  // ------------------------------------------------------------ the verdict of a settled order

  function LiveOf(b: Batch, oid: string): seq<Capture> {
    Filter(CapsOf(b, oid), IsCaptured) + Filter(CapsOf(b, oid), IsRefund)
  }

  function RefundsOf(b: Batch, oid: string): seq<Capture> { Filter(CapsOf(b, oid), IsRefund) }

  /** The order's verdict rests on the hit of its first captured row's settlement. */
  ghost predicate SettledOn(b: Batch, eng: Engine, o: Order, v: OrderVerdict, sid: string, credit: BankTxn) {
    var captured := Filter(CapsOf(b, o.orderId), IsCaptured);
    && captured != [] && captured[0].settlementId == sid
    && Filter(CapsOf(b, o.orderId), IsChargeback) == []
    && IsSettlementPass(v.evidence.passUsed)
    && HitEvidence(b, eng, sid, Hit(credit, v.evidence.passUsed))
    && v.evidence == PlainEvidence(v.evidence.passUsed, PaymentIds(LiveOf(b, o.orderId)) + [credit.txnId], ExactPath, true)
    && v.orderId == o.orderId
    && v.deltaDuePaise == RefundTotal(RefundsOf(b, o.orderId))
    && v.moneyReceivedPaise == o.amountPaise - RefundTotal(RefundsOf(b, o.orderId))
    && v.verdict == (if RefundsOf(b, o.orderId) != [] then PartiallyPaid
                     else if EngineDelta(LatestCapture(captured), credit.valueDate) <= 1 then SettledClean
                     else SettledLate)
  }

  /** A settlement pass in the evidence means the settlement branch of the verdict table. */
  lemma SettlementBranch(b: Batch, eng: Engine, cfg: Config, o: Order, hits: map<string, Hit>, pool: seq<BankTxn>,
                         m: ComponentAssignment.Match, cands: seq<Enumeration.Candidate>)
    requires o.amountPaise > 0
    requires IsSettlementPass(Resolve(b, eng, cfg, o, hits, pool, m, cands).evidence.passUsed)
    ensures Filter(CapsOf(b, o.orderId), IsCaptured) != [] && Filter(CapsOf(b, o.orderId), IsChargeback) == []
    ensures Filter(CapsOf(b, o.orderId), IsCaptured)[0].settlementId in hits
    ensures Resolve(b, eng, cfg, o, hits, pool, m, cands) == ResolveCaptured(b, o, CapsOf(b, o.orderId), hits)
  {
    hide Filter, Classify, UtrCount, FirstProof, Money.TdsRateBp, CoverageEnd, EngineDelta, IsRefundNetZero;
  }

  lemma CapturedIsSettled(b: Batch, eng: Engine, o: Order, hits: map<string, Hit>)
    requires Filter(CapsOf(b, o.orderId), IsCaptured) != [] && Filter(CapsOf(b, o.orderId), IsChargeback) == []
    requires var sid := Filter(CapsOf(b, o.orderId), IsCaptured)[0].settlementId;
             sid in hits && HitEvidence(b, eng, sid, hits[sid])
    ensures var sid := Filter(CapsOf(b, o.orderId), IsCaptured)[0].settlementId;
            SettledOn(b, eng, o, ResolveCaptured(b, o, CapsOf(b, o.orderId), hits), sid, hits[sid].credit)
  {
    hide CapsOf, Filter, EngineDelta, LatestCapture, CoverageEnd, GroupOf, GroupNet;
    NoRefundsNoTotal();
    assert RefundsOf(b, o.orderId) == Filter(CapsOf(b, o.orderId), IsRefund);
  }

  lemma NoRefundsNoTotal()
    ensures RefundTotal([]) == 0
  {
  }

  lemma RunSettles(b: Batch, eng: Engine, cfg: Config, r: Run, o: Order) returns (sid: string, credit: BankTxn)
    requires IsRun(b, eng, cfg, r) && o in b.orders
    requires IsSettlementPass(r.verdicts[o.orderId].evidence.passUsed)
    ensures SettledOn(b, eng, o, r.verdicts[o.orderId], sid, credit)
    ensures Filter(CapsOf(b, o.orderId), IsCaptured) != [] && sid == Filter(CapsOf(b, o.orderId), IsCaptured)[0].settlementId
    ensures sid in r.settled.hits && credit == r.settled.hits[sid].credit
  {
    hide Resolve, HitEvidence, Filter, ResolveCaptured, SettledOn, CapsOf, Settle;
    RunVerdict(b, eng, cfg, r, o);
    SettlementBranch(b, eng, cfg, o, r.settled.hits, r.pool, MatchOf(r, o.orderId), CandsOf(r, o.orderId));
    sid := Filter(CapsOf(b, o.orderId), IsCaptured)[0].settlementId;
    HitsSound(b, eng, sid);
    credit := r.settled.hits[sid].credit;
    CapturedIsSettled(b, eng, o, r.settled.hits);
  }

  // ------------------------------------------------------------ which rows the certificate cites

  /** A settled verdict over rows with distinct ids. */
  ghost predicate Citing(b: Batch, eng: Engine, o: Order, v: OrderVerdict, sid: string, credit: BankTxn) {
    NoDup(RowIds(RowsOf(b))) && o in b.orders && SettledOn(b, eng, o, v, sid, credit)
  }

  lemma LiveMembers(b: Batch, oid: string, c: Capture)
    ensures c in LiveOf(b, oid) <==> c in b.captures && c.orderId == oid && IsLive(c)
  {
    var caps := CapsOf(b, oid);
    assert c in caps <==> c in b.captures && OfOrder(oid)(c);
    assert c in Filter(caps, IsCaptured) <==> c in caps && IsCaptured(c);
    assert c in Filter(caps, IsRefund) <==> c in caps && IsRefund(c);
  }

  lemma PaymentIdMembers(caps: seq<Capture>, id: string)
    ensures id in PaymentIds(caps) <==> exists c :: c in caps && c.paymentId == id
  {
    if id in PaymentIds(caps) {
      var i :| 0 <= i < |caps| && PaymentIds(caps)[i] == id;
      assert caps[i] in caps;
    }
    if exists c :: c in caps && c.paymentId == id {
      var c :| c in caps && c.paymentId == id;
      var i :| 0 <= i < |caps| && caps[i] == c;
      assert PaymentIds(caps)[i] == id;
    }
  }

  lemma CitedIds(b: Batch, eng: Engine, o: Order, v: OrderVerdict, sid: string, credit: BankTxn, id: string)
    requires Citing(b, eng, o, v, sid, credit)
    ensures id in Cited(o, v, RowsOf(b))
       <==> id == o.orderId || id == credit.txnId || exists c :: c in LiveOf(b, o.orderId) && c.paymentId == id
  {
    hide RowsOf, LiveOf, RowIds, HitEvidence, PaymentIds, Filter, RefundTotal, EngineDelta, LatestCapture;
    PaymentIdMembers(LiveOf(b, o.orderId), id);
    assert v.evidence.sourceRows == PaymentIds(LiveOf(b, o.orderId)) + [credit.txnId];
  }

  /** The settlements of the order's live rows. */
  function LiveSettlements(b: Batch, oid: string): set<string> {
    set c | c in LiveOf(b, oid) && c.settlementId != "" :: c.settlementId
  }

  lemma CreditIsRow(b: Batch, eng: Engine, o: Order, v: OrderVerdict, sid: string, credit: BankTxn)
    requires Citing(b, eng, o, v, sid, credit)
    ensures credit in Credits(b) && BankRow(credit) in RowsOf(b) && OrderRow(o) in RowsOf(b)
    ensures sid in LiveSettlements(b, o.orderId) && sid != ""
  {
    hide RowsOf, RowIds, LatestCapture, EngineDelta, RefundTotal;
    RowsMembers(b, BankRow(credit));
    RowsMembers(b, OrderRow(o));
    var captured := Filter(CapsOf(b, o.orderId), IsCaptured);
    assert captured[0] in LiveOf(b, o.orderId);
  }

  lemma RowIsIndexed(rows: seq<Row>, r: Row)
    requires NoDup(RowIds(rows)) && r in rows
    ensures RowId(r) in Indexed(rows) && Indexed(rows)[RowId(r)] == r
  {
    hide RowIds;
    DistinctRowsAreIndexed(rows);
  }

  lemma CitedSettlementsAre(b: Batch, eng: Engine, o: Order, v: OrderVerdict, sid: string, credit: BankTxn)
    requires Citing(b, eng, o, v, sid, credit)
    ensures CitedSettlements(Cited(o, v, RowsOf(b)), RowsOf(b)) == LiveSettlements(b, o.orderId)
  {
    hide RowsOf, LiveOf, RowIds, Cited, SettledOn, Indexed;
    var rows, cited := RowsOf(b), Cited(o, v, RowsOf(b));
    CreditIsRow(b, eng, o, v, sid, credit);
    forall s
      ensures s in CitedSettlements(cited, rows) <==> s in LiveSettlements(b, o.orderId)
    {
      if s in CitedSettlements(cited, rows) {
        var id :| id in cited && id in Indexed(rows) && SettlementField(Indexed(rows)[id]).GetOr("") == s && s != "";
        CitedIds(b, eng, o, v, sid, credit, id);
        RowIsIndexed(rows, OrderRow(o));
        RowIsIndexed(rows, BankRow(credit));
        var c :| c in LiveOf(b, o.orderId) && c.paymentId == id;
        LiveMembers(b, o.orderId, c);
        RowsMembers(b, CaptureRow(c));
        RowIsIndexed(rows, CaptureRow(c));
      }
      if s in LiveSettlements(b, o.orderId) {
        var c :| c in LiveOf(b, o.orderId) && c.settlementId == s && s != "";
        LiveMembers(b, o.orderId, c);
        RowsMembers(b, CaptureRow(c));
        RowIsIndexed(rows, CaptureRow(c));
        CitedIds(b, eng, o, v, sid, credit, c.paymentId);
      }
    }
  }

  /** A row is referenced when it is the order, the credit, a live row of the order, or names one of their settlements. */
  lemma ReferencedRow(b: Batch, eng: Engine, o: Order, v: OrderVerdict, sid: string, credit: BankTxn, r: Row)
    requires Citing(b, eng, o, v, sid, credit) && r in RowsOf(b)
    ensures RowId(r) in Referenced(o, v, RowsOf(b))
       <==> || r == OrderRow(o) || r == BankRow(credit)
            || (r.CaptureRow? && r.capture in LiveOf(b, o.orderId))
            || (SettlementField(r).Some? && SettlementField(r).value in LiveSettlements(b, o.orderId))
  {
    hide RowsOf, LiveOf, RowIds, Cited, SettledOn, Indexed, CitedSettlements, LiveSettlements, RowId;
    var rows := RowsOf(b);
    CreditIsRow(b, eng, o, v, sid, credit);
    CitedSettlementsAre(b, eng, o, v, sid, credit);
    CitedIdsOfRow(b, eng, o, v, sid, credit, r);
    if RowId(r) in RowsNaming(LiveSettlements(b, o.orderId), rows) {
      var s :| s in rows && SettlementField(s).Some? && SettlementField(s).value in LiveSettlements(b, o.orderId)
               && RowId(s) == RowId(r);
      SameIdInRows(rows, r, s);
    }
  }

  lemma CitedIdsOfRow(b: Batch, eng: Engine, o: Order, v: OrderVerdict, sid: string, credit: BankTxn, r: Row)
    requires Citing(b, eng, o, v, sid, credit) && r in RowsOf(b)
    ensures RowId(r) in Cited(o, v, RowsOf(b))
       <==> r == OrderRow(o) || r == BankRow(credit) || (r.CaptureRow? && r.capture in LiveOf(b, o.orderId))
  {
    hide RowsOf, LiveOf, RowIds, Cited, SettledOn;
    var rows := RowsOf(b);
    CreditIsRow(b, eng, o, v, sid, credit);
    CitedIds(b, eng, o, v, sid, credit, RowId(r));
    if RowId(r) == o.orderId {
      SameIdInRows(rows, r, OrderRow(o));
    } else if RowId(r) == credit.txnId {
      SameIdInRows(rows, r, BankRow(credit));
    } else if RowId(r) in Cited(o, v, rows) {
      var c :| c in LiveOf(b, o.orderId) && c.paymentId == RowId(r);
      LiveMembers(b, o.orderId, c);
      RowsMembers(b, CaptureRow(c));
      SameIdInRows(rows, r, CaptureRow(c));
    }
  }

  lemma ReferencedAreRows(b: Batch, eng: Engine, o: Order, v: OrderVerdict, sid: string, credit: BankTxn)
    requires Citing(b, eng, o, v, sid, credit)
    ensures Referenced(o, v, RowsOf(b)) <= Indexed(RowsOf(b)).Keys
  {
    hide RowsOf, LiveOf, RowIds, Cited, SettledOn, CitedSettlements;
    CreditIsRow(b, eng, o, v, sid, credit);
    forall id | id in Referenced(o, v, RowsOf(b))
      ensures id in Indexed(RowsOf(b))
    {
      CitedIds(b, eng, o, v, sid, credit, id);
      if c :| c in LiveOf(b, o.orderId) && c.paymentId == id {
        LiveMembers(b, o.orderId, c);
        RowsMembers(b, CaptureRow(c));
      }
      assert RowId(OrderRow(o)) == o.orderId && RowId(BankRow(credit)) == credit.txnId;
      assert forall c :: RowId(CaptureRow(c)) == c.paymentId;
    }
  }

  /** The check of the certificate issued for a settled verdict, over the batch it was decided on. */
  ghost predicate IssuedFor(k: Check, b: Batch, eng: Engine, o: Order, v: OrderVerdict, sid: string, credit: BankTxn) {
    && Fresh(k, o, v) && k.rows == RowsOf(b) && k.reader.settlementOf == eng.settlementOf
    && Validated(b) && o in b.orders && SettledOn(b, eng, o, v, sid, credit)
  }

  lemma IssuedCites(k: Check, b: Batch, eng: Engine, o: Order, v: OrderVerdict, sid: string, credit: BankTxn)
    requires IssuedFor(k, b, eng, o, v, sid, credit)
    ensures Citing(b, eng, o, v, sid, credit)
  {
    hide SettledOn, Fresh, Validated, RowsOf;
    FreshIsKeyed(k, o, v);
  }

  /** A settled verdict over well-keyed rows always gets its certificate. */
  lemma SettledIsIssued(b: Batch, eng: Engine, o: Order, v: OrderVerdict, sid: string, credit: BankTxn,
                        configHash: string, calibrationId: string, dig: Digests)
    requires WellKeyed(RowsOf(b)) && o in b.orders && SettledOn(b, eng, o, v, sid, credit)
    ensures Issued(o, v, RowsOf(b), configHash, calibrationId, dig).Ok?
  {
    hide RowsOf, Referenced, RowIds, HitEvidence, EvidenceTerms, ClaimFor, RefundsOf, LiveOf, PaymentIds,
         RefundTotal, EngineDelta, LatestCapture, Filter;
    ReferencedAreRows(b, eng, o, v, sid, credit);
  }

  function Touched(b: Batch, oid: string): Capture -> bool {
    (c: Capture) => c in LiveOf(b, oid) || c.settlementId in LiveSettlements(b, oid)
  }

  lemma ClaimedRowsAre(k: Check, b: Batch, eng: Engine, o: Order, v: OrderVerdict, sid: string, credit: BankTxn, r: Row)
    requires IssuedFor(k, b, eng, o, v, sid, credit) && r in k.rows
    ensures RowId(r) in Referenced(o, v, k.rows)
       <==> || r == OrderRow(o) || r == BankRow(credit)
            || (r.CaptureRow? && Touched(b, o.orderId)(r.capture))
            || (r.EventRow? && SettlementField(r).Some? && SettlementField(r).value in LiveSettlements(b, o.orderId))
  {
    hide SettledOn, Fresh, Validated, RowsOf, RowId, Referenced, LiveOf, LiveSettlements;
    IssuedCites(k, b, eng, o, v, sid, credit);
    ReferencedRow(b, eng, o, v, sid, credit, r);
  }

  lemma ClaimedCapturesAre(k: Check, b: Batch, eng: Engine, o: Order, v: OrderVerdict, sid: string, credit: BankTxn)
    requires IssuedFor(k, b, eng, o, v, sid, credit)
    ensures ClaimedCaptures(k) == Filter(b.captures, Touched(b, o.orderId))
  {
    hide SettledOn, Fresh, Validated, RowsOf, Referenced, LiveOf, LiveSettlements, ClaimedRows, Filter;
    FreshIds(k, o, v);
    KindsInRows(b);
    var ids := Referenced(o, v, k.rows);
    CapturesOfSelected(k.rows, ids);
    forall c | c in b.captures
      ensures PaymentIn(ids)(c) == Touched(b, o.orderId)(c)
    {
      RowsMembers(b, CaptureRow(c));
      ClaimedRowsAre(k, b, eng, o, v, sid, credit, CaptureRow(c));
      assert RowId(CaptureRow(c)) == c.paymentId;
    }
    FilterAgree(b.captures, PaymentIn(ids), Touched(b, o.orderId));
  }

  lemma CreditsHaveNoDup(b: Batch)
    requires Validated(b)
    ensures NoDup(Credits(b))
  {
    FilterIdsUnique(b.bank, IsCredit);
    var cs := Credits(b);
    forall i, j | 0 <= i < j < |cs|
      ensures cs[i] != cs[j]
    {
      assert TxnIds(cs)[i] != TxnIds(cs)[j];
    }
  }

  lemma ClaimedCreditIs(k: Check, b: Batch, eng: Engine, o: Order, v: OrderVerdict, sid: string, credit: BankTxn)
    requires IssuedFor(k, b, eng, o, v, sid, credit)
    ensures ClaimedCredits(k) == [credit]
  {
    hide SettledOn, Fresh, Validated, RowsOf, Referenced, LiveOf, LiveSettlements, ClaimedRows, Filter;
    FreshIds(k, o, v);
    IssuedCites(k, b, eng, o, v, sid, credit);
    KindsInRows(b);
    CreditIsRow(b, eng, o, v, sid, credit);
    CreditsHaveNoDup(b);
    var ids := Referenced(o, v, k.rows);
    CreditsOfSelected(k.rows, ids);
    forall t | t in Credits(b)
      ensures TxnIn(ids)(t) <==> t == credit
    {
      assert BankRow(t) in RowsOf(b);
      ClaimedRowsAre(k, b, eng, o, v, sid, credit, BankRow(t));
      assert RowId(BankRow(t)) == t.txnId;
    }
    FilterSingle(Credits(b), TxnIn(ids), credit);
  }

  lemma IssuedRows(k: Check, b: Batch, eng: Engine, o: Order, v: OrderVerdict, sid: string, credit: BankTxn)
    requires IssuedFor(k, b, eng, o, v, sid, credit)
    ensures ClaimedRows(k) == Filter(k.rows, IdIn(Referenced(o, v, k.rows)))
  {
    hide SettledOn, Fresh, Validated, RowsOf, Referenced, Filter, ClaimedRows;
    FreshIds(k, o, v);
  }

  lemma NotClaimed(k: Check, b: Batch, eng: Engine, o: Order, v: OrderVerdict, sid: string, credit: BankTxn, e: FinanceEvent)
    requires IssuedFor(k, b, eng, o, v, sid, credit) && e.TdsEvidence?
    ensures EventRow(e) !in ClaimedRows(k)
  {
    hide IssuedFor, Referenced, LiveSettlements, RowId, ClaimedRows, Filter, Touched;
    IssuedRows(k, b, eng, o, v, sid, credit);
    if EventRow(e) in k.rows {
      ClaimedRowsAre(k, b, eng, o, v, sid, credit, EventRow(e));
    }
  }

  lemma NoTdsClaimed(k: Check, b: Batch, eng: Engine, o: Order, v: OrderVerdict, sid: string, credit: BankTxn)
    requires IssuedFor(k, b, eng, o, v, sid, credit)
    ensures TdsIn(ClaimedRows(k)) == []
  {
    hide IssuedFor, ClaimedRows, TdsIn;
    EmptyOrInhabited(TdsIn(ClaimedRows(k)));
    forall e
      ensures e !in TdsIn(ClaimedRows(k))
    {
      if e.TdsEvidence? {
        NotClaimed(k, b, eng, o, v, sid, credit, e);
      }
    }
  }

  // ------------------------------------------------------------ the exact condition

  /** The gateway rows the certificate cites. */
  function CitedCaptures(b: Batch, oid: string): seq<Capture> { Filter(b.captures, Touched(b, oid)) }

  function Unsettled(b: Batch, oid: string): Capture -> bool {
    (c: Capture) => c in LiveOf(b, oid) && c.settlementId == ""
  }

  /** The order's live rows that name no settlement. */
  function LooseRows(b: Batch, oid: string): seq<Capture> { Filter(b.captures, Unsettled(b, oid)) }

  /** The order's own cited rows, whatever their status. */
  function OwnRows(b: Batch, oid: string): seq<Capture> { Filter(CitedCaptures(b, oid), OfOrder(oid)) }

  /** Calendar days from the latest of these rows to the credit. */
  function CalendarDelay(caps: seq<Capture>, credit: BankTxn): int {
    if caps == [] then 0 else CalendarDelta(LatestCapture(caps), credit.valueDate)
  }

  /**
   * The live rows name one settlement and nothing else. Only in a settlement called "None" may some of them name
   * none, and then refund and dispute rows name exactly payments that are cited, those among them.
   */
  ghost predicate Confined(b: Batch, oid: string, sid: string) {
    && (forall c :: c in LiveOf(b, oid) ==> c.settlementId == sid || c.settlementId == "")
    && (if sid == "None"
        then PaymentIdSet(LooseRows(b, oid)) <= EventPayments(RowsOf(b)) <= PaymentIdSet(CitedCaptures(b, oid))
        else LooseRows(b, oid) == [])
  }

  /** One settlement holds the live rows, something is left after refunds, and the calendar agrees with the engine. */
  ghost predicate Provable(b: Batch, o: Order, v: OrderVerdict, sid: string, credit: BankTxn) {
    && Confined(b, o.orderId, sid) && Sum(LooseRows(b, o.orderId), NetOf) == 0
    && RefundTotal(RefundsOf(b, o.orderId)) < o.amountPaise
    && (v.evidence.passUsed.Pass3SettlementId? ==> LooseRows(b, o.orderId) == [])
    && (v.evidence.passUsed.Pass2AmountDate? ==> 0 <= CalendarDelay(CitedCaptures(b, o.orderId), credit) <= 3)
    && (v.verdict.SettledClean? ==> CalendarDelay(OwnRows(b, o.orderId), credit) <= 1)
    && (v.verdict.SettledLate? ==> CalendarDelay(OwnRows(b, o.orderId), credit) > 1)
  }

  function Either<T>(p: T -> bool, q: T -> bool): T -> bool {
    x => p(x) || q(x)
  }

  lemma {:induction false} SumOfEither<T>(s: seq<T>, p: T -> bool, q: T -> bool, f: T -> int)
    requires forall x :: x in s ==> !(p(x) && q(x))
    ensures Sum(Filter(s, Either(p, q)), f) == Sum(Filter(s, p), f) + Sum(Filter(s, q), f)
  {
    if s != [] {
      assert s == [s[0]] + s[1..];
      SumOfEither(s[1..], p, q, f);
      var x := s[0];
      assert x in s;
      SumConcat([x], Filter(s[1..], Either(p, q)), f);
      SumConcat([x], Filter(s[1..], p), f);
      SumConcat([x], Filter(s[1..], q), f);
      assert Sum([x], f) == f(x) by { SumFew(x, x, x, f); }
    }
  }

  /** Rows confined to one settlement: the cited rows are its group and the loose rows. */
  lemma CitedAreGroupAndLoose(b: Batch, oid: string, sid: string)
    requires sid in LiveSettlements(b, oid) && sid != ""
    requires forall c :: c in LiveOf(b, oid) ==> c.settlementId == sid || c.settlementId == ""
    ensures CitedCaptures(b, oid) == Filter(b.captures, Either(InSettlement(sid), Unsettled(b, oid)))
    ensures Sum(CitedCaptures(b, oid), NetOf) == GroupNet(b, sid) + Sum(LooseRows(b, oid), NetOf)
    ensures LooseRows(b, oid) == [] ==> CitedCaptures(b, oid) == GroupOf(b, sid)
  {
    hide LiveOf, Filter, Sum, NetOf;
    forall c | c in b.captures
      ensures Touched(b, oid)(c) == Either(InSettlement(sid), Unsettled(b, oid))(c)
      ensures LooseRows(b, oid) == [] ==> Touched(b, oid)(c) == InSettlement(sid)(c)
    {
      FilterEmpty(b.captures, Unsettled(b, oid));
    }
    FilterAgree(b.captures, Touched(b, oid), Either(InSettlement(sid), Unsettled(b, oid)));
    SumOfEither(b.captures, InSettlement(sid), Unsettled(b, oid), NetOf);
    if LooseRows(b, oid) == [] {
      FilterAgree(b.captures, Touched(b, oid), InSettlement(sid));
    }
  }

  lemma ClaimMeans(k: Check, b: Batch, eng: Engine, o: Order, v: OrderVerdict, sid: string, credit: BankTxn)
    requires IssuedFor(k, b, eng, o, v, sid, credit)
    ensures ClaimedCaptures(k) == CitedCaptures(b, o.orderId)
    ensures RelatedTo(k, ClaimedCaptures(k)) == OwnRows(b, o.orderId) != []
    ensures GroupRows(k, sid) == GroupOf(b, sid) && GroupOf(b, sid) != [] && sid in LiveSettlements(b, o.orderId) && sid != ""
  {
    hide SettledOn, Fresh, Validated, RowsOf, LiveOf, ClaimedCaptures, Filter, LiveSettlements;
    ClaimedCapturesAre(k, b, eng, o, v, sid, credit);
    IssuedCites(k, b, eng, o, v, sid, credit);
    CreditIsRow(b, eng, o, v, sid, credit);
    KindsInRows(b);
    FreshIds(k, o, v);
    FreshAmounts(k, o, v);
    OwnIsCited(b, o.orderId, sid);
  }

  lemma OwnIsCited(b: Batch, oid: string, sid: string)
    requires sid in LiveSettlements(b, oid)
    ensures GroupOf(b, sid) != [] && OwnRows(b, oid) != []
  {
    hide LiveOf;
    var live :| live in LiveOf(b, oid) && live.settlementId == sid;
    LiveMembers(b, oid, live);
    assert InSettlement(sid)(live) && live in GroupOf(b, sid);
    assert Touched(b, oid)(live) && OfOrder(oid)(live) && live in OwnRows(b, oid);
  }

  lemma OwnRefunds(b: Batch, oid: string)
    ensures Filter(OwnRows(b, oid), IsRefund) == RefundsOf(b, oid)
  {
    FilterFilter(b.captures, Touched(b, oid), OfOrder(oid));
    FilterFilter(b.captures, Both(Touched(b, oid), OfOrder(oid)), IsRefund);
    FilterFilter(b.captures, OfOrder(oid), IsRefund);
    forall c | c in b.captures
      ensures Both(Both(Touched(b, oid), OfOrder(oid)), IsRefund)(c) == Both(OfOrder(oid), IsRefund)(c)
    {
      LiveMembers(b, oid, c);
    }
    FilterAgree(b.captures, Both(Both(Touched(b, oid), OfOrder(oid)), IsRefund), Both(OfOrder(oid), IsRefund));
  }

  // ------------------------------------------------------------ each settlement check, exactly

  /** Payment ids are distinct over the batch. */
  lemma SameCapture(b: Batch, c: Capture, d: Capture)
    requires NoDup(RowIds(RowsOf(b))) && c in b.captures && d in b.captures && c.paymentId == d.paymentId
    ensures c == d
  {
    hide RowIds;
    RowsMembers(b, CaptureRow(c));
    RowsMembers(b, CaptureRow(d));
    SameIdInRows(RowsOf(b), CaptureRow(c), CaptureRow(d));
  }

  lemma NamedAreLive(b: Batch, oid: string)
    ensures NamedGroups(CitedCaptures(b, oid)) == LiveSettlements(b, oid)
  {
    hide LiveOf, Filter;
    forall s
      ensures s in NamedGroups(CitedCaptures(b, oid)) <==> s in LiveSettlements(b, oid)
    {
      if s in LiveSettlements(b, oid) {
        var c :| c in LiveOf(b, oid) && c.settlementId == s && s != "";
        LiveMembers(b, oid, c);
        assert Touched(b, oid)(c) && c in CitedCaptures(b, oid);
      }
    }
  }

  /** The payment ids of the cited rows are those of the group and of the loose rows; the two never meet. */
  lemma CitedPayments(b: Batch, oid: string, sid: string)
    requires NoDup(RowIds(RowsOf(b))) && sid in LiveSettlements(b, oid) && sid != ""
    requires forall c :: c in LiveOf(b, oid) ==> c.settlementId == sid || c.settlementId == ""
    ensures PaymentIdSet(CitedCaptures(b, oid)) == PaymentIdSet(GroupOf(b, sid)) + PaymentIdSet(LooseRows(b, oid))
    ensures PaymentIdSet(GroupOf(b, sid)) !! PaymentIdSet(LooseRows(b, oid))
  {
    hide LiveOf, Filter, RowsOf, RowIds, LiveSettlements;
    CitedAreGroupAndLoose(b, oid, sid);
    forall p
      ensures p in PaymentIdSet(CitedCaptures(b, oid))
         <==> p in PaymentIdSet(GroupOf(b, sid)) + PaymentIdSet(LooseRows(b, oid))
      ensures !(p in PaymentIdSet(GroupOf(b, sid)) && p in PaymentIdSet(LooseRows(b, oid)))
    {
      if p in PaymentIdSet(GroupOf(b, sid)) && p in PaymentIdSet(LooseRows(b, oid)) {
        var c :| c in GroupOf(b, sid) && c.paymentId == p;
        var d :| d in LooseRows(b, oid) && d.paymentId == p;
        SameCapture(b, c, d);
      }
      if p in PaymentIdSet(CitedCaptures(b, oid)) {
        var c :| c in CitedCaptures(b, oid) && c.paymentId == p;
        assert c in GroupOf(b, sid) || c in LooseRows(b, oid);
      }
      if p in PaymentIdSet(GroupOf(b, sid)) {
        var c :| c in GroupOf(b, sid) && c.paymentId == p;
        assert c in CitedCaptures(b, oid);
      }
      if p in PaymentIdSet(LooseRows(b, oid)) {
        var c :| c in LooseRows(b, oid) && c.paymentId == p;
        assert c in CitedCaptures(b, oid);
      }
    }
  }

  lemma OneSettlementNamed(b: Batch, oid: string, sid: string)
    requires sid in LiveSettlements(b, oid)
    ensures |LiveSettlements(b, oid)| == 1
       <==> forall c :: c in LiveOf(b, oid) ==> c.settlementId == sid || c.settlementId == ""
  {
    hide LiveOf;
    var names := LiveSettlements(b, oid);
    if |names| == 1 {
      var name := OneName(names);
      forall c | c in LiveOf(b, oid)
        ensures c.settlementId == sid || c.settlementId == ""
      {
        assert c.settlementId != "" ==> c.settlementId in names;
      }
    }
    if forall c :: c in LiveOf(b, oid) ==> c.settlementId == sid || c.settlementId == "" {
      assert names == {sid};
    }
  }

  lemma MembershipExact(k: Check, b: Batch, eng: Engine, o: Order, v: OrderVerdict, sid: string, credit: BankTxn)
    requires IssuedFor(k, b, eng, o, v, sid, credit)
    ensures MembershipHolds(k, ClaimedCaptures(k)) <==> Confined(b, o.orderId, sid)
  {
    hide Fresh, Validated, RowsOf, SettledOn, LiveOf, ClaimedCaptures, CompleteGroupIds, EventPayments, GroupRows,
         GroupOf, NamedGroups, PaymentIdSet, LiveSettlements, LooseRows, CitedCaptures, RowIds;
    var oid := o.orderId;
    ClaimMeans(k, b, eng, o, v, sid, credit);
    IssuedCites(k, b, eng, o, v, sid, credit);
    FreshAmounts(k, o, v);
    NamedAreLive(b, oid);
    OneSettlementNamed(b, oid, sid);
    CompleteIdsMeaning(k, sid);
    OwnRowNamesOrder(k, b, oid);
    if forall c :: c in LiveOf(b, oid) ==> c.settlementId == sid || c.settlementId == "" {
      assert LiveSettlements(b, oid) == {sid} by { SingleName(LiveSettlements(b, oid), sid); }
      CitedPayments(b, oid, sid);
      LooseIsEmpty(b, oid);
    }
  }

  lemma SingleName(names: set<string>, sid: string)
    requires |names| == 1 && sid in names
    ensures names == {sid}
  {
    var name := OneName(names);
  }

  lemma LooseIsEmpty(b: Batch, oid: string)
    ensures PaymentIdSet(LooseRows(b, oid)) == {} <==> LooseRows(b, oid) == []
  {
    var loose := LooseRows(b, oid);
    if loose != [] {
      assert loose[0] in loose && loose[0].paymentId in PaymentIdSet(loose);
    }
  }

  lemma OwnRowNamesOrder(k: Check, b: Batch, oid: string)
    requires OwnRows(b, oid) != []
    ensures exists c :: c in CitedCaptures(b, oid) && c.orderId == oid
  {
    var own := OwnRows(b, oid);
    assert own[0] in own && OfOrder(oid)(own[0]);
  }

  /** The receipt always matches: every refund of the order is cited. */
  lemma ReceiptHolds(k: Check, b: Batch, eng: Engine, o: Order, v: OrderVerdict, sid: string, credit: BankTxn)
    requires IssuedFor(k, b, eng, o, v, sid, credit)
    ensures ReceivedMatches(k, ClaimedCaptures(k))
  {
    hide Fresh, Validated, RowsOf, LiveOf, ClaimedCaptures, InvoiceOf, HitEvidence, EngineDelta, LatestCapture,
         RefundTotal, Filter, PaymentIds;
    ClaimMeans(k, b, eng, o, v, sid, credit);
    FreshSources(k, o, v);
    FreshAmounts(k, o, v);
    OwnRefunds(b, o.orderId);
  }

  lemma EquationExact(k: Check, b: Batch, eng: Engine, o: Order, v: OrderVerdict, sid: string, credit: BankTxn)
    requires IssuedFor(k, b, eng, o, v, sid, credit) && Confined(b, o.orderId, sid)
    ensures Sum(ClaimedCaptures(k), NetOf) == credit.amountPaise <==> Sum(LooseRows(b, o.orderId), NetOf) == 0
  {
    hide Fresh, Validated, RowsOf, LiveOf, ClaimedCaptures, Filter, Sum, PaymentIds, EngineDelta, LatestCapture,
         RefundTotal, CitedCaptures, LooseRows, LiveSettlements;
    ClaimMeans(k, b, eng, o, v, sid, credit);
    CitedAreGroupAndLoose(b, o.orderId, sid);
    GroupBalances(b, eng, o, v, sid, credit);
  }

  lemma CitedAreValid(b: Batch, oid: string)
    requires Validated(b) && OwnRows(b, oid) != []
    ensures CitedCaptures(b, oid) != []
    ensures ValidDate(LatestCapture(CitedCaptures(b, oid))) && ValidDate(LatestCapture(OwnRows(b, oid)))
    ensures forall c :: c in CitedCaptures(b, oid) ==> ValidDate(c.capturedAt)
  {
    hide ValidDate, LatestCapture, Validated;
    assert OwnRows(b, oid)[0] in OwnRows(b, oid);
    LatestIsValid(b, CitedCaptures(b, oid));
    LatestIsValid(b, OwnRows(b, oid));
  }

  lemma SettlementIdsOfCited(b: Batch, oid: string, sid: string)
    requires sid in LiveSettlements(b, oid) && sid != ""
    requires forall c :: c in LiveOf(b, oid) ==> c.settlementId == sid || c.settlementId == ""
    ensures SettlementIdSet(CitedCaptures(b, oid)) == {sid} <==> LooseRows(b, oid) == []
    ensures forall c :: c in GroupOf(b, sid) ==> c in CitedCaptures(b, oid)
  {
    hide LiveOf, Filter;
    CitedAreGroupAndLoose(b, oid, sid);
    var loose, cited := LooseRows(b, oid), CitedCaptures(b, oid);
    forall c | c in GroupOf(b, sid)
      ensures c in cited
    {
      assert InSettlement(sid)(c);
    }
    if loose != [] {
      var c := loose[0];
      assert c in loose && Unsettled(b, oid)(c) && c in cited;
      assert "" in SettlementIdSet(cited);
    } else {
      assert forall c :: c in cited ==> InSettlement(sid)(c);
      var live :| live in LiveOf(b, oid) && live.settlementId == sid;
      LiveMembers(b, oid, live);
      assert InSettlement(sid)(live) && live in cited;
    }
  }

  lemma PassEvidenceExact(k: Check, b: Batch, eng: Engine, o: Order, v: OrderVerdict, sid: string, credit: BankTxn)
    requires IssuedFor(k, b, eng, o, v, sid, credit) && Confined(b, o.orderId, sid)
    ensures CitedCaptures(b, o.orderId) != []
    ensures PassEvidenceHolds(k, v.evidence.passUsed, CitedCaptures(b, o.orderId), credit)
       <==> && (v.evidence.passUsed.Pass3SettlementId? ==> LooseRows(b, o.orderId) == [])
            && (v.evidence.passUsed.Pass2AmountDate? ==> 0 <= CalendarDelay(CitedCaptures(b, o.orderId), credit) <= 3)
  {
    hide Fresh, RowsOf, LiveOf, EngineDelta, LatestCapture, RefundTotal, RefundsOf, PaymentIds, Sum, Validated,
         CalendarDelta, CitedCaptures, LooseRows, OwnRows, LiveSettlements, SettlementIdSet, Filter, ValidDate;
    ClaimMeans(k, b, eng, o, v, sid, credit);
    CitedAreValid(b, o.orderId);
    GroupBalances(b, eng, o, v, sid, credit);
    BankDatesValid(b, credit);
    SettlementIdsOfCited(b, o.orderId, sid);
  }

  lemma DelayExact(k: Check, b: Batch, eng: Engine, o: Order, v: OrderVerdict, sid: string, credit: BankTxn)
    requires IssuedFor(k, b, eng, o, v, sid, credit)
    ensures !NoDelay(k, ClaimedCaptures(k), credit)
    ensures !DelayContradicts(k, ClaimedCaptures(k), credit)
       <==> && (v.verdict.SettledClean? ==> CalendarDelay(OwnRows(b, o.orderId), credit) <= 1)
            && (v.verdict.SettledLate? ==> CalendarDelay(OwnRows(b, o.orderId), credit) > 1)
  {
    hide Fresh, RowsOf, LiveOf, EngineDelta, LatestCapture, RefundTotal, RefundsOf, PaymentIds, Sum, Validated,
         CalendarDelta, ClaimedCaptures, SettledOn, OwnRows, CitedCaptures, ValidDate, Filter;
    ClaimMeans(k, b, eng, o, v, sid, credit);
    FreshRules(k, o, v);
    GroupBalances(b, eng, o, v, sid, credit);
    BankDatesValid(b, credit);
    CitedAreValid(b, o.orderId);
  }

  // ------------------------------------------------------------ only if

  lemma AcceptedIsProvable(k: Check, b: Batch, eng: Engine, o: Order, v: OrderVerdict, sid: string, credit: BankTxn)
    requires IssuedFor(k, b, eng, o, v, sid, credit) && Accepts(k)
    ensures Provable(b, o, v, sid, credit)
  {
    hide Accepts, Fresh, Validated, RowsOf, LiveOf, ClaimedCaptures, ClaimedCredits, MembershipHolds,
         ReceivedMatches, HitEvidence, TheRecon, LatestCapture, CalendarDelta, EngineDelta, RefundTotal, Filter,
         RefundsOf, InvoiceOf, CitedCaptures, OwnRows, LooseRows, Confined, PassEvidenceHolds, NoDelay,
         DelayContradicts, Sum;
    FreshRules(k, o, v);
    FreshAmounts(k, o, v);
    ClaimedCreditIs(k, b, eng, o, v, sid, credit);
    ClaimMeans(k, b, eng, o, v, sid, credit);
    var c := AcceptedSettlementFacts(k);
    assert c == credit;
    MembershipExact(k, b, eng, o, v, sid, credit);
    EquationExact(k, b, eng, o, v, sid, credit);
    PassEvidenceExact(k, b, eng, o, v, sid, credit);
    DelayExact(k, b, eng, o, v, sid, credit);
    AcceptedRules(k);
  }

  // ------------------------------------------------------------ if

  lemma SettledClaimRisk(k: Check, b: Batch, eng: Engine, o: Order, v: OrderVerdict, sid: string, credit: BankTxn)
    requires IssuedFor(k, b, eng, o, v, sid, credit)
    ensures EnvelopeErrors(k) == {}
  {
    hide Fresh, Validated, RowsOf, LiveOf, HitEvidence, LatestCapture, EngineDelta, RefundTotal, Filter, RefundsOf;
    FreshAmounts(k, o, v);
  }

  lemma SettledInvariant(k: Check, b: Batch, eng: Engine, o: Order, v: OrderVerdict, sid: string, credit: BankTxn)
    requires SettledOn(b, eng, o, v, sid, credit) && RefundTotal(RefundsOf(b, o.orderId)) < o.amountPaise
    requires ClaimsSame(k, o, v) && Validated(b) && o in b.orders
    ensures !InvariantBroken(k) && !VerdictAmountWrong(k, o.amountPaise)
  {
    hide LiveOf, HitEvidence, LatestCapture, EngineDelta, RefundTotal, Filter, PaymentIds, Validated, RefundsOf,
         AmountsByName;
    RefundsAreSigned(b, o);
  }

  lemma SettledRules(k: Check, b: Batch, eng: Engine, o: Order, v: OrderVerdict, sid: string, credit: BankTxn)
    requires IssuedFor(k, b, eng, o, v, sid, credit) && RefundTotal(RefundsOf(b, o.orderId)) < o.amountPaise
    ensures RuleErrors(k) == {}
    ensures InvoiceOf(k).Some? && !VerdictAmountWrong(k, InvoiceOf(k).value)
  {
    hide Fresh, RowsOf, SettledOn, InvoiceOf, TheRecon, InvariantBroken, VerdictAmountWrong, Validated, RefundTotal,
         RefundsOf, RuleAllowed;
    FreshAmounts(k, o, v);
    FreshRules(k, o, v);
    FreshSources(k, o, v);
    VerdictShape(k, b, eng, o, v, sid, credit);
    SettledInvariant(k, b, eng, o, v, sid, credit);
  }

  lemma RefundsAreSigned(b: Batch, o: Order)
    requires Validated(b)
    ensures RefundTotal(RefundsOf(b, o.orderId)) >= 0
    ensures RefundTotal(RefundsOf(b, o.orderId)) > 0 <==> RefundsOf(b, o.orderId) != []
  {
    if RefundsOf(b, o.orderId) != [] {
      OrderRefundsPositive(b, o);
    }
  }

  lemma {:induction false} GatewayTermOf(cs: seq<Capture>, t: AmountTerm)
    ensures t in GatewayTerms(cs) ==> exists c :: c in cs && t in CaptureTerms(c)
  {
    hide CaptureTerms;
    if cs != [] {
      var rest, last := cs[..|cs| - 1], cs[|cs| - 1];
      GatewayTermOf(rest, t);
      assert cs == rest + [last];
    }
  }

  /** A term over a claimed row's own column passes the term check. */
  lemma SourcedTermFits(k: Check, r: Row, t: AmountTerm)
    requires r in ClaimedRows(k) && t.sourceRowId == RowId(r)
    requires !t.name.DeltaDue? && !t.name.MoneyReceived?
    requires IntField(r, t.sourceField).Some?
    requires Abs(t.amountPaise) == Abs(IntField(r, t.sourceField).value)
    ensures t.sourceRowId != "" ==> TermHasSource(k, t)
    ensures !TermMismatch(k, t)
  {
    hide IntField, RowId, Indexed, Uniques;
    UniquesAreIndexed(k.rows);
    assert r in Uniques(k.rows) && IdIn(ClaimedIds(k))(r);
  }

  lemma CaptureTermFits(k: Check, c: Capture, t: AmountTerm)
    requires c in ClaimedCaptures(k) && t in CaptureTerms(c)
    ensures t.sourceRowId != "" ==> TermHasSource(k, t)
    ensures !TermMismatch(k, t)
  {
    hide ClaimedRows, TermHasSource, TermMismatch;
    SourcedTermFits(k, CaptureRow(c), t);
  }

  /** Invoice, receipt and, for a partial payment, the remaining debt. */
  lemma SettledVerdictTerms(o: Order, v: OrderVerdict, rows: seq<Row>)
    requires v.verdict.SettledClean? || v.verdict.SettledLate? || v.verdict.PartiallyPaid?
    requires v.moneyReceivedPaise + v.deltaDuePaise == o.amountPaise
    requires !v.verdict.PartiallyPaid? ==> v.deltaDuePaise == 0
    ensures VerdictTerms(o, v, rows).Ok?
    ensures Sum(VerdictTerms(o, v, rows).value, TermAmount) == 0
    ensures forall t :: t in VerdictTerms(o, v, rows).value ==>
              || t == AmountTerm(InvoiceTerm, o.amountPaise, o.orderId, AmountField)
              || t == AmountTerm(MoneyReceived, -v.moneyReceivedPaise, "", NoField)
              || t == AmountTerm(DeltaDue, -v.deltaDuePaise, "", NoField)
  {
    var terms := VerdictTerms(o, v, rows).value;
    SumFew(terms[0], terms[1], AmountTerm(DeltaDue, -v.deltaDuePaise, "", NoField), TermAmount);
  }

  lemma {:induction false} GatewayTermsSum(cs: seq<Capture>)
    ensures Sum(GatewayTerms(cs), TermAmount) == Sum(cs, NetOf)
  {
    if cs != [] {
      var rest, last := cs[..|cs| - 1], cs[|cs| - 1];
      GatewayTermsSum(rest);
      SumConcat(GatewayTerms(rest), CaptureTerms(last), TermAmount);
      CaptureTermsSum(last);
      SumSnoc(rest, last, NetOf);
      assert cs == rest + [last];
    }
  }

  lemma CaptureTermsSum(c: Capture)
    ensures Sum(CaptureTerms(c), TermAmount) == NetOf(c)
  {
    var ts := CaptureTerms(c);
    SumFew(ts[0], ts[1], ts[2], TermAmount);
    assert ts == [ts[0], ts[1], ts[2]];
  }

  /** The terms of a settlement certificate cancel: group net against the credit, invoice against receipt and debt. */
  lemma EvidenceTermsSum(caps: seq<Capture>, credit: BankTxn)
    requires Sum(caps, NetOf) == credit.amountPaise
    ensures Sum(GatewayTerms(ByPayment(caps)) + CreditTerms(ByTxn([credit])), TermAmount) == 0
  {
    GatewayTermsSum(ByPayment(caps));
    Sorting.SortPermutes(caps, PaymentLe);
    SumPermutation(ByPayment(caps), caps, NetOf);
    Sorting.SortOne(credit, TxnLe);
    assert CreditTerms([credit]) == [CreditTerm(credit)];
    SumSnoc([], CreditTerm(credit), TermAmount);
    assert [] + [CreditTerm(credit)] == [CreditTerm(credit)];
    SumConcat(GatewayTerms(ByPayment(caps)), [CreditTerm(credit)], TermAmount);
  }

  lemma SettledTerms(k: Check, b: Batch, eng: Engine, o: Order, v: OrderVerdict, sid: string, credit: BankTxn)
    requires IssuedFor(k, b, eng, o, v, sid, credit)
    ensures k.cert.claim.amountTerms == VerdictTerms(o, v, ClaimedRows(k)).value
                                        + (GatewayTerms(ByPayment(ClaimedCaptures(k))) + CreditTerms(ByTxn([credit])))
    ensures VerdictTerms(o, v, ClaimedRows(k)).Ok?
  {
    hide Fresh, Validated, RowsOf, LiveOf, HitEvidence, LatestCapture, EngineDelta, RefundTotal, Filter, ClaimedRows,
         GatewayTerms, CreditTerms, ByPayment, ByTxn, VerdictTerms, RefundsOf;
    FreshAmounts(k, o, v);
    ClaimedCreditIs(k, b, eng, o, v, sid, credit);
  }

  lemma VerdictShape(k: Check, b: Batch, eng: Engine, o: Order, v: OrderVerdict, sid: string, credit: BankTxn)
    requires IssuedFor(k, b, eng, o, v, sid, credit)
    ensures v.verdict.SettledClean? || v.verdict.SettledLate? || v.verdict.PartiallyPaid?
    ensures v.moneyReceivedPaise + v.deltaDuePaise == o.amountPaise
    ensures !v.verdict.PartiallyPaid? ==> v.deltaDuePaise == 0
    ensures IsSettlementPass(v.evidence.passUsed)
  {
    hide Fresh, RowsOf, LiveOf, HitEvidence, LatestCapture, EngineDelta, Filter, PaymentIds, Validated;
  }

  /** The claim of a settlement verdict, with the terms the writer would give it over the claimed rows. */
  ghost predicate SettlementClaim(k: Check, o: Order, v: OrderVerdict, credit: BankTxn) {
    && ClaimsSame(k, o, v) && OrderRow(o) in ClaimedRows(k) && ClaimedCredits(k) == [credit]
    && (v.verdict.SettledClean? || v.verdict.SettledLate? || v.verdict.PartiallyPaid?)
    && v.moneyReceivedPaise + v.deltaDuePaise == o.amountPaise && (!v.verdict.PartiallyPaid? ==> v.deltaDuePaise == 0)
    && VerdictTerms(o, v, ClaimedRows(k)).Ok?
    && k.cert.claim.amountTerms == VerdictTerms(o, v, ClaimedRows(k)).value
                                   + (GatewayTerms(ByPayment(ClaimedCaptures(k))) + CreditTerms(ByTxn([credit])))
  }

  lemma IssuedIsClaim(k: Check, b: Batch, eng: Engine, o: Order, v: OrderVerdict, sid: string, credit: BankTxn)
    requires IssuedFor(k, b, eng, o, v, sid, credit)
    ensures SettlementClaim(k, o, v, credit)
  {
    hide SettledOn, Validated, RowsOf, ClaimedCaptures, ClaimedRows, GatewayTerms, CreditTerms, VerdictTerms,
         ByPayment, ByTxn, Fresh, Filter;
    SettledTerms(k, b, eng, o, v, sid, credit);
    VerdictShape(k, b, eng, o, v, sid, credit);
    ClaimedCreditIs(k, b, eng, o, v, sid, credit);
    OrderRowClaimed(k, o, v);
    FreshAmounts(k, o, v);
    FreshRules(k, o, v);
  }

  lemma OrderRowClaimed(k: Check, o: Order, v: OrderVerdict)
    requires Fresh(k, o, v)
    ensures OrderRow(o) in ClaimedRows(k)
  {
    hide Fresh, ClaimedRows, Filter, Referenced, Indexed;
    FreshIds(k, o, v);
    FreshIsKeyed(k, o, v);
    OrderIsReferenced(o, v, k.rows);
    assert RowId(OrderRow(o)) == o.orderId;
    assert IdIn(Referenced(o, v, k.rows))(OrderRow(o));
  }

  lemma VerdictTermFits(k: Check, o: Order, v: OrderVerdict, t: AmountTerm)
    requires ClaimsSame(k, o, v) && OrderRow(o) in ClaimedRows(k)
    requires || t == AmountTerm(InvoiceTerm, o.amountPaise, o.orderId, AmountField)
             || t == AmountTerm(MoneyReceived, -v.moneyReceivedPaise, "", NoField)
             || t == AmountTerm(DeltaDue, -v.deltaDuePaise, "", NoField)
    ensures (t.sourceRowId != "" ==> TermHasSource(k, t)) && !TermMismatch(k, t)
  {
    hide ClaimedRows, Indexed, TermHasSource;
    if t.name.InvoiceTerm? {
      assert RowId(OrderRow(o)) == o.orderId;
      SourcedTermFits(k, OrderRow(o), t);
    }
  }

  lemma CreditTermFits(k: Check, credit: BankTxn, t: AmountTerm)
    requires ClaimedCredits(k) == [credit] && t in CreditTerms(ByTxn([credit]))
    ensures (t.sourceRowId != "" ==> TermHasSource(k, t)) && !TermMismatch(k, t)
  {
    hide ClaimedRows, TermHasSource, TermMismatch;
    Sorting.SortOne(credit, TxnLe);
    assert CreditTerms([credit]) == [CreditTerm(credit)];
    assert credit in ClaimedCredits(k);
    SourcedTermFits(k, BankRow(credit), t);
  }

  lemma SettlementTermFits(k: Check, o: Order, v: OrderVerdict, credit: BankTxn, t: AmountTerm)
    requires SettlementClaim(k, o, v, credit) && t in k.cert.claim.amountTerms
    ensures (t.sourceRowId != "" ==> TermHasSource(k, t)) && !TermMismatch(k, t)
  {
    hide ClaimedCaptures, ClaimedRows, ClaimedCredits, GatewayTerms, CreditTerms, VerdictTerms, CaptureTerms,
         TermHasSource, TermMismatch;
    if t in VerdictTerms(o, v, ClaimedRows(k)).value {
      SettledVerdictTerms(o, v, ClaimedRows(k));
      VerdictTermFits(k, o, v, t);
    } else if t in GatewayTerms(ByPayment(ClaimedCaptures(k))) {
      GatewayTermOf(ByPayment(ClaimedCaptures(k)), t);
      Sorting.SortElems(ClaimedCaptures(k), PaymentLe);
      var c :| c in ByPayment(ClaimedCaptures(k)) && t in CaptureTerms(c);
      assert c in Elems(ByPayment(ClaimedCaptures(k)));
      CaptureTermFits(k, c, t);
    } else {
      CreditTermFits(k, credit, t);
    }
  }

  lemma SettlementTermErrors(k: Check, o: Order, v: OrderVerdict, credit: BankTxn)
    requires SettlementClaim(k, o, v, credit)
    ensures TermErrors(k) == {}
  {
    hide SettlementClaim, TermHasSource, TermMismatch;
    forall t | t in k.cert.claim.amountTerms
      ensures (t.sourceRowId != "" ==> TermHasSource(k, t)) && !TermMismatch(k, t)
    {
      SettlementTermFits(k, o, v, credit, t);
    }
  }

  lemma SettlementTermsCancel(k: Check, o: Order, v: OrderVerdict, credit: BankTxn)
    requires SettlementClaim(k, o, v, credit) && Sum(ClaimedCaptures(k), NetOf) == credit.amountPaise
    ensures Sum(k.cert.claim.amountTerms, TermAmount) == 0
  {
    hide ClaimedCaptures, ClaimedRows, GatewayTerms, CreditTerms, VerdictTerms, ByPayment, ByTxn, Sum,
         ClaimedCredits;
    SettledVerdictTerms(o, v, ClaimedRows(k));
    var caps := ClaimedCaptures(k);
    EvidenceTermsSum(caps, credit);
    SumConcat(VerdictTerms(o, v, ClaimedRows(k)).value,
              GatewayTerms(ByPayment(caps)) + CreditTerms(ByTxn([credit])), TermAmount);
  }

  lemma SettledAmountErrors(k: Check, b: Batch, eng: Engine, o: Order, v: OrderVerdict, sid: string, credit: BankTxn)
    requires IssuedFor(k, b, eng, o, v, sid, credit) && Provable(b, o, v, sid, credit)
    ensures AmountErrors(k) == {}
  {
    hide ClaimedCaptures, SettledOn, Sum, Fresh, Validated, RowsOf, InvoiceOf, VerdictAmountWrong, CalendarDelay,
         LiveOf, Confined, LooseRows, CitedCaptures, OwnRows, SettlementClaim;
    EquationExact(k, b, eng, o, v, sid, credit);
    SettledRules(k, b, eng, o, v, sid, credit);
    IssuedIsClaim(k, b, eng, o, v, sid, credit);
    SettlementTermsCancel(k, o, v, credit);
  }

  lemma GroupBalances(b: Batch, eng: Engine, o: Order, v: OrderVerdict, sid: string, credit: BankTxn)
    requires SettledOn(b, eng, o, v, sid, credit)
    ensures GroupOf(b, sid) != [] && Sum(GroupOf(b, sid), NetOf) == credit.amountPaise && sid != ""
    ensures credit in b.bank
  {
    hide Filter, Sum, LiveOf, PaymentIds, RefundTotal, EngineDelta, LatestCapture, RefundsOf;
  }

  // ------------------------------------------------------------ the settlement evidence of an issued certificate

  lemma LatestIsValid(b: Batch, caps: seq<Capture>)
    requires Validated(b) && caps != [] && forall c :: c in caps ==> c in b.captures
    ensures ValidDate(LatestCapture(caps))
    ensures forall c :: c in caps ==> ValidDate(c.capturedAt)
  {
    hide ValidDate;
    forall c | c in caps
      ensures ValidDate(c.capturedAt)
    {
      assert c in b.captures && ValidCapture(c);
    }
    LatestIsCaptured(caps);
  }

  lemma LatestIsCaptured(caps: seq<Capture>)
    requires caps != []
    ensures exists c :: c in caps && c.capturedAt == LatestCapture(caps)
  {
    var dates := Map(caps, CapturedOn);
    var i :| 0 <= i < |dates| && dates[i] == LatestCapture(caps);
    assert caps[i] in caps;
  }

  lemma BankDatesValid(b: Batch, t: BankTxn)
    requires Validated(b) && t in b.bank
    ensures ValidDate(t.valueDate)
  {
    assert ValidBankTxn(t);
  }

  lemma SettledEvidence(k: Check, b: Batch, eng: Engine, o: Order, v: OrderVerdict, sid: string, credit: BankTxn)
    requires IssuedFor(k, b, eng, o, v, sid, credit) && Provable(b, o, v, sid, credit)
    ensures EvidenceErrors(k) == {} && !Raises(k)
  {
    hide Fresh, RowsOf, Validated, ClaimedCaptures, ClaimedCredits, MembershipHolds, ReceivedMatches,
         PassEvidenceHolds, NoDelay, DelayContradicts, SettledOn, TheRecon, Sum, CalendarDelay, RefundTotal,
         RefundsOf, Confined, LooseRows, CitedCaptures, OwnRows;
    FreshRules(k, o, v);
    VerdictShape(k, b, eng, o, v, sid, credit);
    ClaimMeans(k, b, eng, o, v, sid, credit);
    ClaimedCreditIs(k, b, eng, o, v, sid, credit);
    MembershipExact(k, b, eng, o, v, sid, credit);
    ReceiptHolds(k, b, eng, o, v, sid, credit);
    EquationExact(k, b, eng, o, v, sid, credit);
    PassEvidenceExact(k, b, eng, o, v, sid, credit);
    DelayExact(k, b, eng, o, v, sid, credit);
  }

  lemma ProvableIsAccepted(k: Check, b: Batch, eng: Engine, o: Order, v: OrderVerdict, sid: string, credit: BankTxn)
    requires IssuedFor(k, b, eng, o, v, sid, credit) && Provable(b, o, v, sid, credit)
    ensures Accepts(k)
  {
    hide Fresh, RowsOf, Validated, SettledOn, Raises, EnvelopeErrors, SourceErrors, TdsErrors, TermErrors,
         AmountErrors, RuleErrors, SchemaErrors, EvidenceErrors, ExpectationErrors, CalendarDelay, RefundTotal,
         RefundsOf, Confined, LooseRows, CitedCaptures, OwnRows, SettlementClaim;
    SettledClaimRisk(k, b, eng, o, v, sid, credit);
    FreshSources(k, o, v);
    NothingUnsound(k, b, eng, o, v, sid, credit);
    IssuedIsClaim(k, b, eng, o, v, sid, credit);
    SettlementTermErrors(k, o, v, credit);
    SettledAmountErrors(k, b, eng, o, v, sid, credit);
    SettledRules(k, b, eng, o, v, sid, credit);
    VerdictShape(k, b, eng, o, v, sid, credit);
    FreshSchema(k, o, v);
    SettledEvidence(k, b, eng, o, v, sid, credit);
  }

  lemma NothingUnsound(k: Check, b: Batch, eng: Engine, o: Order, v: OrderVerdict, sid: string, credit: BankTxn)
    requires IssuedFor(k, b, eng, o, v, sid, credit)
    ensures TdsErrors(k) == {}
  {
    hide IssuedFor, SoundTds, ClaimedRows;
    NoTdsClaimed(k, b, eng, o, v, sid, credit);
  }

  // ------------------------------------------------------------ main results

  /**
   * For every run and every order that passes 1 to 3 resolved: the certificate issued for it is accepted exactly
   * when its condition on the rows holds.
   */
  lemma SettlementCertificateVerified(b: Batch, eng: Engine, cfg: Config, r: Run, o: Order, k: Check)
    returns (sid: string, credit: BankTxn)
    requires IsRun(b, eng, cfg, r) && o in b.orders
    requires IsSettlementPass(r.verdicts[o.orderId].evidence.passUsed)
    requires Fresh(k, o, r.verdicts[o.orderId]) && k.rows == RowsOf(b) && k.reader.settlementOf == eng.settlementOf
    ensures SettledOn(b, eng, o, r.verdicts[o.orderId], sid, credit)
    ensures Filter(CapsOf(b, o.orderId), IsCaptured) != [] && sid == Filter(CapsOf(b, o.orderId), IsCaptured)[0].settlementId
    ensures sid in r.settled.hits && credit == r.settled.hits[sid].credit
    ensures Accepts(k) <==> Provable(b, o, r.verdicts[o.orderId], sid, credit)
  {
    hide Fresh, RowsOf, SettledOn, Accepts, Provable, Resolve;
    RunIsValidated(b, eng, cfg, r);
    sid, credit := RunSettles(b, eng, cfg, r, o);
    var v := r.verdicts[o.orderId];
    if Accepts(k) {
      AcceptedIsProvable(k, b, eng, o, v, sid, credit);
    }
    if Provable(b, o, v, sid, credit) {
      ProvableIsAccepted(k, b, eng, o, v, sid, credit);
    }
  }

  // ------------------------------------------------------------ conditions on the rows

  ghost predicate LiveInGroup(b: Batch, oid: string, sid: string) {
    forall c :: c in LiveOf(b, oid) ==> c.settlementId == sid
  }

  /**
   * All live rows in one settlement and failed rows in none, refunds below the invoice, dates between which engine and
   * calendar count alike, and no refund or dispute row that drags a payment into a settlement called "None".
   */
  ghost predicate PlainlySettled(b: Batch, o: Order, sid: string, credit: BankTxn) {
    && LiveInGroup(b, o.orderId, sid)
    && (forall c :: c in CapsOf(b, o.orderId) && IsFailed(c) ==> c.settlementId == "")
    && RefundTotal(RefundsOf(b, o.orderId)) < o.amountPaise
    && (sid == "None" ==> EventPayments(RowsOf(b)) <= PaymentIdSet(GroupOf(b, sid)))
    && (forall caps :: caps == GroupOf(b, sid) || caps == Filter(CapsOf(b, o.orderId), IsCaptured) ==>
          caps != [] && (CountersMeet(LatestCapture(caps), credit.valueDate)
                         || CountersMeet(credit.valueDate, LatestCapture(caps))))
  }

  /** The settlement of the order's first captured row was joined, and the order is plainly settled by its credit. */
  ghost predicate PlainlyHit(b: Batch, r: Run, o: Order) {
    var captured := Filter(CapsOf(b, o.orderId), IsCaptured);
    && captured != [] && captured[0].settlementId in r.settled.hits
    && PlainlySettled(b, o, captured[0].settlementId, r.settled.hits[captured[0].settlementId].credit)
  }

  lemma NothingLoose(b: Batch, oid: string, sid: string)
    requires LiveInGroup(b, oid, sid) && sid != ""
    ensures LooseRows(b, oid) == []
  {
    hide LiveOf;
    FilterEmpty(b.captures, Unsettled(b, oid));
  }

  lemma OwnCapturedRows(b: Batch, oid: string, sid: string)
    requires LiveInGroup(b, oid, sid) && sid in LiveSettlements(b, oid) && sid != "" && RefundsOf(b, oid) == []
    requires Filter(CapsOf(b, oid), IsChargeback) == []
    requires forall c :: c in CapsOf(b, oid) && IsFailed(c) ==> c.settlementId == ""
    ensures OwnRows(b, oid) == Filter(CapsOf(b, oid), IsCaptured)
  {
    hide LiveOf, Filter;
    FilterFilter(b.captures, Touched(b, oid), OfOrder(oid));
    FilterFilter(b.captures, OfOrder(oid), IsCaptured);
    FilterEmpty(CapsOf(b, oid), IsChargeback);
    FilterEmpty(CapsOf(b, oid), IsRefund);
    forall c | c in b.captures
      ensures Both(Touched(b, oid), OfOrder(oid))(c) == Both(OfOrder(oid), IsCaptured)(c)
    {
      LiveMembers(b, oid, c);
      assert OfOrder(oid)(c) <==> c in CapsOf(b, oid);
    }
    FilterAgree(b.captures, Both(Touched(b, oid), OfOrder(oid)), Both(OfOrder(oid), IsCaptured));
  }

  /** Under these conditions on the rows a settled order's certificate is provable. */
  lemma OneSettlementIsProvable(b: Batch, eng: Engine, o: Order, v: OrderVerdict, sid: string, credit: BankTxn)
    requires Validated(b) && SettledOn(b, eng, o, v, sid, credit) && PlainlySettled(b, o, sid, credit)
    ensures Provable(b, o, v, sid, credit)
  {
    hide LatestCapture, RefundTotal, PaymentIds, Sum, LiveInGroup, LiveOf, RefundsOf, EngineDelta, CalendarDelta,
         CountersMeet, Validated, Filter, RowsOf, EventPayments, LiveSettlements, CitedCaptures, LooseRows, OwnRows;
    var oid := o.orderId;
    SettledIsLive(b, eng, o, v, sid, credit);
    NothingLoose(b, oid, sid);
    ConfinedPlainly(b, o, sid, credit);
    CitedAreGroupAndLoose(b, oid, sid);
    PlainDates(b, eng, o, v, sid, credit);
    if RefundsOf(b, oid) == [] {
      OwnCapturedRows(b, oid, sid);
    }
  }

  lemma SettledIsLive(b: Batch, eng: Engine, o: Order, v: OrderVerdict, sid: string, credit: BankTxn)
    requires SettledOn(b, eng, o, v, sid, credit)
    ensures sid in LiveSettlements(b, o.orderId) && sid != "" && credit in b.bank
  {
    hide LatestCapture, RefundTotal, PaymentIds, EngineDelta;
    var captured := Filter(CapsOf(b, o.orderId), IsCaptured);
    assert captured[0] in LiveOf(b, o.orderId);
  }

  lemma ConfinedPlainly(b: Batch, o: Order, sid: string, credit: BankTxn)
    requires PlainlySettled(b, o, sid, credit) && LooseRows(b, o.orderId) == []
    requires sid in LiveSettlements(b, o.orderId) && sid != ""
    ensures Confined(b, o.orderId, sid) && (forall c :: c in LiveOf(b, o.orderId) ==> c.settlementId == sid)
    ensures Sum(LooseRows(b, o.orderId), NetOf) == 0
  {
    hide LiveOf, Filter, CountersMeet, LatestCapture, RowsOf, EventPayments, RefundTotal, CitedCaptures, LooseRows;
    CitedAreGroupAndLoose(b, o.orderId, sid);
    LooseIsEmpty(b, o.orderId);
  }

  lemma PlainDates(b: Batch, eng: Engine, o: Order, v: OrderVerdict, sid: string, credit: BankTxn)
    requires Validated(b) && SettledOn(b, eng, o, v, sid, credit) && PlainlySettled(b, o, sid, credit)
    ensures GroupOf(b, sid) != [] && Filter(CapsOf(b, o.orderId), IsCaptured) != []
    ensures EngineDelta(LatestCapture(GroupOf(b, sid)), credit.valueDate)
         == CalendarDelta(LatestCapture(GroupOf(b, sid)), credit.valueDate)
    ensures EngineDelta(LatestCapture(Filter(CapsOf(b, o.orderId), IsCaptured)), credit.valueDate)
         == CalendarDelta(LatestCapture(Filter(CapsOf(b, o.orderId), IsCaptured)), credit.valueDate)
  {
    hide LatestCapture, RefundTotal, PaymentIds, Sum, LiveInGroup, LiveOf, RefundsOf, EngineDelta, CalendarDelta,
         CountersMeet, Validated, Filter, RowsOf, EventPayments;
    var group, captured := GroupOf(b, sid), Filter(CapsOf(b, o.orderId), IsCaptured);
    SettledIsLive(b, eng, o, v, sid, credit);
    LatestIsValid(b, group);
    LatestIsValid(b, captured);
    BankDatesValid(b, credit);
    CountersAgreeExactly(LatestCapture(group), credit.valueDate);
    CountersAgreeExactly(LatestCapture(captured), credit.valueDate);
  }

  /** From the rows to the verifier, in every run: a plainly settled order's certificate is accepted. */
  lemma SettledOrderIsAccepted(b: Batch, eng: Engine, cfg: Config, r: Run, o: Order, k: Check)
    requires IsRun(b, eng, cfg, r) && o in b.orders
    requires IsSettlementPass(r.verdicts[o.orderId].evidence.passUsed)
    requires Fresh(k, o, r.verdicts[o.orderId]) && k.rows == RowsOf(b) && k.reader.settlementOf == eng.settlementOf
    requires PlainlyHit(b, r, o)
    ensures Accepts(k)
  {
    hide Fresh, RowsOf, Accepts, Provable, Resolve, PlainlySettled, HitEvidence, Settle;
    RunIsValidated(b, eng, cfg, r);
    var sid, credit := SettlementCertificateVerified(b, eng, cfg, r, o, k);
    OneSettlementIsProvable(b, eng, o, r.verdicts[o.orderId], sid, credit);
  }

  // ------------------------------------------------------------ where writer and verifier part

  function YearEndOrder(): Order { Order("o", "i", "c", "n", 100, Date(2025, 12, 31), Gateway) }

  function YearEndCapture(): Capture { Capture("p", "o", 100, 0, 0, Captured, Date(2025, 12, 31), "s", "u") }

  function YearEndCredit(): BankTxn { BankTxn("t", Date(2026, 1, 1), 100, true, "u", "n", 0) }

  /** Captured on 31 December, settled on 1 January. */
  function YearEnd(): Batch { Batch([YearEndOrder()], [YearEndCapture()], [YearEndCredit()], []) }

  lemma YearEndGroup()
    ensures GroupOf(YearEnd(), "s") == CapsOf(YearEnd(), "o") == [YearEndCapture()]
    ensures Credits(YearEnd()) == [YearEndCredit()] && OpenDisputes(YearEnd(), "o") == []
    ensures Filter([YearEndCapture()], IsCaptured) == [YearEndCapture()]
    ensures Filter([YearEndCapture()], IsRefund) == [] && Filter([YearEndCapture()], IsChargeback) == []
    ensures SettlementIds(YearEnd().captures) == ["s"]
    ensures GroupNet(YearEnd(), "s") == 100
    ensures LatestCapture([YearEndCapture()]) == Date(2025, 12, 31)
  {
    var c := YearEndCapture();
    FilterOne(c, InSettlement("s"));
    FilterOne(c, OfOrder("o"));
    FilterOne(YearEndCredit(), IsCredit);
    FilterOne(c, IsCaptured);
    FilterOne(c, IsRefund);
    FilterOne(c, IsChargeback);
    assert YearEnd().captures[..0] == [];
    SumFew(c, c, c, NetOf);
    assert Map([c], CapturedOn) == [c.capturedAt];
  }

  lemma YearEndHit(eng: Engine)
    ensures "s" in Settle(YearEnd(), eng).hits && Settle(YearEnd(), eng).hits["s"].credit == YearEndCredit()
  {
    var b, t := YearEnd(), YearEndCredit();
    YearEndGroup();
    assert GroupOf(b, "s") != [];
    assert FirstCredit([t], UtrAndAmount("u", 100)) == Some(t);
    assert ExactUtrHit([YearEndCapture()], [t], 100) == Some(t);
    assert CreditNaming(eng, [t], "s").Some? ==> CreditNaming(eng, [t], "s").value == t;
    assert ["s"][..0] == [];
  }

  /** Whatever the narrations say: the engine counts two days over the year end, the verifier one, and rejects. */
  lemma YearEndIsRejected(eng: Engine, cfg: Config, r: Run, k: Check)
    requires IsRun(YearEnd(), eng, cfg, r)
    requires Fresh(k, YearEndOrder(), r.verdicts["o"]) && k.rows == RowsOf(YearEnd())
    requires k.reader.settlementOf == eng.settlementOf
    ensures r.verdicts["o"].verdict == SettledLate
    ensures !Accepts(k)
  {
    hide Fresh, RowsOf, Accepts, Settle, SettlementIds, GroupOf, Credits, GroupNet, IsRun, Resolve;
    var b, o := YearEnd(), YearEndOrder();
    YearEndGroup();
    YearEndHit(eng);
    YearEndVerdict(eng, cfg, r);
    var sid, credit := SettlementCertificateVerified(b, eng, cfg, r, o, k);
    FilterOne(YearEndCapture(), OfOrder("o"));
    assert sid == "s" && credit == YearEndCredit();
    assert OwnRows(b, "o") == [YearEndCapture()];
    assert CalendarDelay([YearEndCapture()], credit) == 1;
  }

  lemma YearEndVerdict(eng: Engine, cfg: Config, r: Run)
    requires IsRun(YearEnd(), eng, cfg, r)
    ensures r.verdicts["o"].verdict == SettledLate && IsSettlementPass(r.verdicts["o"].evidence.passUsed)
  {
    hide Settle, HitEvidence, SettlementIds, GroupOf, Credits, IsEdgeTable, Matching.MatchSpec;
    var b, o := YearEnd(), YearEndOrder();
    YearEndGroup();
    YearEndHit(eng);
    RunVerdict(b, eng, cfg, r, o);
    HitsSound(b, eng, "s");
    SumFew(YearEndCapture(), YearEndCapture(), YearEndCapture(), NetOf);
    assert !IsRefundNetZero([YearEndCapture()]);
  }

  /** The batch is one the engine meets: it is validated, has a run, and its verdict gets a certificate. */
  lemma YearEndHappens(eng: Engine, cfg: Config, configHash: string, calibrationId: string, dig: Digests) returns (r: Run)
    ensures Validated(YearEnd()) && IsRun(YearEnd(), eng, cfg, r)
    ensures "o" in r.verdicts
    ensures Issued(YearEndOrder(), r.verdicts["o"], RowsOf(YearEnd()), configHash, calibrationId, dig).Ok?
  {
    hide IsRun, Issued, SettledOn;
    var b, o := YearEnd(), YearEndOrder();
    assert ValidOrder(o) && ValidCapture(YearEndCapture()) && ValidBankTxn(YearEndCredit());
    r := RunExists(b, eng, cfg);
    YearEndVerdict(eng, cfg, r);
    RunVerdict(b, eng, cfg, r, o);
    var sid, credit := RunSettles(b, eng, cfg, r, o);
    YearEndKeyed();
    SettledIsIssued(b, eng, o, r.verdicts["o"], sid, credit, configHash, calibrationId, dig);
  }

  lemma YearEndKeyed()
    ensures WellKeyed(RowsOf(YearEnd()))
  {
    var rows := RowsOf(YearEnd());
    assert rows == [OrderRow(YearEndOrder()), CaptureRow(YearEndCapture()), BankRow(YearEndCredit())];
    assert RowId(rows[0]) == "o" && RowId(rows[1]) == "p" && RowId(rows[2]) == "t";
    assert RowIds(rows) == ["o", "p", "t"];
  }
}
