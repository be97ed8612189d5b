/** The canonical typed rows that the proof writer and the verifier both read. */
module SourceRows {
  import opened Prelude
  import opened Dates
  import opened Models

  datatype Row = OrderRow(order: Order) | CaptureRow(capture: Capture) | BankRow(txn: BankTxn) | EventRow(event: FinanceEvent)

  /** The column a money term cites. */
  datatype Field = NoField | AmountField | FeeField | TaxField | BalanceField | OtherField(text: string)

  function EventId(e: FinanceEvent): string {
    match e
    case Refund(id, _, _, _, _, _) => id
    case Dispute(id, _, _, _, _, _) => id
    case Adjustment(id, _, _, _, _) => id
    case Settlement(id, _, _, _, _) => id
    case LedgerEntry(id, _, _, _, _, _) => id
    case TdsEvidence(id, _, _, _, _, _, _, _) => id
  }

  function RowId(r: Row): string {
    match r
    case OrderRow(o) => o.orderId
    case CaptureRow(c) => c.paymentId
    case BankRow(t) => t.txnId
    case EventRow(e) => EventId(e)
  }

  function AmountOf(r: Row): int {
    match r
    case OrderRow(o) => o.amountPaise
    case CaptureRow(c) => c.amountPaise
    case BankRow(t) => t.amountPaise
    case EventRow(e) => e.amountPaise
  }

  /** The integer in a column, when the row has that column and it holds an integer. */
  function IntField(r: Row, f: Field): Option<int> {
    match f
    case AmountField => Some(AmountOf(r))
    case FeeField => if r.CaptureRow? then Some(r.capture.feePaise) else None
    case TaxField => if r.CaptureRow? then Some(r.capture.taxPaise) else None
    case BalanceField => if r.BankRow? then Some(r.txn.balanceAfter) else None
    case NoField => None
    case OtherField(_) => None
  }

  function SettlementField(r: Row): Option<string> {
    match r
    case CaptureRow(c) => Some(c.settlementId)
    case EventRow(e) => if e.Adjustment? || e.Settlement? then Some(e.settlementId) else None
    case _ => None
  }

  /** `str(row.get("settlement_id"))`: a row without the column reads as "None". */
  function SettlementText(r: Row): string {
    SettlementField(r).GetOr("None")
  }

  function PaymentField(r: Row): Option<string> {
    match r
    case CaptureRow(c) => Some(c.paymentId)
    case EventRow(e) => if e.Refund? || e.Dispute? then Some(e.paymentId) else None
    case _ => None
  }

  function RowDate(r: Row): Date {
    match r
    case OrderRow(o) => o.dueDate
    case CaptureRow(c) => c.capturedAt
    case BankRow(t) => t.valueDate
    case EventRow(e) =>
      match e
      case Refund(_, _, _, _, _, at) => at
      case Dispute(_, _, _, _, _, at) => at
      case Adjustment(_, _, _, _, at) => at
      case Settlement(_, _, at, _, _) => at
      case LedgerEntry(_, _, _, _, _, at) => at
      case TdsEvidence(_, _, _, _, _, _, _, at) => at
  }

  function RowIds(rows: seq<Row>): seq<string> { Map(rows, RowId) }

  lemma RowsNoDup(rows: seq<Row>)
    requires NoDup(RowIds(rows))
    ensures NoDup(rows)
  {
    hide RowId;
    forall i, j | 0 <= i < j < |rows|
      ensures rows[i] != rows[j]
    {
      assert RowIds(rows)[i] != RowIds(rows)[j];
    }
  }

  // ------------------------------------------------------------ the index

  /** The first row under every id. */
  function Indexed(rows: seq<Row>): (m: map<string, Row>)
    ensures forall id :: id in m ==> m[id] in rows && RowId(m[id]) == id
    ensures forall r :: r in rows ==> RowId(r) in m
  {
    if rows == [] then map[]
    else
      var last, m := rows[|rows| - 1], Indexed(rows[..|rows| - 1]);
      assert rows == rows[..|rows| - 1] + [last];
      if RowId(last) in m then m else m[RowId(last) := last]
  }

  /** The indexed rows in the order they were read. */
  function Uniques(rows: seq<Row>): seq<Row> {
    if rows == [] then []
    else
      var last, before := rows[|rows| - 1], rows[..|rows| - 1];
      if RowId(last) in Indexed(before) then Uniques(before) else Uniques(before) + [last]
  }

  lemma IndexingStep(rows: seq<Row>, r: Row)
    ensures Indexed(rows + [r]) == if RowId(r) in Indexed(rows) then Indexed(rows) else Indexed(rows)[RowId(r) := r]
    ensures Uniques(rows + [r]) == if RowId(r) in Indexed(rows) then Uniques(rows) else Uniques(rows) + [r]
  {
    assert (rows + [r])[..|rows|] == rows;
  }

  lemma {:induction false} UniquesAreIndexed(rows: seq<Row>)
    ensures forall r :: r in Uniques(rows) <==> RowId(r) in Indexed(rows) && Indexed(rows)[RowId(r)] == r
    ensures NoDup(RowIds(Uniques(rows)))
  {
    if rows != [] {
      var last, before := rows[|rows| - 1], rows[..|rows| - 1];
      UniquesAreIndexed(before);
      var u := Uniques(before);
      if RowId(last) !in Indexed(before) {
        assert RowIds(u + [last]) == RowIds(u) + [RowId(last)];
        forall i | 0 <= i < |u|
          ensures RowIds(u)[i] != RowId(last)
        {
          assert u[i] in u;
        }
      }
    }
  }

  lemma SameIdSameRow(rows: seq<Row>, r: Row, s: Row)
    requires r in Uniques(rows) && s in Uniques(rows) && RowId(r) == RowId(s)
    ensures r == s
  {
    UniquesAreIndexed(rows);
  }

  lemma LastIdIsNew(rows: seq<Row>)
    requires rows != [] && NoDup(RowIds(rows))
    ensures NoDup(RowIds(rows[..|rows| - 1]))
    ensures RowId(rows[|rows| - 1]) !in Indexed(rows[..|rows| - 1])
  {
    hide Indexed;
    var n := |rows| - 1;
    var before := rows[..n];
    assert RowIds(before) == RowIds(rows)[..n];
    forall i | 0 <= i < n
      ensures RowId(before[i]) != RowId(rows[n])
    {
      assert RowIds(rows)[i] != RowIds(rows)[n];
    }
  }

  lemma {:induction false} DistinctRowsAreIndexed(rows: seq<Row>)
    requires NoDup(RowIds(rows))
    ensures Uniques(rows) == rows
    ensures forall r :: r in rows ==> Indexed(rows)[RowId(r)] == r
  {
    hide RowIds, RowId, Indexed;
    if rows != [] {
      LastIdIsNew(rows);
      DistinctRowsAreIndexed(rows[..|rows| - 1]);
      assert rows == rows[..|rows| - 1] + [rows[|rows| - 1]];
    }
    UniquesAreIndexed(rows);
  }

  // ------------------------------------------------------------ rows of one kind

  function CapturesIn(rows: seq<Row>): (s: seq<Capture>)
    ensures forall c :: c in s <==> CaptureRow(c) in rows
  {
    if rows == [] then []
    else
      assert rows == [rows[0]] + rows[1..];
      if rows[0].CaptureRow? then [rows[0].capture] + CapturesIn(rows[1..]) else CapturesIn(rows[1..])
  }

  function CreditsIn(rows: seq<Row>): (s: seq<BankTxn>)
    ensures forall t :: t in s <==> BankRow(t) in rows && t.isCredit
  {
    if rows == [] then []
    else
      assert rows == [rows[0]] + rows[1..];
      if rows[0].BankRow? && rows[0].txn.isCredit then [rows[0].txn] + CreditsIn(rows[1..]) else CreditsIn(rows[1..])
  }

  function TdsIn(rows: seq<Row>): (s: seq<FinanceEvent>)
    ensures forall e :: e in s <==> EventRow(e) in rows && e.TdsEvidence?
  {
    if rows == [] then []
    else
      assert rows == [rows[0]] + rows[1..];
      if rows[0].EventRow? && rows[0].event.TdsEvidence? then [rows[0].event] + TdsIn(rows[1..]) else TdsIn(rows[1..])
  }

  function DisputesIn(rows: seq<Row>): (s: seq<FinanceEvent>)
    ensures forall e :: e in s <==> EventRow(e) in rows && e.Dispute?
  {
    if rows == [] then []
    else
      assert rows == [rows[0]] + rows[1..];
      if rows[0].EventRow? && rows[0].event.Dispute? then [rows[0].event] + DisputesIn(rows[1..])
      else DisputesIn(rows[1..])
  }

  function EventsIn(rows: seq<Row>): (s: seq<FinanceEvent>)
    ensures forall e :: e in s <==> EventRow(e) in rows
  {
    if rows == [] then []
    else
      assert rows == [rows[0]] + rows[1..];
      if rows[0].EventRow? then [rows[0].event] + EventsIn(rows[1..]) else EventsIn(rows[1..])
  }

  function OrderRows(orders: seq<Order>): seq<Row> { Map(orders, (o: Order) => OrderRow(o)) }
  function CaptureRows(caps: seq<Capture>): seq<Row> { Map(caps, (c: Capture) => CaptureRow(c)) }
  function BankRows(bank: seq<BankTxn>): seq<Row> { Map(bank, (t: BankTxn) => BankRow(t)) }
  function EventRows(events: seq<FinanceEvent>): seq<Row> { Map(events, (e: FinanceEvent) => EventRow(e)) }

  lemma CaptureRowsMembers(caps: seq<Capture>, r: Row)
    ensures r in CaptureRows(caps) <==> r.CaptureRow? && r.capture in caps
  {
    if r.CaptureRow? && r.capture in caps {
      var i :| 0 <= i < |caps| && caps[i] == r.capture;
      assert CaptureRows(caps)[i] == r;
    }
  }

  lemma EventRowsMembers(events: seq<FinanceEvent>, r: Row)
    ensures r in EventRows(events) <==> r.EventRow? && r.event in events
  {
    if r.EventRow? && r.event in events {
      var i :| 0 <= i < |events| && events[i] == r.event;
      assert EventRows(events)[i] == r;
    }
  }

  function IdIn(ids: set<string>): Row -> bool { (r: Row) => RowId(r) in ids }
  function PaymentIn(ids: set<string>): Capture -> bool { (c: Capture) => c.paymentId in ids }
  function TxnIn(ids: set<string>): BankTxn -> bool { (t: BankTxn) => t.txnId in ids }

  lemma {:induction false} CapturesConcat(a: seq<Row>, b: seq<Row>)
    ensures CapturesIn(a + b) == CapturesIn(a) + CapturesIn(b)
  {
    if a == [] {
      assert a + b == b;
    } else {
      assert (a + b)[1..] == a[1..] + b;
      CapturesConcat(a[1..], b);
    }
  }

  lemma {:induction false} CreditsConcat(a: seq<Row>, b: seq<Row>)
    ensures CreditsIn(a + b) == CreditsIn(a) + CreditsIn(b)
  {
    if a == [] {
      assert a + b == b;
    } else {
      assert (a + b)[1..] == a[1..] + b;
      CreditsConcat(a[1..], b);
    }
  }

  lemma {:induction false} CapturesOfSelected(rows: seq<Row>, ids: set<string>)
    ensures CapturesIn(Filter(rows, IdIn(ids))) == Filter(CapturesIn(rows), PaymentIn(ids))
  {
    if rows != [] {
      CapturesOfSelected(rows[1..], ids);
      CapturesConcat([rows[0]], Filter(rows[1..], IdIn(ids)));
      assert [rows[0]][1..] == [];
    }
  }

  lemma {:induction false} CreditsOfSelected(rows: seq<Row>, ids: set<string>)
    ensures CreditsIn(Filter(rows, IdIn(ids))) == Filter(CreditsIn(rows), TxnIn(ids))
  {
    if rows != [] {
      CreditsOfSelected(rows[1..], ids);
      CreditsConcat([rows[0]], Filter(rows[1..], IdIn(ids)));
      assert [rows[0]][1..] == [];
    }
  }
}
