/** The reconciliation engine: settlement passes, the pass-4 pool and edges, and the verdict table. */
module Recon {
  import opened Prelude
  import opened Sorting
  import opened Dates
  import opened Models
  import opened Money
  import opened Enumeration
  import opened ComponentAssignment
  import opened Components
  import opened Matching
  import opened Conformal
  import RiskControl
  import Authority
  import Policy

  datatype Batch = Batch(orders: seq<Order>, captures: seq<Capture>, bank: seq<BankTxn>, events: seq<FinanceEvent>)

  /** The parts the engine takes as given: narration parsing, the pair score, and its probability. */
  datatype Engine = Engine(settlementOf: string -> Option<string>, namesSettlement: string -> bool,
                           score: (Order, BankTxn) -> real, pMatch: real -> real, toPpm: real -> int)

  datatype Config = Config(qHat: real, riskCalibration: Option<RiskControl.RiskCalibration>,
                           authority: Option<Authority.AuthorityState>)

  function OrderIds(orders: seq<Order>): seq<string> { Map(orders, (o: Order) => o.orderId) }
  function TxnIds(txns: seq<BankTxn>): seq<string> { Map(txns, (b: BankTxn) => b.txnId) }

  /** Rows as the validating boundary hands them over: unique ids within a source, checked signs and dates. */
  ghost predicate Validated(b: Batch) {
    && NoDup(OrderIds(b.orders)) && NoDup(TxnIds(b.bank))
    && (forall o :: o in b.orders ==> ValidOrder(o))
    && (forall c :: c in b.captures ==> ValidCapture(c))
    && (forall t :: t in b.bank ==> ValidBankTxn(t))
    && (forall e :: e in b.events ==> ValidEvent(e))
  }

  // ------------------------------------------------------------ the indexes

  function IsCredit(b: BankTxn): bool { b.isCredit }
  function OpenDisputeOf(oid: string): FinanceEvent -> bool {
    (e: FinanceEvent) => e.Dispute? && e.status.Open? && e.orderId == oid
  }
  function TdsFor(oid: string): FinanceEvent -> bool {
    (e: FinanceEvent) => e.TdsEvidence? && e.orderId == oid
  }
  function WithUtr(utr: string): BankTxn -> bool { (b: BankTxn) => b.utr == utr }

  function CapsOf(b: Batch, oid: string): seq<Capture> { Filter(b.captures, OfOrder(oid)) }
  function OpenDisputes(b: Batch, oid: string): seq<FinanceEvent> { Filter(b.events, OpenDisputeOf(oid)) }
  function TdsProofs(b: Batch, oid: string): seq<FinanceEvent> { Filter(b.events, TdsFor(oid)) }
  function Credits(b: Batch): seq<BankTxn> { Filter(b.bank, IsCredit) }

  /** How often a UTR stands in the statement; rows without one are not counted. */
  function UtrCount(b: Batch, utr: string): nat {
    if utr == "" then 0 else |Filter(b.bank, WithUtr(utr))|
  }

  function CoverageEnd(b: Batch): Date {
    if b.bank == [] then Date(0, 0, 0) else Latest(Map(b.bank, (t: BankTxn) => t.valueDate))
  }

  /** The captures of one settlement; captures without a settlement id form no group. */
  function GroupOf(b: Batch, sid: string): seq<Capture> { Filter(b.captures, InSettlement(sid)) }

  function GroupNet(b: Batch, sid: string): int { Sum(GroupOf(b, sid), NetOf) }

  /** Settlement ids in the order their first capture appears. */
  function SettlementIds(captures: seq<Capture>): (ids: seq<string>)
    ensures NoDup(ids) && forall sid :: sid in ids <==> sid != "" && exists c :: c in captures && c.settlementId == sid
  {
    if captures == [] then []
    else
      var last := captures[|captures| - 1];
      var ids := SettlementIds(captures[..|captures| - 1]);
      assert captures == captures[..|captures| - 1] + [last];
      if last.settlementId == "" || last.settlementId in ids then ids else ids + [last.settlementId]
  }

  // ------------------------------------------------------------ passes 1 to 3

  datatype Hit = Hit(credit: BankTxn, pass: Pass)

  function FirstCredit(credits: seq<BankTxn>, p: BankTxn -> bool): (r: Option<BankTxn>)
    ensures r.Some? ==> r.value in credits && p(r.value)
    ensures r.None? ==> forall b :: b in credits ==> !p(b)
  {
    if credits == [] then None
    else if p(credits[0]) then Some(credits[0])
    else FirstCredit(credits[1..], p)
  }

  function UtrAndAmount(utr: string, amount: int): BankTxn -> bool {
    (b: BankTxn) => utr != "" && b.utr == utr && b.amountPaise == amount
  }

  function InWindow(consumed: set<string>, amount: int, latest: Date): BankTxn -> bool {
    (b: BankTxn) => b.txnId !in consumed && b.amountPaise == amount && 0 <= EngineDelta(latest, b.valueDate) <= 3
  }

  /** `credit_by_sid`: the last credit that names the settlement. */
  function CreditNaming(eng: Engine, credits: seq<BankTxn>, sid: string): (r: Option<BankTxn>)
    ensures r.Some? ==> r.value in credits && eng.settlementOf(r.value.narration) == Some(sid)
  {
    if credits == [] then None
    else
      var last := credits[|credits| - 1];
      if eng.settlementOf(last.narration) == Some(sid) then Some(last)
      else CreditNaming(eng, credits[..|credits| - 1], sid)
  }

  /** The first capture of the group whose UTR stands on a credit of the expected amount. */
  function ExactUtrHit(group: seq<Capture>, credits: seq<BankTxn>, expected: int): (r: Option<BankTxn>)
    ensures r.Some? ==> r.value in credits && r.value.amountPaise == expected
                        && exists c :: c in group && c.utr != "" && c.utr == r.value.utr
  {
    if group == [] then None
    else
      var first := FirstCredit(credits, UtrAndAmount(group[0].utr, expected));
      if first.Some? then
        assert group[0] in group;
        first
      else
        assert group == [group[0]] + group[1..];
        ExactUtrHit(group[1..], credits, expected)
  }

  /** Passes 3 and 1: neither asks whether the credit was consumed before. */
  function ExactHit(b: Batch, eng: Engine, sid: string): Option<Hit> {
    var named := CreditNaming(eng, Credits(b), sid);
    if named.Some? && named.value.amountPaise == GroupNet(b, sid) then Some(Hit(named.value, Pass3SettlementId))
    else
      var byUtr := ExactUtrHit(GroupOf(b, sid), Credits(b), GroupNet(b, sid));
      if byUtr.Some? then Some(Hit(byUtr.value, Pass1ExactUtr)) else None
  }

  /** What the three passes decide for one settlement, given the credits consumed before it. */
  function HitFor(b: Batch, eng: Engine, sid: string, consumed: set<string>): Option<Hit>
    requires GroupOf(b, sid) != []
  {
    var group, expected := GroupOf(b, sid), GroupNet(b, sid);
    var exact := ExactHit(b, eng, sid);
    if exact.Some? then exact
    else if expected == 0 then None
    else
      var dated := FirstCredit(Credits(b), InWindow(consumed, expected, LatestCapture(group)));
      if dated.Some? then Some(Hit(dated.value, Pass2AmountDate)) else None
  }

  datatype Settled = Settled(hits: map<string, Hit>, consumed: set<string>)

  function SettleUpTo(b: Batch, eng: Engine, sids: seq<string>): Settled
    requires forall sid :: sid in sids ==> GroupOf(b, sid) != []
  {
    if sids == [] then Settled(map[], {})
    else
      var sid := sids[|sids| - 1];
      var before := SettleUpTo(b, eng, sids[..|sids| - 1]);
      match HitFor(b, eng, sid, before.consumed)
      case None => before
      case Some(hit) => Settled(before.hits[sid := hit], before.consumed + {hit.credit.txnId})
  }

  lemma GroupsNotEmpty(b: Batch)
    ensures forall sid :: sid in SettlementIds(b.captures) ==> GroupOf(b, sid) != []
  {
    forall sid | sid in SettlementIds(b.captures)
      ensures GroupOf(b, sid) != []
    {
      var c :| c in b.captures && c.settlementId == sid;
      assert c in GroupOf(b, sid);
    }
  }

  function Settle(b: Batch, eng: Engine): Settled {
    GroupsNotEmpty(b);
    SettleUpTo(b, eng, SettlementIds(b.captures))
  }

  method SumNet(group: seq<Capture>) returns (expected: int)
    ensures expected == Sum(group, NetOf)
  {
    expected := 0;
    for i := 0 to |group|
      invariant expected == Sum(group[..i], NetOf)
    {
      assert group[..i + 1] == group[..i] + [group[i]];
      SumSnoc(group[..i], group[i], NetOf);
      expected := expected + NetOf(group[i]);
    }
    assert group[..|group|] == group;
  }

  /** Pass 1: for each capture, the credits with its UTR, until one has the expected amount. */
  method JoinByUtr(group: seq<Capture>, credits: seq<BankTxn>, expected: int) returns (hit: Option<BankTxn>)
    ensures hit == ExactUtrHit(group, credits, expected)
  {
    hit := None;
    var i := 0;
    while i < |group| && hit.None?
      invariant 0 <= i <= |group|
      invariant hit.None? ==> ExactUtrHit(group, credits, expected) == ExactUtrHit(group[i..], credits, expected)
      invariant hit.Some? ==> hit == ExactUtrHit(group, credits, expected)
      decreases |group| - i
    {
      var p := UtrAndAmount(group[i].utr, expected);
      assert group[i..][1..] == group[i + 1..];
      var j := 0;
      while j < |credits| && hit.None?
        invariant 0 <= j <= |credits|
        invariant hit.None? ==> FirstCredit(credits, p) == FirstCredit(credits[j..], p)
        invariant hit.Some? ==> hit == FirstCredit(credits, p)
        decreases |credits| - j, if hit.None? then 1 else 0
      {
        assert credits[j..][1..] == credits[j + 1..];
        if p(credits[j]) {
          hit := Some(credits[j]);
        }
        j := j + 1;
      }
      i := i + 1;
    }
  }

  /** Pass 2: the first unconsumed credit of the expected amount inside the T+0 to T+3 window. */
  method JoinByAmountAndDate(credits: seq<BankTxn>, consumed: set<string>, expected: int, latest: Date)
    returns (hit: Option<BankTxn>)
    ensures hit == FirstCredit(credits, InWindow(consumed, expected, latest))
  {
    var p := InWindow(consumed, expected, latest);
    for j := 0 to |credits|
      invariant FirstCredit(credits, p) == FirstCredit(credits[j..], p)
    {
      assert credits[j..][1..] == credits[j + 1..];
      if credits[j].txnId in consumed || credits[j].amountPaise != expected {
        continue;
      }
      if 0 <= EngineDelta(latest, credits[j].valueDate) <= 3 {
        return Some(credits[j]);
      }
    }
    return None;
  }

  method SettlementPasses(b: Batch, eng: Engine) returns (s: Settled)
    ensures s == Settle(b, eng)
  {
    GroupsNotEmpty(b);
    var sids, credits := SettlementIds(b.captures), Credits(b);
    var hits: map<string, Hit> := map[];
    var consumed: set<string> := {};
    for n := 0 to |sids|
      invariant Settled(hits, consumed) == SettleUpTo(b, eng, sids[..n])
    {
      var sid := sids[n];
      assert sids[..n + 1][..n] == sids[..n];
      var group := GroupOf(b, sid);
      var expected := SumNet(group);
      var hit: Option<Hit> := None;
      var named := CreditNaming(eng, credits, sid);
      if named.Some? && named.value.amountPaise == expected {
        hit := Some(Hit(named.value, Pass3SettlementId));
      } else {
        var byUtr := JoinByUtr(group, credits, expected);
        if byUtr.Some? {
          hit := Some(Hit(byUtr.value, Pass1ExactUtr));
        }
      }
      if hit.None? && expected != 0 {
        var dated := JoinByAmountAndDate(credits, consumed, expected, LatestCapture(group));
        if dated.Some? {
          hit := Some(Hit(dated.value, Pass2AmountDate));
        }
      }
      assert hit == HitFor(b, eng, sid, consumed);
      if hit.Some? {
        hits := hits[sid := hit.value];
        consumed := consumed + {hit.value.credit.txnId};
      }
    }
    assert sids[..|sids|] == sids;
    s := Settled(hits, consumed);
  }

  // ------------------------------------------------------------ the pass-4 pool

  /** Captures fully offset by refunds: every row is live, the rows net to zero and one of them is a refund. */
  predicate IsRefundNetZero(caps: seq<Capture>) {
    && caps != []
    && (forall c :: c in caps ==> IsLive(c))
    && Sum(caps, NetOf) == 0
    && (exists c :: c in caps && IsRefund(c))
  }

  function NeedsFuzzy(b: Batch): Order -> bool {
    (o: Order) => CapsOf(b, o.orderId) == [] || IsRefundNetZero(CapsOf(b, o.orderId))
  }

  function FuzzyOrders(b: Batch): seq<Order> { Filter(b.orders, NeedsFuzzy(b)) }

  function InPool(eng: Engine, consumed: set<string>): BankTxn -> bool {
    (t: BankTxn) => t.txnId !in consumed && !eng.namesSettlement(t.narration)
  }

  function FuzzyPool(b: Batch, eng: Engine, consumed: set<string>): seq<BankTxn> {
    Filter(Credits(b), InPool(eng, consumed))
  }

  // ------------------------------------------------------------ candidate edges

  function NetsOfRates(amount: int, rates: seq<int>): seq<int> {
    if rates == [] then [] else [amount - PctBp(amount, rates[0])] + NetsOfRates(amount, rates[1..])
  }

  function NetsOfProofs(amount: int, proofs: seq<FinanceEvent>): seq<int> {
    if proofs == [] then []
    else if proofs[0].amountPaise < amount then [amount - proofs[0].amountPaise] + NetsOfProofs(amount, proofs[1..])
    else NetsOfProofs(amount, proofs[1..])
  }

  /** `sorted(candidate_amounts)`: the invoice, its TDS-shaped nets, and its nets of listed evidence. */
  function CandidateAmounts(b: Batch, o: Order): seq<int> {
    SortInts(Distinct([o.amountPaise]
                          + NetsOfRates(o.amountPaise, STATUTORY_TDS_RATES_BP)
                          + NetsOfProofs(o.amountPaise, TdsProofs(b, o.orderId))))
  }

  function HasAmount(amount: int): BankTxn -> bool { (t: BankTxn) => t.amountPaise == amount }

  function ScoreAll(eng: Engine, o: Order, txns: seq<BankTxn>): seq<Candidate> {
    Map(txns, (t: BankTxn) => Candidate(t.txnId, eng.score(o, t)))
  }

  function CandidateTxns(amounts: seq<int>, pool: seq<BankTxn>): seq<BankTxn> {
    if amounts == [] then [] else Filter(pool, HasAmount(amounts[0])) + CandidateTxns(amounts[1..], pool)
  }

  function CandidatesOf(b: Batch, eng: Engine, pool: seq<BankTxn>, o: Order): seq<Candidate> {
    ScoreAll(eng, o, CandidateTxns(CandidateAmounts(b, o), pool))
  }

  lemma {:induction false} CandidateTxnMembers(amounts: seq<int>, pool: seq<BankTxn>, t: BankTxn)
    ensures t in CandidateTxns(amounts, pool) <==> t in pool && t.amountPaise in amounts
  {
    if amounts != [] {
      CandidateTxnMembers(amounts[1..], pool, t);
      assert amounts == [amounts[0]] + amounts[1..];
    }
  }

  ghost predicate IdsUnique(txns: seq<BankTxn>) {
    NoDup(TxnIds(txns))
  }

  lemma {:induction false} FilterIdsUnique(txns: seq<BankTxn>, p: BankTxn -> bool)
    requires IdsUnique(txns)
    ensures IdsUnique(Filter(txns, p))
  {
    if txns != [] {
      var ids, rest := TxnIds(txns), txns[1..];
      assert TxnIds(rest) == ids[1..];
      NoDupTail(ids);
      FilterIdsUnique(rest, p);
      if p(txns[0]) {
        var kept := Filter(rest, p);
        assert TxnIds([txns[0]] + kept) == [ids[0]] + TxnIds(kept);
        forall i | 0 <= i < |kept|
          ensures TxnIds(kept)[i] != ids[0]
        {
          assert kept[i] in rest;
          var k :| 0 <= k < |rest| && rest[k] == kept[i];
          assert ids[1..][k] == kept[i].txnId;
        }
        NoDupCons(ids[0], TxnIds(kept));
      }
    }
  }

  lemma UniqueById(txns: seq<BankTxn>, s: BankTxn, t: BankTxn)
    requires IdsUnique(txns) && s in txns && t in txns && s.txnId == t.txnId
    ensures s == t
  {
    var i :| 0 <= i < |txns| && txns[i] == s;
    var j :| 0 <= j < |txns| && txns[j] == t;
    assert TxnIds(txns)[i] == TxnIds(txns)[j];
  }

  lemma {:induction false} CandidateIdsUnique(amounts: seq<int>, pool: seq<BankTxn>)
    requires NoDup(amounts) && IdsUnique(pool)
    ensures IdsUnique(CandidateTxns(amounts, pool))
  {
    if amounts != [] {
      NoDupTail(amounts);
      CandidateIdsUnique(amounts[1..], pool);
      var head, rest := Filter(pool, HasAmount(amounts[0])), CandidateTxns(amounts[1..], pool);
      FilterIdsUnique(pool, HasAmount(amounts[0]));
      forall i, j | 0 <= i < |head| && 0 <= j < |rest|
        ensures head[i].txnId != rest[j].txnId
      {
        assert head[i] in head && rest[j] in rest;
        CandidateTxnMembers(amounts[1..], pool, rest[j]);
        if head[i].txnId == rest[j].txnId {
          UniqueById(pool, head[i], rest[j]);
        }
      }
      AppendUnique(head, rest);
    }
  }

  lemma AppendUnique(head: seq<BankTxn>, rest: seq<BankTxn>)
    requires IdsUnique(head) && IdsUnique(rest)
    requires forall i, j :: 0 <= i < |head| && 0 <= j < |rest| ==> head[i].txnId != rest[j].txnId
    ensures IdsUnique(head + rest)
  {
    var all := TxnIds(head + rest);
    forall i, j | 0 <= i < j < |all|
      ensures all[i] != all[j]
    {
      if j < |head| {
        assert TxnIds(head)[i] != TxnIds(head)[j];
      } else if i >= |head| {
        assert TxnIds(rest)[i - |head|] != TxnIds(rest)[j - |head|];
      } else {
        assert head[i].txnId != rest[j - |head|].txnId;
      }
    }
  }

  /** The candidate dictionary of the fuzzy orders, in row order. */
  ghost predicate IsEdgeTable(b: Batch, eng: Engine, pool: seq<BankTxn>, t: EdgeTable) {
    && t.orders == OrderIds(FuzzyOrders(b))
    && t.cands.Keys == Elems(t.orders)
    && forall o :: o in FuzzyOrders(b) ==> o.orderId in t.cands && t.cands[o.orderId] == CandidatesOf(b, eng, pool, o)
  }

  lemma {:induction false} FilterOrderIdsUnique(orders: seq<Order>, p: Order -> bool)
    requires NoDup(OrderIds(orders))
    ensures NoDup(OrderIds(Filter(orders, p)))
    ensures forall id :: id in OrderIds(Filter(orders, p)) ==> id in OrderIds(orders)
  {
    if orders != [] {
      var ids, rest := OrderIds(orders), orders[1..];
      assert OrderIds(rest) == ids[1..];
      NoDupTail(ids);
      FilterOrderIdsUnique(rest, p);
      assert ids == [ids[0]] + ids[1..];
      if p(orders[0]) {
        var kept := Filter(rest, p);
        assert OrderIds([orders[0]] + kept) == [ids[0]] + OrderIds(kept);
        NoDupCons(ids[0], OrderIds(kept));
      }
    }
  }

  lemma OrderById(orders: seq<Order>, id: string) returns (o: Order)
    requires id in OrderIds(orders)
    ensures o in orders && o.orderId == id
  {
    var i :| 0 <= i < |orders| && OrderIds(orders)[i] == id;
    o := orders[i];
  }

  lemma CandidateListValid(b: Batch, eng: Engine, pool: seq<BankTxn>, o: Order)
    requires IdsUnique(pool)
    ensures NoDup(TxnsOf(CandidatesOf(b, eng, pool, o)))
  {
    var raw := Distinct([o.amountPaise] + NetsOfRates(o.amountPaise, STATUTORY_TDS_RATES_BP)
                            + NetsOfProofs(o.amountPaise, TdsProofs(b, o.orderId)));
    SortNoDup(raw, IntLe);
    var txns := CandidateTxns(CandidateAmounts(b, o), pool);
    CandidateIdsUnique(CandidateAmounts(b, o), pool);
    assert TxnsOf(ScoreAll(eng, o, txns)) == TxnIds(txns);
  }

  lemma EdgeTableValid(b: Batch, eng: Engine, pool: seq<BankTxn>, t: EdgeTable)
    requires NoDup(OrderIds(b.orders)) && IdsUnique(pool) && IsEdgeTable(b, eng, pool, t)
    ensures ValidTable(t)
  {
    FilterOrderIdsUnique(b.orders, NeedsFuzzy(b));
    forall id | id in t.cands
      ensures NoDup(TxnsOf(t.cands[id]))
    {
      assert id in Elems(t.orders);
      var o := OrderById(FuzzyOrders(b), id);
      CandidateListValid(b, eng, pool, o);
    }
  }

  method BuildEdges(b: Batch, eng: Engine, pool: seq<BankTxn>) returns (t: EdgeTable)
    requires NoDup(OrderIds(b.orders)) && IdsUnique(pool)
    ensures IsEdgeTable(b, eng, pool, t) && ValidTable(t)
  {
    var fuzzy := FuzzyOrders(b);
    FilterOrderIdsUnique(b.orders, NeedsFuzzy(b));
    var cands: map<string, seq<Candidate>> := map[];
    for i := 0 to |fuzzy|
      invariant cands.Keys == Elems(OrderIds(fuzzy)[..i])
      invariant forall k :: 0 <= k < i ==> fuzzy[k].orderId in cands
                                           && cands[fuzzy[k].orderId] == CandidatesOf(b, eng, pool, fuzzy[k])
    {
      var ids := OrderIds(fuzzy);
      assert ids[..i + 1] == ids[..i] + [ids[i]];
      assert forall k :: 0 <= k < i ==> ids[k] != ids[i];
      cands := cands[fuzzy[i].orderId := CandidatesOf(b, eng, pool, fuzzy[i])];
    }
    assert OrderIds(fuzzy)[..|fuzzy|] == OrderIds(fuzzy);
    t := EdgeTable(OrderIds(fuzzy), cands);
    EdgeTableValid(b, eng, pool, t);
  }

  // ------------------------------------------------------------ the verdict table

  function PaymentIds(caps: seq<Capture>): seq<string> { Map(caps, (c: Capture) => c.paymentId) }
  function DisputeIds(events: seq<FinanceEvent>): seq<string> {
    Map(events, (e: FinanceEvent) => if e.Dispute? then e.disputeId else "")
  }

  function MissedCost(amount: int): int { amount * Policy.RECOVERY_RATE_NUM / Policy.RECOVERY_RATE_DEN }

  /** The Bayes threshold under asymmetric cost. */
  function CostFloor(amount: int): real
    requires amount > 0
  {
    MissedCost(amount) as real / (MissedCost(amount) + Policy.COST_WRONG_CHASE_PAISE) as real
  }

  function Classify(eng: Engine, cfg: Config, o: Order, weight: real): ConformalDecision
    requires o.amountPaise > 0
  {
    var p := eng.pMatch(weight);
    var d := Conformal.Decide(p, cfg.qHat);
    if d.IsMatch? && p < CostFloor(o.amountPaise) then Unclear else d
  }

  function CalibrationId(cfg: Config): string {
    if cfg.riskCalibration.Some? then cfg.riskCalibration.value.calibrationId else ""
  }

  function Strongest(cands: seq<Candidate>): real
    requires cands != []
  {
    if |cands| == 1 then cands[0].weight
    else
      var rest := Strongest(cands[1..]);
      if cands[0].weight >= rest then cands[0].weight else rest
  }

  function FirstProof(proofs: seq<FinanceEvent>, amount: int): (r: Option<FinanceEvent>)
    ensures r.Some? ==> r.value in proofs && r.value.amountPaise == amount
    ensures r.None? ==> forall e :: e in proofs ==> e.amountPaise != amount
  {
    if proofs == [] then None
    else if proofs[0].amountPaise == amount then Some(proofs[0])
    else FirstProof(proofs[1..], amount)
  }

  function WithId(id: string): BankTxn -> bool { (t: BankTxn) => t.txnId == id }

  function WeightOf(cands: seq<Candidate>, id: string): (r: Option<real>)
    ensures r.Some? ==> exists c :: c in cands && c.txn == id && c.weight == r.value
    ensures r.None? ==> forall c :: c in cands ==> c.txn != id
  {
    if cands == [] then None
    else if cands[0].txn == id then Some(cands[0].weight)
    else
      assert cands == [cands[0]] + cands[1..];
      WeightOf(cands[1..], id)
  }

  function Freeze(o: Order, pass: Pass, refs: seq<string>): OrderVerdict {
    OrderVerdict(o.orderId, ChargebackOpen, PlainEvidence(pass, refs, ExactPath, true), o.amountPaise, 0, true)
  }

  function Abstain(o: Order, e: Evidence): OrderVerdict {
    OrderVerdict(o.orderId, Ambiguous, e, 0, 0, true)
  }

  /** A captured order: settled, partially refunded, or not confirmed by the bank. */
  function ResolveCaptured(b: Batch, o: Order, caps: seq<Capture>, hits: map<string, Hit>): OrderVerdict
    requires Filter(caps, IsCaptured) != []
  {
    var captured, refunds := Filter(caps, IsCaptured), Filter(caps, IsRefund);
    var sid := captured[0].settlementId;
    if sid in hits then
      var credit := hits[sid].credit;
      var delay := EngineDelta(LatestCapture(captured), credit.valueDate);
      var e := PlainEvidence(hits[sid].pass, PaymentIds(captured + refunds) + [credit.txnId], ExactPath, true);
      if refunds != [] then
        var refunded := RefundTotal(refunds);
        OrderVerdict(o.orderId, PartiallyPaid, e, o.amountPaise - refunded, refunded, true)
      else
        OrderVerdict(o.orderId, if delay <= 1 then SettledClean else SettledLate, e, o.amountPaise, 0, true)
    else
      var covered := EngineDelta(CoverageEnd(b), LatestCapture(captured)) <= -3;
      Abstain(o, PlainEvidence(NoPass, PaymentIds(captured), ManualPath, false)).(bankCoverageOk := covered)
  }

  function FuzzyEvidence(eng: Engine, cfg: Config, o: Order, txn: BankTxn, weight: real): Evidence {
    var ppm := eng.toPpm(eng.pMatch(weight));
    Evidence(Pass4Fuzzy, [txn.txnId], ProbabilisticPath, CalibrationId(cfg),
             cfg.riskCalibration.Some? && RiskControl.RiskAuthorized(ppm, o.amountPaise, cfg.riskCalibration.value),
             ppm, cfg.authority)
  }

  /** A classified match: paid, paid net of proven TDS, or a shortfall nobody has proven. */
  function ResolveMatch(b: Batch, o: Order, txn: BankTxn, e: Evidence, netZero: bool): OrderVerdict {
    var withheld := if !netZero && txn.amountPaise < o.amountPaise then o.amountPaise - txn.amountPaise else 0;
    var proof := FirstProof(TdsProofs(b, o.orderId), withheld);
    if withheld != 0 && proof.Some? && proof.value.TdsEvidence? then
      OrderVerdict(o.orderId, PaidNetOfTds,
                   e.(passUsed := Pass4FuzzyTdsEvidence, sourceRows := [proof.value.evidenceId, txn.txnId]),
                   txn.amountPaise, 0, true)
    else if !netZero && TdsRateBp(o.amountPaise, txn.amountPaise).Some? && proof.None? then
      OrderVerdict(o.orderId, PossibleTdsWithholding, PlainEvidence(Pass4Fuzzy, [txn.txnId], ManualPath, false),
                   0, 0, true)
    else
      OrderVerdict(o.orderId, if netZero then RefundedThenRepaid else PaidOutOfBand, e, txn.amountPaise, 0, true)
  }

  /** Nothing matched. */
  function ResolveUnmatched(b: Batch, o: Order, caps: seq<Capture>, netZero: bool, scored: Option<Evidence>): OrderVerdict {
    if netZero then Abstain(o, PlainEvidence(NetArithmetic, PaymentIds(caps), ManualPath, false))
    else
      var covered := EngineDelta(CoverageEnd(b), o.dueDate) <= -3;
      var e := scored.GetOr(PlainEvidence(Exhausted, [], ExactPath, true));
      OrderVerdict(o.orderId, GenuinelyUnpaid, e, 0, 0, covered)
  }

  function ResolveFuzzy(b: Batch, eng: Engine, cfg: Config, o: Order, caps: seq<Capture>, pool: seq<BankTxn>,
                        m: Match, cands: seq<Candidate>): OrderVerdict
    requires o.amountPaise > 0
  {
    var netZero := IsRefundNetZero(caps);
    if m.tie then Abstain(o, PlainEvidence(Pass4Fuzzy, TxnsOf(cands), ManualPath, false))
    else if m.txn.None? then
      var rejected :=
        if cands == [] then None
        else Some(Evidence(Pass4Rejected, TxnsOf(cands), ProbabilisticPath, CalibrationId(cfg), false,
                           eng.toPpm(eng.pMatch(Strongest(cands))), cfg.authority));
      ResolveUnmatched(b, o, caps, netZero, rejected)
    else
      var found, weight := FirstCredit(pool, WithId(m.txn.value)), WeightOf(cands, m.txn.value);
      if found.None? || weight.None? then ResolveUnmatched(b, o, caps, netZero, None)
      else
        var txn := found.value;
        if UtrCount(b, txn.utr) > 1 then Abstain(o, PlainEvidence(Pass4Fuzzy, [txn.txnId], ManualPath, false))
        else
          var e := FuzzyEvidence(eng, cfg, o, txn, weight.value);
          match Classify(eng, cfg, o, weight.value)
          case IsMatch => ResolveMatch(b, o, txn, e, netZero)
          case Unclear => Abstain(o, e)
          case NonMatch => ResolveUnmatched(b, o, caps, netZero, Some(e))
  }

  function Resolve(b: Batch, eng: Engine, cfg: Config, o: Order, hits: map<string, Hit>, pool: seq<BankTxn>,
                   m: Match, cands: seq<Candidate>): OrderVerdict
    requires o.amountPaise > 0
  {
    var caps, disputes := CapsOf(b, o.orderId), OpenDisputes(b, o.orderId);
    var chargebacks, failed := Filter(caps, IsChargeback), Filter(caps, IsFailed);
    var captured, refunds := Filter(caps, IsCaptured), Filter(caps, IsRefund);
    if disputes != [] then Freeze(o, FinanceEventDispute, SortStrings(DisputeIds(disputes)))
    else if chargebacks != [] then Freeze(o, GatewayStatus, PaymentIds(chargebacks))
    else if captured != [] && !IsRefundNetZero(caps) then ResolveCaptured(b, o, caps, hits)
    else if failed != [] && captured == [] && refunds == [] then
      OrderVerdict(o.orderId, FailedNotDebited, PlainEvidence(GatewayStatus, PaymentIds(failed), ExactPath, true), 0, 0, true)
    else ResolveFuzzy(b, eng, cfg, o, caps, pool, m, cands)
  }

  // ------------------------------------------------------------ one run

  datatype Run = Run(settled: Settled, pool: seq<BankTxn>, table: EdgeTable, assignment: map<string, Match>,
                     verdicts: map<string, OrderVerdict>)

  function MatchOf(r: Run, oid: string): Match {
    if oid in r.assignment then r.assignment[oid] else Match(None, false)
  }

  function CandsOf(r: Run, oid: string): seq<Candidate> {
    if oid in r.table.cands then r.table.cands[oid] else []
  }

  function VerdictOf(b: Batch, eng: Engine, cfg: Config, r: Run, o: Order): OrderVerdict
    requires o.amountPaise > 0
  {
    Resolve(b, eng, cfg, o, r.settled.hits, r.pool, MatchOf(r, o.orderId), CandsOf(r, o.orderId))
  }

  /** The whole pipeline: each stage's result is what its specification says. */
  ghost predicate IsRun(b: Batch, eng: Engine, cfg: Config, r: Run) {
    && Validated(b)
    && r.settled == Settle(b, eng)
    && r.pool == FuzzyPool(b, eng, r.settled.consumed)
    && IsEdgeTable(b, eng, r.pool, r.table)
    && MatchSpec(WeightsOf(r.table.cands), r.assignment)
    && r.verdicts.Keys == Elems(OrderIds(b.orders))
    && forall o :: o in b.orders ==> o.orderId in r.verdicts && r.verdicts[o.orderId] == VerdictOf(b, eng, cfg, r, o)
  }

  lemma PoolIdsUnique(b: Batch, eng: Engine, consumed: set<string>)
    requires IdsUnique(b.bank)
    ensures IdsUnique(FuzzyPool(b, eng, consumed))
  {
    FilterIdsUnique(b.bank, IsCredit);
    FilterIdsUnique(Credits(b), InPool(eng, consumed));
  }

  /** The verdict loop: one verdict per order, in row order. */
  method ResolveAll(b: Batch, eng: Engine, cfg: Config, r: Run) returns (verdicts: map<string, OrderVerdict>)
    requires NoDup(OrderIds(b.orders)) && forall o :: o in b.orders ==> o.amountPaise > 0
    ensures verdicts.Keys == Elems(OrderIds(b.orders))
    ensures forall o :: o in b.orders ==> o.orderId in verdicts && verdicts[o.orderId] == VerdictOf(b, eng, cfg, r, o)
  {
    hide VerdictOf;
    verdicts := map[];
    var ids := OrderIds(b.orders);
    for i := 0 to |b.orders|
      invariant verdicts.Keys == Elems(ids[..i])
      invariant forall k :: 0 <= k < i ==> b.orders[k] in b.orders && b.orders[k].amountPaise > 0
                                           && b.orders[k].orderId in verdicts
                                           && verdicts[b.orders[k].orderId] == VerdictOf(b, eng, cfg, r, b.orders[k])
    {
      var o := b.orders[i];
      assert o in b.orders;
      assert ids[..i + 1] == ids[..i] + [ids[i]];
      assert forall k :: 0 <= k < i ==> ids[k] != ids[i];
      verdicts := verdicts[o.orderId := VerdictOf(b, eng, cfg, r, o)];
    }
    assert ids[..|ids|] == ids;
  }

  method Reconcile(b: Batch, eng: Engine, cfg: Config) returns (r: Run)
    requires Validated(b)
    ensures IsRun(b, eng, cfg, r)
  {
    hide ValidTable, MatchSpec, IsEdgeTable, Resolve, Settle, FuzzyPool;
    var settled := SettlementPasses(b, eng);
    var pool := FuzzyPool(b, eng, settled.consumed);
    PoolIdsUnique(b, eng, settled.consumed);
    var table := BuildEdges(b, eng, pool);
    var assignment := MatchAll(table);
    r := Run(settled, pool, table, assignment, map[]);
    assert forall o :: o in b.orders ==> ValidOrder(o);
    var verdicts := ResolveAll(b, eng, cfg, r);
    ghost var before := r;
    r := r.(verdicts := verdicts);
    assert forall o :: o in b.orders ==> VerdictOf(b, eng, cfg, r, o) == VerdictOf(b, eng, cfg, before, o);
  }

  lemma AtPosition(orders: seq<Order>, o: Order)
    requires NoDup(OrderIds(orders)) && o in orders
    ensures o.orderId in OrderIds(orders) && orders[Position(OrderIds(orders), o.orderId)] == o
  {
    var ids := OrderIds(orders);
    var i :| 0 <= i < |orders| && orders[i] == o;
    assert ids[i] == o.orderId;
    var j := Position(ids, o.orderId);
    assert ids[j] == ids[i];
  }

  lemma TableExists(b: Batch, eng: Engine, pool: seq<BankTxn>) returns (t: EdgeTable)
    requires NoDup(OrderIds(b.orders)) && IdsUnique(pool)
    ensures IsEdgeTable(b, eng, pool, t) && ValidTable(t)
  {
    hide CandidatesOf, NeedsFuzzy;
    var fuzzy := FuzzyOrders(b);
    FilterOrderIdsUnique(b.orders, NeedsFuzzy(b));
    var ids := OrderIds(fuzzy);
    t := EdgeTable(ids, map id | id in ids :: CandidatesOf(b, eng, pool, fuzzy[Position(ids, id)]));
    forall o | o in fuzzy
      ensures o.orderId in t.cands && t.cands[o.orderId] == CandidatesOf(b, eng, pool, o)
    {
      AtPosition(fuzzy, o);
    }
    EdgeTableValid(b, eng, pool, t);
  }

  /** Every validated batch has a run. */
  lemma RunExists(b: Batch, eng: Engine, cfg: Config) returns (r: Run)
    requires Validated(b)
    ensures IsRun(b, eng, cfg, r)
  {
    hide ValidTable, MatchSpec, IsEdgeTable, Resolve, Settle, FuzzyPool;
    var settled := Settle(b, eng);
    var pool := FuzzyPool(b, eng, settled.consumed);
    PoolIdsUnique(b, eng, settled.consumed);
    var table := TableExists(b, eng, pool);
    var assignment := MatchExists(table);
    var ids := OrderIds(b.orders);
    var open := Run(settled, pool, table, assignment, map[]);
    forall id | id in ids
      ensures b.orders[Position(ids, id)].amountPaise > 0
    {
      assert b.orders[Position(ids, id)] in b.orders;
    }
    r := open.(verdicts := map id | id in ids :: VerdictOf(b, eng, cfg, open, b.orders[Position(ids, id)]));
    forall o | o in b.orders
      ensures o.orderId in r.verdicts && r.verdicts[o.orderId] == VerdictOf(b, eng, cfg, r, o)
    {
      AtPosition(b.orders, o);
    }
  }
}
