/** Certificates for unpaid orders: exactly which of them the verifier accepts. */
module UnpaidProofs {
  import opened Prelude
  import opened Models
  import opened Recon
  import opened ReconSafety
  import opened SourceRows
  import opened Certificates
  import opened Verifier
  import opened ProofSoundness
  import opened ProofCompleteness
  import opened SettlementProofs
  import opened ClaimProofs
  import ComponentAssignment
  import Dates
  import Enumeration
  import Money

  // ------------------------------------------------------------ the three ways to be unpaid

  /** The three ways to be unpaid: nothing to score, candidates the assignment passed over, a match classified away. */
  lemma UnpaidShape(b: Batch, eng: Engine, cfg: Config, o: Order, hits: map<string, Hit>, pool: seq<BankTxn>,
                    m: ComponentAssignment.Match, cands: seq<Enumeration.Candidate>)
    requires o.amountPaise > 0 && Resolve(b, eng, cfg, o, hits, pool, m, cands).verdict.GenuinelyUnpaid?
    requires ChoiceListed(pool, m, cands)
    ensures var v := Resolve(b, eng, cfg, o, hits, pool, m, cands);
            && v.moneyReceivedPaise == 0 && v.deltaDuePaise == 0
            && match v.evidence.passUsed
               case Exhausted => v.evidence == PlainEvidence(Exhausted, [], ExactPath, true)
               case Pass4Rejected => v.evidence.automationPath.ProbabilisticPath? && !v.evidence.riskAuthorized
                                     && cands != [] && v.evidence.sourceRows == Enumeration.TxnsOf(cands)
               case Pass4Fuzzy => exists t :: t in pool && v.evidence.sourceRows == [t.txnId]
               case _ => false
  {
    hide Filter, Classify, UtrCount, FirstProof, Money.TdsRateBp, CoverageEnd, Dates.EngineDelta, IsRefundNetZero,
         FirstCredit, WeightOf, Enumeration.TxnsOf;
  }

  lemma UnpaidVerdict(b: Batch, eng: Engine, cfg: Config, r: Run, o: Order)
    requires IsRun(b, eng, cfg, r) && o in b.orders && r.verdicts[o.orderId].verdict.GenuinelyUnpaid?
    ensures var v := r.verdicts[o.orderId];
            && v.moneyReceivedPaise == 0 && v.deltaDuePaise == 0
            && (forall id :: id in v.evidence.sourceRows ==> id in TxnIds(Credits(b)))
            && match v.evidence.passUsed
               case Exhausted => v.evidence == PlainEvidence(Exhausted, [], ExactPath, true)
               case Pass4Rejected => v.evidence.automationPath.ProbabilisticPath? && !v.evidence.riskAuthorized
                                     && v.evidence.sourceRows != []
               case Pass4Fuzzy => true
               case _ => false
  {
    hide Resolve, IsRun, Enumeration.TxnsOf, CandidatesOf, TxnIds, Credits;
    RunVerdict(b, eng, cfg, r, o);
    AssignedAreFuzzy(b, eng, cfg, r, o);
    UnpaidShape(b, eng, cfg, o, r.settled.hits, r.pool, MatchOf(r, o.orderId), CandsOf(r, o.orderId));
    if r.verdicts[o.orderId].evidence.passUsed.Pass4Rejected? {
      ListedAreCredits(b, eng, cfg, r, o);
    } else if r.verdicts[o.orderId].evidence.passUsed.Pass4Fuzzy? {
      var t :| t in r.pool && r.verdicts[o.orderId].evidence.sourceRows == [t.txnId];
      RunPool(b, eng, cfg, r);
      PoolMember(b, eng, r.settled.consumed, t);
      IdOfTxn(Credits(b), t);
    }
  }

  lemma ListedAreCredits(b: Batch, eng: Engine, cfg: Config, r: Run, o: Order)
    requires IsRun(b, eng, cfg, r) && o in b.orders && CandsOf(r, o.orderId) != []
    ensures Enumeration.TxnsOf(CandsOf(r, o.orderId)) != []
    ensures forall id :: id in Enumeration.TxnsOf(CandsOf(r, o.orderId)) ==> id in TxnIds(Credits(b))
  {
    hide CandidatesOf, IsRun, Credits, TxnIds, Enumeration.TxnsOf, Enumeration.ScoreTable, IsRefundNetZero;
    AssignedAreFuzzy(b, eng, cfg, r, o);
    RunPool(b, eng, cfg, r);
    var cands := CandsOf(r, o.orderId);
    Enumeration.ScoreTableKeys(cands);
    ListedIsNamed(cands);
    forall id | id in Enumeration.TxnsOf(cands)
      ensures id in TxnIds(Credits(b))
    {
      assert id in Elems(Enumeration.TxnsOf(cands));
      var txn := CandidateMember(b, eng, r.pool, o, id);
      PoolMember(b, eng, r.settled.consumed, txn);
      IdOfTxn(Credits(b), txn);
    }
  }

  lemma ListedIsNamed(cands: seq<Enumeration.Candidate>)
    requires cands != []
    ensures Enumeration.TxnsOf(cands) != []
  {
  }

  lemma IdOfTxn(txns: seq<BankTxn>, t: BankTxn)
    requires t in txns
    ensures t.txnId in TxnIds(txns)
  {
    var i :| 0 <= i < |txns| && txns[i] == t;
    assert TxnIds(txns)[i] == t.txnId;
  }

  lemma TxnOfId(txns: seq<BankTxn>, id: string) returns (t: BankTxn)
    requires id in TxnIds(txns)
    ensures t in txns && t.txnId == id
  {
    var i :| 0 <= i < |txns| && TxnIds(txns)[i] == id;
    t := txns[i];
  }

  lemma RefsAreBanked(b: Batch, v: OrderVerdict)
    requires forall id :: id in v.evidence.sourceRows ==> id in TxnIds(Credits(b))
    ensures forall id :: id in v.evidence.sourceRows ==> id in TxnIds(b.bank)
  {
    hide Credits, TxnIds;
    forall id | id in v.evidence.sourceRows
      ensures id in TxnIds(b.bank)
    {
      var t := TxnOfId(Credits(b), id);
      CreditIsBanked(b, t);
    }
  }

  // ------------------------------------------------------------ their certificates

  lemma UnpaidAmounts(k: Check, o: Order, v: OrderVerdict)
    requires Fresh(k, o, v) && v.verdict.GenuinelyUnpaid?
    requires (v.evidence.passUsed.Exhausted? || v.evidence.passUsed.Pass4Rejected?)
    ensures AmountErrors(k) == {}
  {
    hide Fresh, ClaimedRows, Sum, TheRecon, AmountsByName, TermAmount, GatewayTerms, CreditTerms, ReceiptTerms;
    FreshSources(k, o, v);
    ClaimsItsVerdict(k, o, v);
    FreshAmounts(k, o, v);
    var invoice := AmountTerm(InvoiceTerm, o.amountPaise, o.orderId, AmountField);
    var exposure := AmountTerm(UnpaidExposure, -o.amountPaise, "", NoField);
    assert k.cert.claim.amountTerms == [invoice, exposure];
    SumFew(invoice, exposure, exposure, TermAmount);
    TermAmounts(invoice, exposure, exposure, exposure);
    TwoNames(invoice, exposure);
  }

  lemma UnpaidRules(k: Check, o: Order, v: OrderVerdict)
    requires Fresh(k, o, v) && v.verdict.GenuinelyUnpaid?
    requires (v.evidence.passUsed.Exhausted? || v.evidence.passUsed.Pass4Rejected?)
    requires v.moneyReceivedPaise == 0 && v.deltaDuePaise == 0
    ensures RuleErrors(k) == {}
  {
    hide Fresh, TheRecon, RuleAllowed;
    FreshRules(k, o, v);
    FreshAmounts(k, o, v);
  }

  lemma TwoNames(s: AmountTerm, t: AmountTerm)
    requires s.name != t.name
    ensures AmountsByName([s, t]) == map[s.name := s.amountPaise, t.name := t.amountPaise]
  {
    assert [s, t][..1] == [s] && [s][..0] == [];
    assert AmountsByName([s]) == map[s.name := s.amountPaise];
  }

  /** A credit of the feed that the verifier would hold against the claim that the search was exhausted. */
  ghost predicate Held(k: Check, b: Batch, o: Order, t: BankTxn) {
    t in Credits(b) && t.amountPaise in PossibleAmounts(o.amountPaise) && k.reader.plausibleOwner(OrderRow(o), t)
  }

  lemma ContradictionIsHeld(k: Check, b: Batch, o: Order, v: OrderVerdict)
    requires IssuedOver(k, b, o, v)
    ensures (exists r :: r in Uniques(k.rows) && Contradicts(k, r)) <==> exists t :: Held(k, b, o, t)
  {
    hide RowsOf, Validated, Fresh, RowId, Uniques, Indexed;
    FreshIds(k, o, v);
    FreshAmounts(k, o, v);
    OrderNamed(o);
    FreshIsKeyed(k, o, v);
    if r :| r in Uniques(k.rows) && Contradicts(k, r) {
      RowsMembers(b, r);
      assert Held(k, b, o, r.txn);
    }
    if t :| Held(k, b, o, t) {
      RowsMembers(b, BankRow(t));
      assert Contradicts(k, BankRow(t));
    }
  }

  lemma NoScoredUnpaid(k: Check, o: Order, v: OrderVerdict)
    requires Fresh(k, o, v) && v.verdict.GenuinelyUnpaid? && v.evidence.passUsed.Pass4Fuzzy?
    ensures !RuleFitsVerdict(k)
  {
    hide Fresh;
    FreshRules(k, o, v);
  }

  lemma ExhaustedEvidence(k: Check, b: Batch, o: Order, v: OrderVerdict)
    requires IssuedOver(k, b, o, v) && v.verdict.GenuinelyUnpaid?
    requires v.evidence == PlainEvidence(Exhausted, [], ExactPath, true) && OrderCaptures(k) == CapsOf(b, o.orderId)
    ensures EnvelopeErrors(k) == {} && !Raises(k)
    ensures EvidenceErrors(k) == {} <==> CapsOf(b, o.orderId) == [] && forall t :: !Held(k, b, o, t)
  {
    hide RowsOf, Validated, Fresh, TheRecon, OrderCaptures, Contradicts, Held, CapsOf, Uniques;
    FreshRules(k, o, v);
    FreshAmounts(k, o, v);
    ContradictionIsHeld(k, b, o, v);
  }

  lemma RejectedEvidence(k: Check, b: Batch, o: Order, v: OrderVerdict)
    requires IssuedOver(k, b, o, v) && v.verdict.GenuinelyUnpaid? && v.evidence.passUsed.Pass4Rejected?
    requires v.evidence.automationPath.ProbabilisticPath? && !v.evidence.riskAuthorized && v.evidence.sourceRows != []
    requires forall id :: id in v.evidence.sourceRows ==> id in TxnIds(Credits(b))
    requires ClaimedCredits(k) == Filter(Credits(b), Referring(v.evidence.sourceRows))
    ensures !Raises(k)
    ensures EvidenceErrors(k) == {}
       <==> forall t :: t in Credits(b) && t.txnId in v.evidence.sourceRows ==> t.amountPaise in PossibleAmounts(o.amountPaise)
  {
    hide RowsOf, Validated, Fresh, TheRecon, ClaimedCredits, Filter, Credits, InvoiceOf, TxnIds, PossibleAmounts;
    FreshRules(k, o, v);
    FreshAmounts(k, o, v);
    FreshSources(k, o, v);
    var first := TxnOfId(Credits(b), v.evidence.sourceRows[0]);
    assert Referring(v.evidence.sourceRows)(first) && first in ClaimedCredits(k);
    assert forall t :: t in ClaimedCredits(k) <==> t in Credits(b) && t.txnId in v.evidence.sourceRows by {
      assert forall t :: Referring(v.evidence.sourceRows)(t) <==> t.txnId in v.evidence.sourceRows;
    }
  }

  /**
   * An unpaid order's certificate, exactly. After an exhausted search: no gateway row of the order, and no credit in the
   * whole feed that could be its payment. After rejected candidates: every one of them has one of the verifier's four
   * amounts. After a match that was classified away: never.
   */
  lemma UnpaidAcceptedExactly(b: Batch, eng: Engine, cfg: Config, r: Run, o: Order, k: Check)
    requires IsRun(b, eng, cfg, r) && o in b.orders && r.verdicts[o.orderId].verdict.GenuinelyUnpaid?
    requires Fresh(k, o, r.verdicts[o.orderId]) && k.rows == RowsOf(b)
    ensures var v := r.verdicts[o.orderId];
            Accepts(k)
            <==> match v.evidence.passUsed
                 case Exhausted => CapsOf(b, o.orderId) == [] && forall t :: !Held(k, b, o, t)
                 case Pass4Rejected =>
                   && SoundProvenance(v.evidence)
                   && forall t :: t in Credits(b) && t.txnId in v.evidence.sourceRows
                                  ==> t.amountPaise in PossibleAmounts(o.amountPaise)
                 case _ => false
  {
    hide IsRun, Fresh, Accepts, EnvelopeErrors, AmountErrors, RuleErrors, EvidenceErrors, Raises, RowsOf, Validated,
         OrderCaptures, ClaimedCaptures, ClaimedCredits, ClaimedRows, Filter, Credits, TxnIds;
    RunIsValidated(b, eng, cfg, r);
    RunVerdict(b, eng, cfg, r, o);
    UnpaidVerdict(b, eng, cfg, r, o);
    var v := r.verdicts[o.orderId];
    if v.evidence.passUsed.Pass4Fuzzy? {
      if Accepts(k) {
        AcceptedRules(k);
        NoScoredUnpaid(k, o, v);
      }
    } else {
      RefsAreBanked(b, v);
      CreditsClaimed(k, b, o, v);
      FreshAccepted(k, o, v);
      UnpaidAmounts(k, o, v);
      UnpaidRules(k, o, v);
      if v.evidence.passUsed.Exhausted? {
        ExhaustedEvidence(k, b, o, v);
      } else {
        FreshEnvelope(k, o, v);
        RejectedEvidence(k, b, o, v);
      }
    }
  }
}
