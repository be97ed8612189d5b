/** Issuer and verifier agree on accounting identities. */
module IdentityProofs {
  import opened Prelude
  import opened Models
  import opened SourceRows
  import opened Certificates
  import opened Identities
  import opened Verifier
  import opened IdentityVerifier
  import ProofSoundness
  import ProofCompleteness

  function EventAmount(e: FinanceEvent): int { e.amountPaise }
  function CaptureAmount(c: Capture): int { c.amountPaise }

  // ------------------------------------------------------------ sums and permutations of terms

  lemma {:induction false} FlatMapSum<A>(s: seq<A>, f: A -> seq<AmountTerm>, g: A -> int)
    requires forall x :: x in s ==> Sum(f(x), TermAmount) == g(x)
    ensures Sum(FlatMap(s, f), TermAmount) == Sum(s, g)
  {
    if s != [] {
      var rest, last := s[..|s| - 1], s[|s| - 1];
      FlatMapSum(rest, f, g);
      SumConcat(FlatMap(rest, f), f(last), TermAmount);
      SumSnoc(rest, last, g);
      assert s == rest + [last];
    }
  }

  lemma {:induction false} FlatMapConcat<A, B>(a: seq<A>, b: seq<A>, f: A -> seq<B>)
    ensures FlatMap(a + b, f) == FlatMap(a, f) + FlatMap(b, f)
  {
    if b == [] {
      assert FlatMap(b, f) == [];
      assert a + b == a;
    } else {
      hide FlatMap;
      var rest, last := b[..|b| - 1], b[|b| - 1];
      FlatMapConcat(a, rest, f);
      assert b == rest + [last];
      Assoc(a, rest, [last]);
      FlatMapSnoc(a + rest, last, f);
      FlatMapSnoc(rest, last, f);
      Assoc(FlatMap(a, f), FlatMap(rest, f), f(last));
    }
  }

  lemma Assoc<T>(a: seq<T>, b: seq<T>, c: seq<T>)
    ensures a + (b + c) == (a + b) + c
  {
  }

  lemma FlatMapSnoc<A, B>(s: seq<A>, x: A, f: A -> seq<B>)
    ensures FlatMap(s + [x], f) == FlatMap(s, f) + f(x)
  {
    assert (s + [x])[..|s|] == s;
  }

  lemma FlatMapOne<A, B>(x: A, f: A -> seq<B>)
    ensures FlatMap([x], f) == f(x)
  {
    assert [x][..0] == [];
  }

  lemma FlatMapRemoveAt<A, B>(s: seq<A>, i: nat, f: A -> seq<B>)
    requires i < |s|
    ensures multiset(FlatMap(s, f)) == multiset(f(s[i])) + multiset(FlatMap(RemoveAt(s, i), f))
  {
    hide FlatMap;
    var front, back := s[..i], s[i + 1..];
    assert s == front + ([s[i]] + back);
    FlatMapConcat(front, [s[i]] + back, f);
    FlatMapConcat([s[i]], back, f);
    FlatMapOne(s[i], f);
    FlatMapConcat(front, back, f);
  }

  lemma {:induction false} FlatMapPermutation<A, B>(a: seq<A>, b: seq<A>, f: A -> seq<B>)
    requires multiset(a) == multiset(b)
    ensures multiset(FlatMap(a, f)) == multiset(FlatMap(b, f))
  {
    if a == [] {
      assert |multiset(b)| == 0;
    } else {
      assert a[0] in multiset(b);
      var i :| 0 <= i < |b| && b[i] == a[0];
      MultisetRemoveAt(a, 0);
      MultisetRemoveAt(b, i);
      FlatMapRemoveAt(a, 0, f);
      FlatMapRemoveAt(b, i, f);
      FlatMapPermutation(RemoveAt(a, 0), RemoveAt(b, i), f);
    }
  }

  lemma {:induction false} DistinctMultiset<A>(s: seq<A>)
    requires NoDup(s)
    ensures multiset(s) == multiset(Elems(s))
  {
    if s != [] {
      var rest, last := s[..|s| - 1], s[|s| - 1];
      assert s == rest + [last];
      assert NoDup(rest) && last !in rest;
      DistinctMultiset(rest);
      assert Elems(s) == Elems(rest) + {last};
    }
  }

  lemma SameDistinctElements<A>(a: seq<A>, b: seq<A>)
    requires NoDup(a) && NoDup(b) && Elems(a) == Elems(b)
    ensures multiset(a) == multiset(b)
  {
    DistinctMultiset(a);
    DistinctMultiset(b);
  }

  /** Captures net of fee and tax, less refunds, plus signed adjustments. */
  lemma SettlementTermsSum(caps: seq<Capture>, refunds: seq<FinanceEvent>, adjustments: seq<FinanceEvent>)
    ensures Sum(SettlementTerms(caps, refunds, adjustments), TermAmount)
         == Sum(caps, NetOf) - Sum(refunds, EventAmount) + Sum(adjustments, EventAmount)
  {
    forall c | c in caps
      ensures Sum(NetTerms(c), TermAmount) == NetOf(c)
    {
      SumFew(NetTerms(c)[0], NetTerms(c)[1], NetTerms(c)[2], TermAmount);
      assert NetTerms(c) == [NetTerms(c)[0], NetTerms(c)[1], NetTerms(c)[2]];
    }
    FlatMapSum(caps, NetTerms, NetOf);
    RefundTermsSum(refunds);
    OneTermSum(adjustments, AdjustmentTerms);
    SumConcat(FlatMap(caps, NetTerms), FlatMap(refunds, RefundTerms), TermAmount);
    SumConcat(FlatMap(caps, NetTerms) + FlatMap(refunds, RefundTerms), FlatMap(adjustments, AdjustmentTerms), TermAmount);
  }

  function NegatedAmount(e: FinanceEvent): int { -e.amountPaise }

  lemma {:induction false} SumNegated(es: seq<FinanceEvent>)
    ensures Sum(es, NegatedAmount) == -Sum(es, EventAmount)
  {
    if es != [] {
      SumNegated(es[1..]);
    }
  }

  lemma RefundTermsSum(es: seq<FinanceEvent>)
    ensures Sum(FlatMap(es, RefundTerms), TermAmount) == -Sum(es, EventAmount)
  {
    forall e | e in es
      ensures Sum(RefundTerms(e), TermAmount) == NegatedAmount(e)
    {
      SumFew(RefundTerms(e)[0], RefundTerms(e)[0], RefundTerms(e)[0], TermAmount);
    }
    FlatMapSum(es, RefundTerms, NegatedAmount);
    SumNegated(es);
  }

  lemma OneTermSum(es: seq<FinanceEvent>, f: FinanceEvent -> seq<AmountTerm>)
    requires forall e :: |f(e)| == 1 && f(e)[0].amountPaise == e.amountPaise
    ensures Sum(FlatMap(es, f), TermAmount) == Sum(es, EventAmount)
  {
    forall e | e in es
      ensures Sum(f(e), TermAmount) == EventAmount(e)
    {
      assert f(e) == [f(e)[0]];
      SumFew(f(e)[0], f(e)[0], f(e)[0], TermAmount);
    }
    FlatMapSum(es, f, EventAmount);
  }

  lemma PaymentTermsSum(caps: seq<Capture>)
    ensures Sum(FlatMap(caps, PaymentTerms), TermAmount) == Sum(caps, CaptureAmount)
  {
    forall c | c in caps
      ensures Sum(PaymentTerms(c), TermAmount) == CaptureAmount(c)
    {
      SumFew(PaymentTerms(c)[0], PaymentTerms(c)[0], PaymentTerms(c)[0], TermAmount);
    }
    FlatMapSum(caps, PaymentTerms, CaptureAmount);
  }

  // ------------------------------------------------------------ soundness

  lemma AcceptedIdentity(k: IdentityCheck)
    requires IdentityAccepted(k)
    ensures multiset(ExpectedIdentityTerms(k)) == multiset(k.cert.claim.amountTerms)
    ensures SidesAgree(k) && !k.cert.claim.rule.OtherIdentity? && SubjectFits(k) && !NoCounterpart(k)
    ensures forall r :: r in NamedRows(k) ==> !EventMeaningless(r)
  {
    hide ExpectedIdentityTerms, SidesAgree, SubjectFits, NoCounterpart, NamedRows, EventMeaningless, BindingErrors,
         IdentityTermErrors, IdentityEnvelope;
    ProofSoundness.NotRaised(multiset(ExpectedIdentityTerms(k)) != multiset(k.cert.claim.amountTerms), IdentityTermSchemaInvalid);
    ProofSoundness.NotRaised(!SidesAgree(k), IdentityAmountMismatch);
    ProofSoundness.NotRaised(k.cert.claim.rule.OtherIdentity?, IdentityRuleNotAllowed);
    ProofSoundness.NotRaised((exists r :: r in NamedRows(k) && EventMeaningless(r))
                             || (!k.cert.claim.rule.OtherIdentity? && (!SubjectFits(k) || NoCounterpart(k))),
                             IdentitySourceInvalid);
  }

  lemma AcceptedTotal(k: IdentityCheck)
    requires IdentityAccepted(k)
    ensures Subject(k) in Indexed(k.rows) && AmountOf(Indexed(k.rows)[Subject(k)]) == Sum(ExpectedIdentityTerms(k), TermAmount)
  {
    hide ExpectedIdentityTerms, IdentityAccepted, Sum;
    AcceptedIdentity(k);
    SumPermutation(ExpectedIdentityTerms(k), k.cert.claim.amountTerms, TermAmount);
  }

  /**
   * An accepted settlement identity: the processed settlement is its claimed captures net of fee and tax, less the
   * processed refunds on them, plus its adjustments with their proper signs.
   */
  lemma SettlementIdentityBalances(k: IdentityCheck) returns (s: FinanceEvent)
    requires IdentityAccepted(k) && k.cert.claim.rule.SettlementNet?
    ensures EventRow(s) in k.rows && s.Settlement? && s.status.Processed? && s.settlementId == Subject(k)
    ensures SettledCaptures(k) != []
    ensures s.amountPaise == Sum(SettledCaptures(k), NetOf) - Sum(SettledRefunds(k), EventAmount)
                             + Sum(SettledAdjustments(k), EventAmount)
    ensures forall a :: a in SettledAdjustments(k) ==>
              && a.Adjustment? && a.amountPaise != 0
              && ((a.kind.CreditKind? || a.kind.FeeReversalKind?) ==> a.amountPaise > 0)
              && (a.kind.DebitKind? ==> a.amountPaise < 0)
  {
    hide IdentityAccepted, NamedRows, Indexed, Sum;
    AcceptedIdentity(k);
    AcceptedTotal(k);
    SettlementTermsSum(SettledCaptures(k), SettledRefunds(k), SettledAdjustments(k));
    s := Indexed(k.rows)[Subject(k)].event;
    forall a | a in SettledAdjustments(k)
      ensures a.Adjustment? && !EventMeaningless(EventRow(a))
    {
      assert AdjustmentOf(Subject(k))(a);
    }
  }

  /** An accepted invoice identity: captured payments less processed refunds plus withheld tax make the invoice. */
  lemma InvoiceIdentityBalances(k: IdentityCheck) returns (o: Order)
    requires IdentityAccepted(k) && k.cert.claim.rule.InvoiceCoverage?
    ensures OrderRow(o) in k.rows && o.orderId == Subject(k) && InvoicePayments(k) != []
    ensures o.amountPaise == Sum(InvoicePayments(k), CaptureAmount) - Sum(InvoiceRefunds(k), EventAmount)
                             + Sum(InvoiceWithholding(k), EventAmount)
    ensures forall e :: e in InvoiceWithholding(k) ==> e.amountPaise > 0
  {
    hide IdentityAccepted, NamedRows, Indexed, Sum;
    AcceptedIdentity(k);
    AcceptedTotal(k);
    var pays, refunds, taxes := InvoicePayments(k), InvoiceRefunds(k), InvoiceWithholding(k);
    PaymentTermsSum(pays);
    RefundTermsSum(refunds);
    OneTermSum(taxes, WithholdingTerms);
    SumConcat(FlatMap(pays, PaymentTerms), FlatMap(refunds, RefundTerms), TermAmount);
    SumConcat(FlatMap(pays, PaymentTerms) + FlatMap(refunds, RefundTerms), FlatMap(taxes, WithholdingTerms), TermAmount);
    o := Indexed(k.rows)[Subject(k)].order;
    forall e | e in taxes
      ensures e.amountPaise > 0
    {
      assert WithholdingFor(Subject(k))(e) && !EventMeaningless(EventRow(e));
    }
  }

  // ------------------------------------------------------------ completeness: the rows an identity certificate names

  /** The check of a certificate just built for the result, against the rows it was built over. */
  ghost predicate FreshIdentity(k: IdentityCheck, result: IdentityResult, subject: string) {
    && WellKeyed(k.rows) && BATCH_ROOT !in RowIds(k.rows)
    && {subject} + Elems(result.sourceRefs) <= Indexed(k.rows).Keys
    && k.cert.claim == IdentityClaimFor(result, k.rows, subject, k.dig)
    && k.cert.proofHash == k.dig.payload(k.cert.claim)
  }

  /** The claimed rows are exactly these. */
  ghost predicate NamesExactly(k: IdentityCheck, members: seq<Row>) {
    forall r :: r in NamedRows(k) <==> r in members
  }

  lemma FreshIdentityBinds(k: IdentityCheck, result: IdentityResult, subject: string)
    requires FreshIdentity(k, result, subject)
    ensures IdentityEnvelope(k) == {} && BindingErrors(k) == {}
    ensures Named(k) == {subject} + Elems(result.sourceRefs)
    ensures Uniques(k.rows) == k.rows && NoDup(RowIds(k.rows))
    ensures k.cert.claim.rule == result.rule && k.cert.claim.amountTerms == result.terms
    ensures k.cert.claim.lhsPaise == result.lhsPaise && k.cert.claim.rhsPaise == result.rhsPaise && Subject(k) == subject
  {
    hide Indexed, Uniques, RowIds;
    ProofCompleteness.RootIsNoRow(k.rows);
    DistinctRowsAreIndexed(k.rows);
    var ids := {subject} + Elems(result.sourceRefs);
    assert Named(k) == ids;
    HashesAgree(k, ids);
  }

  lemma HashesAgree(k: IdentityCheck, ids: set<string>)
    requires ids == Named(k) && ids <= Indexed(k.rows).Keys
    requires forall id :: id in ids ==> id in k.cert.claim.sourceHashes
                                        && k.cert.claim.sourceHashes[id] == k.dig.row(Indexed(k.rows)[id])
    ensures HashErrors(k.cert.claim.sourceHashes, k.rows, k.dig.row, Named(k)) == {}
  {
    hide Indexed;
  }

  lemma NamedAreMembers(k: IdentityCheck, result: IdentityResult, subject: string, members: seq<Row>)
    requires FreshIdentity(k, result, subject)
    requires forall r :: r in members ==> r in k.rows
    requires {subject} + Elems(result.sourceRefs) == Elems(RowIds(members))
    ensures NamesExactly(k, members) && NoDup(NamedRows(k))
    ensures forall r :: r in members ==> RowId(r) in Named(k) && RowId(r) in Indexed(k.rows) && Indexed(k.rows)[RowId(r)] == r
  {
    hide Indexed, Uniques, IdentityClaimFor;
    FreshIdentityBinds(k, result, subject);
    DistinctRowsAreIndexed(k.rows);
    forall r
      ensures r in NamedRows(k) <==> r in members
    {
      if r in NamedRows(k) {
        assert RowId(r) in Elems(RowIds(members));
        var i :| 0 <= i < |members| && RowIds(members)[i] == RowId(r);
        assert members[i] in members && Indexed(k.rows)[RowId(r)] == members[i];
      }
      if r in members {
        ProofCompleteness.IdOfRow(members, r);
        assert IdIn(Named(k))(r);
      }
    }
    forall r | r in members
      ensures RowId(r) in Named(k)
    {
      ProofCompleteness.IdOfRow(members, r);
    }
    RowsNoDup(k.rows);
    FilterNoDup(k.rows, IdIn(Named(k)));
  }

  lemma {:induction false} KindsNoDup(rows: seq<Row>)
    requires NoDup(rows)
    ensures NoDup(CapturesIn(rows)) && NoDup(EventsIn(rows))
  {
    if rows != [] {
      assert forall i, j :: 0 <= i < j < |rows[1..]| ==> rows[1..][i] == rows[i + 1] && rows[1..][j] == rows[j + 1];
      KindsNoDup(rows[1..]);
      assert rows[0] !in rows[1..];
    }
  }

  /** A term over a member row's own column. */
  predicate TermOn(t: AmountTerm, r: Row) {
    && t.sourceRowId == RowId(r) && IntField(r, t.sourceField).Some?
    && Abs(t.amountPaise) == Abs(IntField(r, t.sourceField).value)
  }

  lemma {:induction false} FlatMapMember<A, B>(s: seq<A>, f: A -> seq<B>, y: B)
    ensures y in FlatMap(s, f) <==> exists x :: x in s && y in f(x)
  {
    if s != [] {
      var rest, last := s[..|s| - 1], s[|s| - 1];
      FlatMapMember(rest, f, y);
      assert s == rest + [last];
    }
  }

  lemma NamesOf(ts: seq<AmountTerm>, id: string)
    ensures id in Map(ts, SourceOf) <==> exists t :: t in ts && t.sourceRowId == id
  {
    var names := Map(ts, SourceOf);
    if id in names {
      var i :| 0 <= i < |names| && names[i] == id;
      assert ts[i] in ts;
    }
    if exists t :: t in ts && t.sourceRowId == id {
      var t :| t in ts && t.sourceRowId == id;
      var i :| 0 <= i < |ts| && ts[i] == t;
      assert names[i] == SourceOf(ts[i]) == id;
    }
  }

  ghost predicate AllOnMembers(ts: seq<AmountTerm>, members: seq<Row>) {
    forall t :: t in ts ==> exists r :: r in members && TermOn(t, r)
  }

  ghost predicate EveryMemberNamed(ts: seq<AmountTerm>, members: seq<Row>) {
    forall r :: r in members ==> exists t :: t in ts && t.sourceRowId == RowId(r)
  }

  lemma TermsNameMembers(ts: seq<AmountTerm>, members: seq<Row>, id: string)
    requires AllOnMembers(ts, members) && EveryMemberNamed(ts, members)
    ensures id in Map(ts, SourceOf) <==> id in RowIds(members)
  {
    hide TermOn, Map, RowId;
    NamesOf(ts, id);
    if id in Map(ts, SourceOf) {
      var t :| t in ts && t.sourceRowId == id;
      var r :| r in members && TermOn(t, r);
      TermOnMeans(t, r);
      ProofCompleteness.IdOfRow(members, r);
    }
    if id in RowIds(members) {
      var r := RowWithId(members, id);
    }
  }

  lemma RowWithId(rows: seq<Row>, id: string) returns (r: Row)
    requires id in RowIds(rows)
    ensures r in rows && RowId(r) == id
  {
    var i :| 0 <= i < |rows| && RowIds(rows)[i] == id;
    r := rows[i];
  }

  /** When terms and rows cover each other, the certificate's references are the ids of subject and rows. */
  lemma ReferencesAreMembers(result: IdentityResult, subjectRow: Row, members: seq<Row>)
    requires result.sourceRefs == [RowId(subjectRow)] + Map(result.terms, SourceOf)
    requires AllOnMembers(result.terms, members) && EveryMemberNamed(result.terms, members)
    ensures {RowId(subjectRow)} + Elems(result.sourceRefs) == Elems(RowIds([subjectRow] + members))
  {
    hide AllOnMembers, EveryMemberNamed, RowId;
    assert RowIds([subjectRow] + members) == [RowId(subjectRow)] + RowIds(members);
    hide RowIds, Map;
    forall id
      ensures id in Map(result.terms, SourceOf) <==> id in RowIds(members)
    {
      TermsNameMembers(result.terms, members, id);
    }
  }

  lemma TermOnMeans(t: AmountTerm, r: Row)
    requires TermOn(t, r)
    ensures t.sourceRowId == RowId(r)
  {
  }

  lemma MemberTermsFit(k: IdentityCheck, result: IdentityResult, subject: string, members: seq<Row>)
    requires FreshIdentity(k, result, subject)
    requires forall r :: r in members ==> RowId(r) in Named(k) && RowId(r) in Indexed(k.rows) && Indexed(k.rows)[RowId(r)] == r
    requires AllOnMembers(result.terms, members)
    ensures IdentityTermErrors(k) == {}
  {
    hide Indexed, IntField, IdentityClaimFor, RowIds, WellKeyed;
    FreshTerms(k, result, subject);
    forall t | t in k.cert.claim.amountTerms
      ensures IdentityTermSourced(k, t) && !IdentityTermDiffers(k, t)
    {
      var r :| r in members && TermOn(t, r);
    }
  }

  lemma FreshTerms(k: IdentityCheck, result: IdentityResult, subject: string)
    requires FreshIdentity(k, result, subject)
    ensures k.cert.claim.amountTerms == result.terms
  {
  }

  // ------------------------------------------------------------ the settlement identity

  function LegRows(caps: seq<Capture>, refunds: seq<FinanceEvent>, others: seq<FinanceEvent>): seq<Row> {
    CaptureRows(caps) + EventRows(refunds) + EventRows(others)
  }

  lemma LegMembers(caps: seq<Capture>, refunds: seq<FinanceEvent>, others: seq<FinanceEvent>, r: Row)
    ensures r in LegRows(caps, refunds, others)
       <==> (r.CaptureRow? && r.capture in caps) || (r.EventRow? && (r.event in refunds || r.event in others))
  {
    hide CaptureRows, EventRows;
    CaptureRowsMembers(caps, r);
    EventRowsMembers(refunds, r);
    EventRowsMembers(others, r);
  }

  /** Every term of a leg is over its row, and every row of the leg has a term. */
  ghost predicate LegCovered<A(!new)>(s: seq<A>, f: A -> seq<AmountTerm>, row: A -> Row) {
    && (forall x, t :: x in s && t in f(x) ==> TermOn(t, row(x)))
    && (forall x :: x in s ==> exists t :: t in f(x) && t.sourceRowId == RowId(row(x)))
  }

  lemma LegTermOn<A(!new)>(s: seq<A>, f: A -> seq<AmountTerm>, row: A -> Row, t: AmountTerm)
    requires LegCovered(s, f, row) && t in FlatMap(s, f)
    ensures exists x :: x in s && TermOn(t, row(x))
  {
    FlatMapMember(s, f, t);
  }

  lemma LegRowNamed<A(!new)>(s: seq<A>, f: A -> seq<AmountTerm>, row: A -> Row, x: A)
    requires LegCovered(s, f, row) && x in s
    ensures exists t :: t in FlatMap(s, f) && t.sourceRowId == RowId(row(x))
  {
    var t :| t in f(x) && t.sourceRowId == RowId(row(x));
    FlatMapMember(s, f, t);
  }

  function RowOfCapture(c: Capture): Row { CaptureRow(c) }
  function RowOfEvent(e: FinanceEvent): Row { EventRow(e) }

  lemma NetLegs(caps: seq<Capture>)
    ensures LegCovered(caps, NetTerms, RowOfCapture)
  {
    forall c | c in caps
      ensures exists t :: t in NetTerms(c) && t.sourceRowId == RowId(RowOfCapture(c))
    {
      assert NetTerms(c)[0] in NetTerms(c);
    }
  }

  lemma PaymentLegs(caps: seq<Capture>)
    ensures LegCovered(caps, PaymentTerms, RowOfCapture)
  {
    forall c | c in caps
      ensures exists t :: t in PaymentTerms(c) && t.sourceRowId == RowId(RowOfCapture(c))
    {
      assert PaymentTerms(c)[0] in PaymentTerms(c);
    }
  }

  lemma EventLegs(events: seq<FinanceEvent>)
    ensures LegCovered(events, RefundTerms, RowOfEvent) && LegCovered(events, AdjustmentTerms, RowOfEvent)
    ensures LegCovered(events, WithholdingTerms, RowOfEvent)
  {
    hide EventId;
    forall e | e in events
      ensures exists t :: t in RefundTerms(e) && t.sourceRowId == RowId(RowOfEvent(e))
      ensures exists t :: t in AdjustmentTerms(e) && t.sourceRowId == RowId(RowOfEvent(e))
      ensures exists t :: t in WithholdingTerms(e) && t.sourceRowId == RowId(RowOfEvent(e))
    {
      assert RefundTerms(e)[0] in RefundTerms(e) && AdjustmentTerms(e)[0] in AdjustmentTerms(e);
      assert WithholdingTerms(e)[0] in WithholdingTerms(e);
    }
  }

  lemma LegsCover(caps: seq<Capture>, refunds: seq<FinanceEvent>, others: seq<FinanceEvent>,
                  f: Capture -> seq<AmountTerm>, g: FinanceEvent -> seq<AmountTerm>)
    requires LegCovered(caps, f, RowOfCapture) && LegCovered(refunds, RefundTerms, RowOfEvent)
    requires LegCovered(others, g, RowOfEvent)
    ensures var terms := FlatMap(caps, f) + FlatMap(refunds, RefundTerms) + FlatMap(others, g);
            AllOnMembers(terms, LegRows(caps, refunds, others)) && EveryMemberNamed(terms, LegRows(caps, refunds, others))
  {
    hide LegCovered, TermOn, RowId, LegRows, RefundTerms, FlatMap;
    var terms := FlatMap(caps, f) + FlatMap(refunds, RefundTerms) + FlatMap(others, g);
    var members := LegRows(caps, refunds, others);
    forall t | t in terms
      ensures exists r :: r in members && TermOn(t, r)
    {
      if t in FlatMap(caps, f) {
        LegTermOn(caps, f, RowOfCapture, t);
        var c :| c in caps && TermOn(t, RowOfCapture(c));
        LegMembers(caps, refunds, others, RowOfCapture(c));
      } else if t in FlatMap(refunds, RefundTerms) {
        LegTermOn(refunds, RefundTerms, RowOfEvent, t);
        var e :| e in refunds && TermOn(t, RowOfEvent(e));
        LegMembers(caps, refunds, others, RowOfEvent(e));
      } else {
        LegTermOn(others, g, RowOfEvent, t);
        var e :| e in others && TermOn(t, RowOfEvent(e));
        LegMembers(caps, refunds, others, RowOfEvent(e));
      }
    }
    forall r | r in members
      ensures exists t :: t in terms && t.sourceRowId == RowId(r)
    {
      LegMembers(caps, refunds, others, r);
      if r.CaptureRow? {
        LegRowNamed(caps, f, RowOfCapture, r.capture);
      } else if r.event in refunds {
        LegRowNamed(refunds, RefundTerms, RowOfEvent, r.event);
      } else {
        LegRowNamed(others, g, RowOfEvent, r.event);
      }
    }
  }

  lemma NamesSubset(a: seq<Capture>, b: seq<Capture>)
    requires forall c :: c in a ==> c in b
    ensures forall p :: p in PaymentNames(a) ==> p in PaymentNames(b)
  {
    forall p | p in PaymentNames(a)
      ensures p in PaymentNames(b)
    {
      var i :| 0 <= i < |a| && PaymentNames(a)[i] == p;
      assert a[i] in b;
      var j :| 0 <= j < |b| && b[j] == a[i];
      assert PaymentNames(b)[j] == p;
    }
  }

  lemma NamesNoDup(caps: seq<Capture>, refunds: seq<FinanceEvent>, others: seq<string>)
    requires NoDup(PaymentNames(caps) + EventIds(refunds) + others)
    ensures NoDup(caps) && NoDup(refunds)
  {
    var all := PaymentNames(caps) + EventIds(refunds) + others;
    forall i, j | 0 <= i < j < |caps|
      ensures caps[i] != caps[j]
    {
      assert all[i] != all[j];
    }
    forall i, j | 0 <= i < j < |refunds|
      ensures refunds[i] != refunds[j]
    {
      assert all[|caps| + i] != all[|caps| + j];
    }
  }

  lemma EventsNoDup(before: seq<string>, events: seq<FinanceEvent>)
    requires NoDup(before + EventIds(events))
    ensures NoDup(events)
  {
    var all := before + EventIds(events);
    forall i, j | 0 <= i < j < |events|
      ensures events[i] != events[j]
    {
      assert all[|before| + i] != all[|before| + j];
    }
  }

  /** The rows a valid settlement identity was computed from, all present among the sources. */
  ghost predicate SettlementInputs(k: IdentityCheck, result: IdentityResult, s: FinanceEvent, caps: seq<Capture>,
                                   refunds: seq<FinanceEvent>, adjustments: seq<FinanceEvent>) {
    && s.Settlement? && EventRow(s) in k.rows
    && IsSettlementResult(result, s, caps, refunds, adjustments) && result.valid
    && (forall r :: r in LegRows(caps, refunds, adjustments) ==> r in k.rows)
    && (forall e :: e in refunds ==> IsProcessed(e))
    && (forall a :: a in adjustments ==> ValidEvent(a))
  }

  lemma NoFault(result: IdentityResult, s: FinanceEvent, caps: seq<Capture>, refunds: seq<FinanceEvent>,
                adjustments: seq<FinanceEvent>)
    requires s.Settlement? && IsSettlementResult(result, s, caps, refunds, adjustments) && result.valid
    ensures caps != [] && s.status.Processed? && s.amountPaise == Sum(result.terms, TermAmount)
    ensures NoDup(PaymentNames(caps) + EventIds(refunds) + EventIds(adjustments))
    ensures (forall c :: c in caps ==> OwnCapture(c, s)) && (forall r :: r in refunds ==> RefundOn(r, caps))
    ensures forall a :: a in adjustments ==> OwnAdjustment(a, s)
  {
    hide Sum, OwnCapture, RefundOn, OwnAdjustment, PaymentNames, EventIds, SettlementTerms;
    assert MissingSource !in result.errors && UnsettledEvent !in result.errors && DuplicateSource !in result.errors;
    assert ForeignSource !in result.errors && AmountIdentityMismatch !in result.errors;
    assert !AnyForeign(caps, OwnCaptureOf(s)) && !AnyForeign(refunds, RefundOnAny(caps));
    assert !AnyForeign(adjustments, OwnAdjustmentOf(s));
    forall c | c in caps
      ensures OwnCapture(c, s)
    {
      assert OwnCaptureOf(s)(c);
    }
    forall r | r in refunds
      ensures RefundOn(r, caps)
    {
      assert RefundOnAny(caps)(r);
    }
    forall a | a in adjustments
      ensures OwnAdjustment(a, s)
    {
      assert OwnAdjustmentOf(s)(a);
    }
  }

  /** The verifier finds the same captures, refunds and adjustments. */
  lemma SettlementLegsFound(k: IdentityCheck, result: IdentityResult, s: FinanceEvent, caps: seq<Capture>,
                            refunds: seq<FinanceEvent>, adjustments: seq<FinanceEvent>)
    requires SettlementInputs(k, result, s, caps, refunds, adjustments) && Subject(k) == s.settlementId
    requires NamesExactly(k, [EventRow(s)] + LegRows(caps, refunds, adjustments))
    ensures Elems(SettledCaptures(k)) == Elems(caps)
    ensures Elems(SettledRefunds(k)) == Elems(refunds)
    ensures Elems(SettledAdjustments(k)) == Elems(adjustments)
  {
    hide NamedRows, LegRows, IsSettlementResult, PaymentNames, ValidEvent;
    NoFault(result, s, caps, refunds, adjustments);
    forall c
      ensures c in SettledCaptures(k) <==> c in caps
    {
      LegMembers(caps, refunds, adjustments, CaptureRow(c));
      assert c in SettledCaptures(k) <==> CaptureRow(c) in NamedRows(k) && CapturedIn(s.settlementId)(c);
    }
    NamesSubset(SettledCaptures(k), caps);
    NamesSubset(caps, SettledCaptures(k));
    forall e
      ensures e in SettledRefunds(k) <==> e in refunds
      ensures e in SettledAdjustments(k) <==> e in adjustments
    {
      LegMembers(caps, refunds, adjustments, EventRow(e));
      assert e in SettledRefunds(k) <==> EventRow(e) in NamedRows(k) && ProcessedOn(PaymentNames(SettledCaptures(k)))(e);
      assert e in SettledAdjustments(k) <==> EventRow(e) in NamedRows(k) && AdjustmentOf(s.settlementId)(e);
      assert EventRow(e) in NamedRows(k) <==> e == s || e in refunds || e in adjustments;
    }
  }

  lemma SettlementLegsDistinct(k: IdentityCheck)
    requires NoDup(NamedRows(k))
    ensures NoDup(SettledCaptures(k)) && NoDup(SettledRefunds(k)) && NoDup(SettledAdjustments(k))
  {
    hide NamedRows, PaymentNames;
    KindsNoDup(NamedRows(k));
    FilterNoDup(CapturesIn(NamedRows(k)), CapturedIn(Subject(k)));
    FilterNoDup(EventsIn(NamedRows(k)), ProcessedOn(PaymentNames(SettledCaptures(k))));
    FilterNoDup(EventsIn(NamedRows(k)), AdjustmentOf(Subject(k)));
  }

  lemma SameLegs<A(!new)>(found: seq<A>, given: seq<A>, f: A -> seq<AmountTerm>)
    requires NoDup(found) && NoDup(given) && Elems(found) == Elems(given)
    ensures multiset(FlatMap(found, f)) == multiset(FlatMap(given, f))
  {
    SameDistinctElements(found, given);
    FlatMapPermutation(found, given, f);
  }

  lemma SettlementTermsMatch(k: IdentityCheck, result: IdentityResult, s: FinanceEvent, caps: seq<Capture>,
                             refunds: seq<FinanceEvent>, adjustments: seq<FinanceEvent>)
    requires SettlementInputs(k, result, s, caps, refunds, adjustments) && Subject(k) == s.settlementId
    requires NamesExactly(k, [EventRow(s)] + LegRows(caps, refunds, adjustments)) && NoDup(NamedRows(k))
    requires k.cert.claim.rule.SettlementNet?
    ensures multiset(ExpectedIdentityTerms(k)) == multiset(result.terms)
    ensures SettledCaptures(k) != []
  {
    hide NamedRows, LegRows, ValidEvent, NamesExactly, PaymentNames, EventIds, OwnCapture, RefundOn, OwnAdjustment,
         Sum, SettledCaptures, SettledRefunds, SettledAdjustments, FlatMap;
    NoFault(result, s, caps, refunds, adjustments);
    SettlementLegsFound(k, result, s, caps, refunds, adjustments);
    SettlementLegsDistinct(k);
    NamesNoDup(caps, refunds, EventIds(adjustments));
    EventsNoDup(PaymentNames(caps) + EventIds(refunds), adjustments);
    SameLegs(SettledCaptures(k), caps, NetTerms);
    SameLegs(SettledRefunds(k), refunds, RefundTerms);
    SameLegs(SettledAdjustments(k), adjustments, AdjustmentTerms);
    assert caps[0] in Elems(SettledCaptures(k));
  }

  lemma SettlementRowsMean(k: IdentityCheck, result: IdentityResult, s: FinanceEvent, caps: seq<Capture>,
                           refunds: seq<FinanceEvent>, adjustments: seq<FinanceEvent>)
    requires SettlementInputs(k, result, s, caps, refunds, adjustments)
    requires NamesExactly(k, [EventRow(s)] + LegRows(caps, refunds, adjustments))
    ensures forall r :: r in NamedRows(k) ==> !EventMeaningless(r)
  {
    hide NamedRows, LegRows, IsSettlementResult;
    NoFault(result, s, caps, refunds, adjustments);
    forall r | r in NamedRows(k)
      ensures !EventMeaningless(r)
    {
      LegMembers(caps, refunds, adjustments, r);
    }
  }

  /** Every valid settlement identity over well-keyed faithful rows gets a certificate that the verifier accepts. */
  lemma SettlementIdentityAccepted(k: IdentityCheck, result: IdentityResult, s: FinanceEvent, caps: seq<Capture>,
                                   refunds: seq<FinanceEvent>, adjustments: seq<FinanceEvent>)
    requires SettlementInputs(k, result, s, caps, refunds, adjustments)
    requires FreshIdentity(k, result, s.settlementId)
    ensures IdentityAccepted(k)
  {
    hide FreshIdentity, NamedRows, LegRows, Indexed, NamesExactly, SettlementTerms, ExpectedIdentityTerms,
         EventMeaningless, ValidEvent, Sum, IdentityTermErrors, BindingErrors, IdentityEnvelope, FlatMap, RowIds,
         RowId;
    var members := [EventRow(s)] + LegRows(caps, refunds, adjustments);
    SettlementNames(k, result, s, caps, refunds, adjustments);
    FreshIdentityBinds(k, result, s.settlementId);
    NamedAreMembers(k, result, s.settlementId, members);
    MemberTermsFit(k, result, s.settlementId, members);
    SettlementTermsMatch(k, result, s, caps, refunds, adjustments);
    SettlementRowsMean(k, result, s, caps, refunds, adjustments);
    NoFault(result, s, caps, refunds, adjustments);
    SubjectIsSettlement(k, s, members);
  }

  lemma SubjectIsSettlement(k: IdentityCheck, s: FinanceEvent, members: seq<Row>)
    requires s.Settlement? && s.status.Processed? && EventRow(s) in members && Subject(k) == s.settlementId
    requires k.cert.claim.rule.SettlementNet?
    requires forall r :: r in members ==> RowId(r) in Indexed(k.rows) && Indexed(k.rows)[RowId(r)] == r
    ensures SubjectFits(k) && ExpectedLhs(k) == Some(s.amountPaise)
  {
    hide Indexed;
    assert RowId(EventRow(s)) == s.settlementId;
  }

  lemma SettlementNames(k: IdentityCheck, result: IdentityResult, s: FinanceEvent, caps: seq<Capture>,
                        refunds: seq<FinanceEvent>, adjustments: seq<FinanceEvent>)
    requires SettlementInputs(k, result, s, caps, refunds, adjustments)
    ensures var members := [EventRow(s)] + LegRows(caps, refunds, adjustments);
            && (forall r :: r in members ==> r in k.rows)
            && {s.settlementId} + Elems(result.sourceRefs) == Elems(RowIds(members))
            && AllOnMembers(result.terms, members)
  {
    hide LegCovered, LegRows, TermOn, FlatMap, AllOnMembers, EveryMemberNamed, Sum, ValidEvent, SettlementFault,
         RowIds;
    NetLegs(caps);
    EventLegs(refunds);
    EventLegs(adjustments);
    var legs := LegRows(caps, refunds, adjustments);
    LegsCover(caps, refunds, adjustments, NetTerms, AdjustmentTerms);
    assert RowId(EventRow(s)) == s.settlementId;
    ReferencesAreMembers(result, EventRow(s), legs);
    MoreMembers(result.terms, legs, EventRow(s));
  }

  lemma MembersAreIndexed(rows: seq<Row>, members: seq<Row>)
    requires forall r :: r in members ==> r in rows
    ensures Elems(RowIds(members)) <= Indexed(rows).Keys
  {
    forall id | id in Elems(RowIds(members))
      ensures id in Indexed(rows)
    {
      var r := RowWithId(members, id);
    }
  }

  /** The builder refuses no valid settlement identity over faithful rows. */
  lemma SettlementIdentityIsIssued(k: IdentityCheck, result: IdentityResult, s: FinanceEvent, caps: seq<Capture>,
                                   refunds: seq<FinanceEvent>, adjustments: seq<FinanceEvent>)
    requires SettlementInputs(k, result, s, caps, refunds, adjustments)
    ensures {s.settlementId} + Elems(result.sourceRefs) <= Indexed(k.rows).Keys
  {
    hide SettlementInputs, LegRows, RowIds;
    SettlementNames(k, result, s, caps, refunds, adjustments);
    MembersAreIndexed(k.rows, [EventRow(s)] + LegRows(caps, refunds, adjustments));
  }

  lemma MoreMembers(ts: seq<AmountTerm>, members: seq<Row>, r: Row)
    requires AllOnMembers(ts, members)
    ensures AllOnMembers(ts, [r] + members)
  {
    hide TermOn;
    forall t | t in ts
      ensures exists x :: x in [r] + members && TermOn(t, x)
    {
      var x :| x in members && TermOn(t, x);
      assert x in [r] + members;
    }
  }

  // ------------------------------------------------------------ the invoice identity

  /** The ledger entry that evidences the withheld tax, if there is any tax. */
  ghost predicate TaxEvidence(o: Order, tdsPaise: int, tdsSource: string, entries: seq<FinanceEvent>) {
    if tdsPaise == 0 then entries == []
    else
      && |entries| == 1 && WithholdingFor(o.orderId)(entries[0])
      && entries[0].entryId == tdsSource && entries[0].amountPaise == tdsPaise
  }

  ghost predicate InvoiceInputs(k: IdentityCheck, result: IdentityResult, o: Order, payments: seq<Capture>,
                                refunds: seq<FinanceEvent>, tdsPaise: int, tdsSource: string, entries: seq<FinanceEvent>) {
    && OrderRow(o) in k.rows && tdsPaise >= 0
    && IsInvoiceResult(result, o, payments, refunds, tdsPaise, tdsSource) && result.valid
    && (forall r :: r in LegRows(payments, refunds, entries) ==> r in k.rows)
    && (forall e :: e in refunds ==> IsProcessed(e))
    && TaxEvidence(o, tdsPaise, tdsSource, entries)
  }

  lemma NoInvoiceFault(result: IdentityResult, o: Order, payments: seq<Capture>, refunds: seq<FinanceEvent>,
                       tdsPaise: int, tdsSource: string)
    requires IsInvoiceResult(result, o, payments, refunds, tdsPaise, tdsSource) && result.valid
    ensures payments != [] && (tdsPaise != 0 ==> tdsSource != "") && o.amountPaise == Sum(result.terms, TermAmount)
    ensures NoDup(PaymentNames(payments) + EventIds(refunds))
    ensures (forall c :: c in payments ==> OwnPayment(c, o)) && (forall r :: r in refunds ==> OwnRefund(r, o, payments))
  {
    hide Sum, OwnPayment, OwnRefund, PaymentNames, EventIds, InvoiceTerms;
    assert MissingSource !in result.errors && TdsSourceMissing !in result.errors && DuplicateSource !in result.errors;
    assert ForeignSource !in result.errors && AmountIdentityMismatch !in result.errors;
    assert !AnyForeign(payments, OwnPaymentOf(o)) && !AnyForeign(refunds, OwnRefundOf(o, payments));
    forall c | c in payments
      ensures OwnPayment(c, o)
    {
      assert OwnPaymentOf(o)(c);
    }
    forall r | r in refunds
      ensures OwnRefund(r, o, payments)
    {
      assert OwnRefundOf(o, payments)(r);
    }
  }

  lemma TaxTermsAreEntries(o: Order, tdsPaise: int, tdsSource: string, entries: seq<FinanceEvent>)
    requires TaxEvidence(o, tdsPaise, tdsSource, entries) && (tdsPaise != 0 ==> tdsSource != "")
    ensures TaxTerms(o, tdsPaise, tdsSource) == FlatMap(entries, WithholdingTerms)
  {
    if tdsPaise != 0 {
      FlatMapOne(entries[0], WithholdingTerms);
      assert entries == [entries[0]];
    }
  }

  lemma InvoiceLegsFound(k: IdentityCheck, result: IdentityResult, o: Order, payments: seq<Capture>,
                         refunds: seq<FinanceEvent>, tdsPaise: int, tdsSource: string, entries: seq<FinanceEvent>)
    requires InvoiceInputs(k, result, o, payments, refunds, tdsPaise, tdsSource, entries) && Subject(k) == o.orderId
    requires NamesExactly(k, [OrderRow(o)] + LegRows(payments, refunds, entries))
    ensures Elems(InvoicePayments(k)) == Elems(payments)
    ensures Elems(InvoiceRefunds(k)) == Elems(refunds)
    ensures Elems(InvoiceWithholding(k)) == Elems(entries)
  {
    hide NamedRows, LegRows, IsInvoiceResult, PaymentNames;
    NoInvoiceFault(result, o, payments, refunds, tdsPaise, tdsSource);
    forall c
      ensures c in InvoicePayments(k) <==> c in payments
    {
      LegMembers(payments, refunds, entries, CaptureRow(c));
      assert c in InvoicePayments(k) <==> CaptureRow(c) in NamedRows(k) && CapturedFor(o.orderId)(c);
    }
    NamesSubset(InvoicePayments(k), payments);
    NamesSubset(payments, InvoicePayments(k));
    forall e
      ensures e in InvoiceRefunds(k) <==> e in refunds
      ensures e in InvoiceWithholding(k) <==> e in entries
    {
      LegMembers(payments, refunds, entries, EventRow(e));
      assert e in InvoiceRefunds(k) <==>
             EventRow(e) in NamedRows(k) && ProcessedFor(o.orderId, PaymentNames(InvoicePayments(k)))(e);
      assert e in InvoiceWithholding(k) <==> EventRow(e) in NamedRows(k) && WithholdingFor(o.orderId)(e);
      assert EventRow(e) in NamedRows(k) <==> e in refunds || e in entries;
    }
  }

  lemma InvoiceLegsDistinct(k: IdentityCheck)
    requires NoDup(NamedRows(k))
    ensures NoDup(InvoicePayments(k)) && NoDup(InvoiceRefunds(k)) && NoDup(InvoiceWithholding(k))
  {
    hide NamedRows, PaymentNames;
    KindsNoDup(NamedRows(k));
    FilterNoDup(CapturesIn(NamedRows(k)), CapturedFor(Subject(k)));
    FilterNoDup(EventsIn(NamedRows(k)), ProcessedFor(Subject(k), PaymentNames(InvoicePayments(k))));
    FilterNoDup(EventsIn(NamedRows(k)), WithholdingFor(Subject(k)));
  }

  lemma InvoiceTermsMatch(k: IdentityCheck, result: IdentityResult, o: Order, payments: seq<Capture>,
                          refunds: seq<FinanceEvent>, tdsPaise: int, tdsSource: string, entries: seq<FinanceEvent>)
    requires InvoiceInputs(k, result, o, payments, refunds, tdsPaise, tdsSource, entries) && Subject(k) == o.orderId
    requires NamesExactly(k, [OrderRow(o)] + LegRows(payments, refunds, entries)) && NoDup(NamedRows(k))
    requires k.cert.claim.rule.InvoiceCoverage?
    ensures multiset(ExpectedIdentityTerms(k)) == multiset(result.terms)
    ensures InvoicePayments(k) != []
  {
    hide NamedRows, LegRows, NamesExactly, PaymentNames, EventIds, OwnPayment, OwnRefund, Sum, TaxTerms,
         InvoicePayments, InvoiceRefunds, InvoiceWithholding, FlatMap;
    NoInvoiceFault(result, o, payments, refunds, tdsPaise, tdsSource);
    InvoiceLegsFound(k, result, o, payments, refunds, tdsPaise, tdsSource, entries);
    InvoiceLegsDistinct(k);
    TaxTermsAreEntries(o, tdsPaise, tdsSource, entries);
    assert PaymentNames(payments) + EventIds(refunds) + [] == PaymentNames(payments) + EventIds(refunds);
    NamesNoDup(payments, refunds, []);
    SameLegs(InvoicePayments(k), payments, PaymentTerms);
    SameLegs(InvoiceRefunds(k), refunds, RefundTerms);
    SameLegs(InvoiceWithholding(k), entries, WithholdingTerms);
    assert payments[0] in Elems(InvoicePayments(k));
  }

  lemma InvoiceNames(k: IdentityCheck, result: IdentityResult, o: Order, payments: seq<Capture>,
                     refunds: seq<FinanceEvent>, tdsPaise: int, tdsSource: string, entries: seq<FinanceEvent>)
    requires InvoiceInputs(k, result, o, payments, refunds, tdsPaise, tdsSource, entries)
    ensures var members := [OrderRow(o)] + LegRows(payments, refunds, entries);
            && (forall r :: r in members ==> r in k.rows)
            && {o.orderId} + Elems(result.sourceRefs) == Elems(RowIds(members))
            && AllOnMembers(result.terms, members)
  {
    hide LegCovered, LegRows, TermOn, FlatMap, AllOnMembers, EveryMemberNamed, Sum, TaxTerms, RowIds, TaxEvidence;
    NoInvoiceFault(result, o, payments, refunds, tdsPaise, tdsSource);
    TaxTermsAreEntries(o, tdsPaise, tdsSource, entries);
    PaymentLegs(payments);
    EventLegs(refunds);
    EventLegs(entries);
    var legs := LegRows(payments, refunds, entries);
    LegsCover(payments, refunds, entries, PaymentTerms, WithholdingTerms);
    assert RowId(OrderRow(o)) == o.orderId;
    ReferencesAreMembers(result, OrderRow(o), legs);
    MoreMembers(result.terms, legs, OrderRow(o));
  }

  lemma InvoiceRowsMean(k: IdentityCheck, result: IdentityResult, o: Order, payments: seq<Capture>,
                        refunds: seq<FinanceEvent>, tdsPaise: int, tdsSource: string, entries: seq<FinanceEvent>)
    requires InvoiceInputs(k, result, o, payments, refunds, tdsPaise, tdsSource, entries)
    requires NamesExactly(k, [OrderRow(o)] + LegRows(payments, refunds, entries))
    ensures forall r :: r in NamedRows(k) ==> !EventMeaningless(r)
  {
    hide NamedRows, LegRows, IsInvoiceResult;
    NoInvoiceFault(result, o, payments, refunds, tdsPaise, tdsSource);
    forall r | r in NamedRows(k)
      ensures !EventMeaningless(r)
    {
      LegMembers(payments, refunds, entries, r);
    }
  }

  /** Every valid invoice identity whose tax has its ledger entry gets a certificate that the verifier accepts. */
  lemma InvoiceIdentityAccepted(k: IdentityCheck, result: IdentityResult, o: Order, payments: seq<Capture>,
                                refunds: seq<FinanceEvent>, tdsPaise: int, tdsSource: string, entries: seq<FinanceEvent>)
    requires InvoiceInputs(k, result, o, payments, refunds, tdsPaise, tdsSource, entries)
    requires FreshIdentity(k, result, o.orderId)
    ensures IdentityAccepted(k)
  {
    hide FreshIdentity, NamedRows, LegRows, Indexed, NamesExactly, InvoiceTerms, ExpectedIdentityTerms,
         EventMeaningless, Sum, IdentityTermErrors, BindingErrors, IdentityEnvelope, FlatMap, RowIds, RowId,
         TaxEvidence;
    var members := [OrderRow(o)] + LegRows(payments, refunds, entries);
    InvoiceNames(k, result, o, payments, refunds, tdsPaise, tdsSource, entries);
    FreshIdentityBinds(k, result, o.orderId);
    NamedAreMembers(k, result, o.orderId, members);
    MemberTermsFit(k, result, o.orderId, members);
    InvoiceTermsMatch(k, result, o, payments, refunds, tdsPaise, tdsSource, entries);
    InvoiceRowsMean(k, result, o, payments, refunds, tdsPaise, tdsSource, entries);
    NoInvoiceFault(result, o, payments, refunds, tdsPaise, tdsSource);
    SubjectIsOrder(k, o, members);
  }

  lemma SubjectIsOrder(k: IdentityCheck, o: Order, members: seq<Row>)
    requires OrderRow(o) in members && Subject(k) == o.orderId && k.cert.claim.rule.InvoiceCoverage?
    requires forall r :: r in members ==> RowId(r) in Indexed(k.rows) && Indexed(k.rows)[RowId(r)] == r
    ensures SubjectFits(k) && ExpectedLhs(k) == Some(o.amountPaise)
  {
    hide Indexed;
    assert RowId(OrderRow(o)) == o.orderId;
  }

  // ------------------------------------------------------------ the ledger entry, exactly

  /** No tax, or one row that is the order's withholding entry of this id and amount. */
  ghost predicate TaxIsBooked(rows: seq<Row>, o: Order, tdsPaise: int, tdsSource: string) {
    tdsPaise == 0 || exists e :: EventRow(e) in rows && TaxEvidence(o, tdsPaise, tdsSource, [e])
  }

  /** The rows of a valid invoice identity, whatever stands behind its withheld tax. */
  ghost predicate UnbookedInputs(k: IdentityCheck, result: IdentityResult, o: Order, payments: seq<Capture>,
                                 refunds: seq<FinanceEvent>, tdsPaise: int, tdsSource: string) {
    && OrderRow(o) in k.rows && tdsPaise >= 0
    && IsInvoiceResult(result, o, payments, refunds, tdsPaise, tdsSource) && result.valid
    && (forall r :: r in LegRows(payments, refunds, []) ==> r in k.rows)
    && (forall e :: e in refunds ==> IsProcessed(e))
  }

  lemma InputsWith(k: IdentityCheck, result: IdentityResult, o: Order, payments: seq<Capture>, refunds: seq<FinanceEvent>,
                   tdsPaise: int, tdsSource: string, entries: seq<FinanceEvent>)
    requires UnbookedInputs(k, result, o, payments, refunds, tdsPaise, tdsSource)
    requires TaxEvidence(o, tdsPaise, tdsSource, entries) && forall e :: e in entries ==> EventRow(e) in k.rows
    ensures InvoiceInputs(k, result, o, payments, refunds, tdsPaise, tdsSource, entries)
  {
    hide IsInvoiceResult, LegRows, TaxEvidence, IsProcessed;
    forall r | r in LegRows(payments, refunds, entries)
      ensures r in k.rows
    {
      LegMembers(payments, refunds, entries, r);
      LegMembers(payments, refunds, [], r);
    }
  }

  /** A tax term among the expected ones comes from a claimed withholding entry. */
  lemma TaxTermIsBooked(k: IdentityCheck, t: AmountTerm)
    requires k.cert.claim.rule.InvoiceCoverage? && t in ExpectedIdentityTerms(k) && t.name.TdsWithheld?
    ensures exists e :: e in InvoiceWithholding(k) && t == WithholdingTerms(e)[0]
  {
    hide InvoicePayments, InvoiceRefunds, InvoiceWithholding, FlatMap;
    FlatMapMember(InvoicePayments(k), PaymentTerms, t);
    FlatMapMember(InvoiceRefunds(k), RefundTerms, t);
    FlatMapMember(InvoiceWithholding(k), WithholdingTerms, t);
  }

  lemma WithholdingIsRow(k: IdentityCheck, e: FinanceEvent)
    requires e in InvoiceWithholding(k)
    ensures EventRow(e) in k.rows && WithholdingFor(Subject(k))(e)
  {
    UniquesAreIndexed(k.rows);
    assert EventRow(e) in NamedRows(k);
  }

  lemma TaxTermGiven(o: Order, payments: seq<Capture>, refunds: seq<FinanceEvent>, tdsPaise: int, tdsSource: string)
    requires tdsPaise != 0 && tdsSource != ""
    ensures AmountTerm(TdsWithheld, tdsPaise, tdsSource, AmountField)
            in InvoiceTerms(o, payments, refunds, tdsPaise, tdsSource)
  {
    var t := AmountTerm(TdsWithheld, tdsPaise, tdsSource, AmountField);
    assert t in TaxTerms(o, tdsPaise, tdsSource);
  }

  lemma AcceptedTaxIsBooked(k: IdentityCheck, result: IdentityResult, o: Order, payments: seq<Capture>,
                            refunds: seq<FinanceEvent>, tdsPaise: int, tdsSource: string)
    requires UnbookedInputs(k, result, o, payments, refunds, tdsPaise, tdsSource)
    requires FreshIdentity(k, result, o.orderId) && IdentityAccepted(k) && tdsPaise != 0
    ensures TaxIsBooked(k.rows, o, tdsPaise, tdsSource)
  {
    hide IdentityAccepted, ExpectedIdentityTerms, InvoiceTerms, InvoiceWithholding, NamedRows, LegRows, WellKeyed,
         RowIds, Indexed;
    NoInvoiceFault(result, o, payments, refunds, tdsPaise, tdsSource);
    AcceptedIdentity(k);
    TaxTermGiven(o, payments, refunds, tdsPaise, tdsSource);
    var t := AmountTerm(TdsWithheld, tdsPaise, tdsSource, AmountField);
    assert t in multiset(k.cert.claim.amountTerms);
    assert t in ExpectedIdentityTerms(k);
    TaxTermIsBooked(k, t);
    var e :| e in InvoiceWithholding(k) && t == WithholdingTerms(e)[0];
    WithholdingIsRow(k, e);
    assert TaxEvidence(o, tdsPaise, tdsSource, [e]);
  }

  /** The certificate of a valid invoice identity is accepted exactly when its withheld tax has its ledger entry. */
  lemma InvoiceIdentityExactly(k: IdentityCheck, result: IdentityResult, o: Order, payments: seq<Capture>,
                               refunds: seq<FinanceEvent>, tdsPaise: int, tdsSource: string)
    requires UnbookedInputs(k, result, o, payments, refunds, tdsPaise, tdsSource) && FreshIdentity(k, result, o.orderId)
    ensures IdentityAccepted(k) <==> TaxIsBooked(k.rows, o, tdsPaise, tdsSource)
  {
    hide UnbookedInputs, FreshIdentity, IdentityAccepted;
    if IdentityAccepted(k) && tdsPaise != 0 {
      AcceptedTaxIsBooked(k, result, o, payments, refunds, tdsPaise, tdsSource);
    }
    if TaxIsBooked(k.rows, o, tdsPaise, tdsSource) {
      var entries: seq<FinanceEvent> := [];
      if tdsPaise != 0 {
        var e :| EventRow(e) in k.rows && TaxEvidence(o, tdsPaise, tdsSource, [e]);
        entries := [e];
      }
      InputsWith(k, result, o, payments, refunds, tdsPaise, tdsSource, entries);
      InvoiceIdentityAccepted(k, result, o, payments, refunds, tdsPaise, tdsSource, entries);
    }
  }
}
