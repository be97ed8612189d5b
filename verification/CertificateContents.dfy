/** What a certificate the issuer has just written contains. */
module CertificateContents {
  import opened Prelude
  import opened Dates
  import opened Models
  import opened SourceRows
  import opened Certificates
  import opened Verifier
  import opened ProofCompleteness

  /** Named by the verdict: the order, its references, and for a repaid order every gateway row it has. */
  ghost predicate NamedBy(k: Check, o: Order, v: OrderVerdict, id: string) {
    || id == o.orderId || id in v.evidence.sourceRows
    || (v.verdict.RefundedThenRepaid? && exists c :: CaptureRow(c) in k.rows && c.orderId == o.orderId && c.paymentId == id)
  }

  /** The two rows name one settlement. */
  ghost predicate SameSettlement(r: Row, s: Row) {
    SettlementField(r).Some? && SettlementField(r).value != "" && SettlementField(r) == SettlementField(s)
  }

  /** Exactly the named rows and every row of a settlement that one of them names are cited, each under its own digest. */
  lemma FreshCites(k: Check, o: Order, v: OrderVerdict)
    requires Fresh(k, o, v)
    ensures forall id :: id in k.cert.claim.sourceHashes && id != BATCH_ROOT
              <==> NamedBy(k, o, v, id)
                   || exists r, s :: r in k.rows && s in k.rows && NamedBy(k, o, v, RowId(r)) && SameSettlement(r, s) && RowId(s) == id
    ensures forall r :: r in k.rows && RowId(r) in k.cert.claim.sourceHashes ==>
              k.cert.claim.sourceHashes[RowId(r)] == k.dig.row(r)
  {
    hide Fresh, Indexed, RowId, SettlementField, Referenced, Uniques;
    FreshIds(k, o, v);
    forall id
      ensures id in Referenced(o, v, k.rows)
         <==> NamedBy(k, o, v, id)
              || exists r, s :: r in k.rows && s in k.rows && NamedBy(k, o, v, RowId(r)) && SameSettlement(r, s) && RowId(s) == id
    {
      ReferencedExactly(k, o, v, id);
    }
    forall r | r in k.rows && RowId(r) in k.cert.claim.sourceHashes
      ensures k.cert.claim.sourceHashes[RowId(r)] == k.dig.row(r)
    {
      HashedInClaim(k, o, v, r);
    }
  }

  lemma HashedInClaim(k: Check, o: Order, v: OrderVerdict, r: Row)
    requires Fresh(k, o, v) && r in k.rows && RowId(r) in k.cert.claim.sourceHashes
    ensures k.cert.claim.sourceHashes[RowId(r)] == k.dig.row(r)
  {
    hide Fresh, Referenced, VerdictTerms, EvidenceTerms, Watermark, Indexed, RowId, RowIds, Filter;
    FreshClaim(k, o, v);
    FreshIds(k, o, v);
    FreshIsKeyed(k, o, v);
    IdOfRow(k.rows, r);
  }

  lemma NamedExactly(k: Check, o: Order, v: OrderVerdict, id: string)
    ensures id in Cited(o, v, k.rows) <==> NamedBy(k, o, v, id)
  {
    if v.verdict.RefundedThenRepaid? {
      var own := set r | r in k.rows && r.CaptureRow? && r.capture.orderId == o.orderId :: RowId(r);
      if id in own {
        var r :| r in k.rows && r.CaptureRow? && r.capture.orderId == o.orderId && RowId(r) == id;
        assert CaptureRow(r.capture) in k.rows;
      }
      if c :| CaptureRow(c) in k.rows && c.orderId == o.orderId && c.paymentId == id {
        assert RowId(CaptureRow(c)) in own;
      }
    }
  }

  lemma ReferencedExactly(k: Check, o: Order, v: OrderVerdict, id: string)
    requires forall r :: r in k.rows ==> RowId(r) in Indexed(k.rows) && Indexed(k.rows)[RowId(r)] == r
    ensures id in Referenced(o, v, k.rows)
       <==> NamedBy(k, o, v, id)
            || exists r, s :: r in k.rows && s in k.rows && NamedBy(k, o, v, RowId(r)) && SameSettlement(r, s) && RowId(s) == id
  {
    hide Indexed, RowId, SettlementField, Cited, NamedBy;
    forall x
      ensures x in Cited(o, v, k.rows) <==> NamedBy(k, o, v, x)
    {
      NamedExactly(k, o, v, x);
    }
    var cited := Cited(o, v, k.rows);
    var sids := CitedSettlements(cited, k.rows);
    if id in RowsNaming(sids, k.rows) {
      var s :| s in k.rows && SettlementField(s).Some? && SettlementField(s).value in sids && RowId(s) == id;
      var x :| x in cited && x in Indexed(k.rows) && SettlementField(Indexed(k.rows)[x]).GetOr("") != ""
               && SettlementField(Indexed(k.rows)[x]).GetOr("") == SettlementField(s).value;
      var r := Indexed(k.rows)[x];
      assert r in k.rows && NamedBy(k, o, v, RowId(r)) && SameSettlement(r, s);
    }
    if r, s :| r in k.rows && s in k.rows && NamedBy(k, o, v, RowId(r)) && SameSettlement(r, s) && RowId(s) == id {
      assert SettlementField(r).value in sids;
    }
  }

  /** The claim repeats the verdict, its amounts, its pass and its provenance, and is dated by the latest row of the batch. */
  lemma FreshCopies(k: Check, o: Order, v: OrderVerdict)
    requires Fresh(k, o, v)
    ensures var c := k.cert.claim;
            && c.version == CERTIFICATE_VERSION && c.orderId == o.orderId && c.verdict == KnownVerdict(v.verdict)
            && c.moneyReceivedPaise == v.moneyReceivedPaise && c.deltaDuePaise == v.deltaDuePaise
            && c.ruleIds == [ReconRule(KnownPass(v.evidence.passUsed)), VerdictRule(KnownVerdict(v.verdict))]
            && c.automationPath == KnownPath(v.evidence.automationPath) && c.scorePpm == v.evidence.scorePpm
            && c.riskCalibrationId == v.evidence.riskCalibrationId && c.riskAuthorized == v.evidence.riskAuthorized
            && (exists r :: r in k.rows && RowDate(r) == c.generatedAt)
            && forall r :: r in k.rows ==> DateLe(RowDate(r), c.generatedAt)
    ensures k.cert.proofHash == k.dig.payload(k.cert.claim)
  {
    hide Fresh, Referenced, VerdictTerms, EvidenceTerms, Indexed, RowDate, RowIds, Filter, RowHashes;
    FreshClaim(k, o, v);
    FreshIsKeyed(k, o, v);
    var dates := Map(k.rows, RowDate);
    forall r | r in k.rows
      ensures RowDate(r) in dates
    {
      var i :| 0 <= i < |k.rows| && k.rows[i] == r;
      assert dates[i] == RowDate(k.rows[i]);
    }
    var i :| 0 <= i < |dates| && dates[i] == Watermark(k.rows);
    assert k.rows[i] in k.rows && RowDate(k.rows[i]) == dates[i];
  }
}
