/** When each step of the rule lifecycle succeeds, exactly. */
module RuleProgress {
  import opened Prelude
  import opened Capabilities
  import opened Replay
  import opened Rules
  import opened RuleRuns

  /** A stored rule with so many versions, the last of which has this status. */
  ghost predicate AtStage(w: World, id: string, versions: nat, status: RuleStatus) {
    id in w.rows && |w.rows[id]| == versions && versions > 0 && w.rows[id][versions - 1].proposal.status == status
  }

  /** Shown before its expiry and unused, for this action on this version of the rule, by its active and permitted holder. */
  ghost predicate GoodCapability(w: World, cap: Capability, action: HumanAction, id: string, version: int, now: int) {
    var s := w.registry;
    && cap in s.issued && cap.registryId == s.registryId && cap.action == action
    && cap.subjectId == id && cap.subjectVersion == version && now < cap.expiresAt && cap.nonce !in s.used
    && cap.actorId in s.analysts && s.analysts[cap.actorId].active && action in s.analysts[cap.actorId].actions
  }

  lemma GoodExactly(w: World, cap: Capability, action: HumanAction, id: string, version: int, now: int)
    ensures GoodCapability(w, cap, action, id, version, now)
       <==> ConsumeDenial(w.registry, cap, action, id, version, now).None?
    ensures GoodCapability(w, cap, action, id, version, now) ==> VerifyDenial(w.registry, cap, action, id, version, now).None?
  {
  }

  lemma StageRows(s: Setting, w: World, id: string)
    requires StoreInv(s, w) && Known(w, id)
    ensures var p := Latest(w.rows[id]);
            && p.version == |w.rows[id]| && p.ruleId == id && WellFormed(s.forms, p)
            && (p.status.Proposed? <==> AtStage(w, id, 1, Proposed))
            && (p.status.ReplayPassed? <==> AtStage(w, id, 2, ReplayPassed))
            && (p.status.Approved? <==> AtStage(w, id, 3, Approved))
  {
    hide WellFormed, StoreInv;
    assert Lifecycle(s, w.registry, id, w.rows[id]) by {
      Stored(s, w, id);
    }
    hide Lifecycle;
    StageIsVersion(s, w.registry, id, w.rows[id]);
  }

  lemma Stored(s: Setting, w: World, id: string)
    requires StoreInv(s, w) && Known(w, id)
    ensures Lifecycle(s, w.registry, id, w.rows[id])
  {
    hide Lifecycle;
  }

  /** A proposal passes to approval exactly on a good approval capability for version two, held by a named human. */
  lemma ApprovalExactly(s: Setting, w: World, id: string, expected: int, cap: Capability, now: int)
    requires StoreInv(s, w)
    ensures Authorised(s, w, id, expected, APPROVAL, cap, now).1.Ok?
       <==> && expected == 2 && AtStage(w, id, 2, ReplayPassed)
            && GoodCapability(w, cap, ApproveAction, id, 2, now) && s.forms.human(cap.actorId)
  {
    hide StoreInv, VerifyDenial, ConsumeDenial, GoodCapability;
    GoodExactly(w, cap, ApproveAction, id, expected, now);
    if Known(w, id) {
      StageRows(s, w, id);
    }
  }

  /** An approved rule is activated exactly on a good activation capability for version three, at a UTC time. */
  lemma ActivationExactly(s: Setting, w: World, id: string, expected: int, cap: Capability, time: string, now: int)
    requires StoreInv(s, w)
    ensures Authorised(s, w, id, expected, ActivationChange(time), cap, now).1.Ok?
       <==> && expected == 3 && AtStage(w, id, 3, Approved)
            && GoodCapability(w, cap, ActivateAction, id, 3, now) && s.forms.human(cap.actorId) && s.forms.utc(time)
  {
    hide StoreInv, VerifyDenial, ConsumeDenial, GoodCapability;
    GoodExactly(w, cap, ActivateAction, id, expected, now);
    if Known(w, id) {
      StageRows(s, w, id);
    }
  }

  /** A replay is recorded exactly on a proposal nobody has moved on, with a receipt for it that the runner accepts. */
  lemma RecordExactly(s: Setting, w: World, id: string, seen: nat, expected: int, receipt: Receipt)
    requires StoreInv(s, w)
    ensures RecordReplay(s, w, id, seen, expected, receipt).1.Ok?
       <==> && seen == 0 && expected == 1 && AtStage(w, id, 1, Proposed)
            && VerifyReceipt(s.corpora, id, 1, Proposed, receipt).Ok?
    ensures RecordReplay(s, w, id, seen, expected, receipt).1.Ok? ==>
              RecordReplay(s, w, id, seen, expected, receipt).1.value.status
              == VerifyReceipt(s.corpora, id, 1, Proposed, receipt).value.status
  {
    hide StoreInv, VerifyReceipt;
    if Known(w, id) {
      StageRows(s, w, id);
      Stored(s, w, id);
      if seen < |w.rows[id]| {
        ReadVersion(s, w.registry, id, w.rows[id], seen);
        if VerifyReceipt(s.corpora, id, seen + 1, w.rows[id][seen].proposal.status, receipt).Ok? {
          VerifiedIsReplayed(s.corpora, id, seen + 1, w.rows[id][seen].proposal.status, receipt);
          FirstIsProposed(s, w.registry, id, w.rows[id], seen);
        }
      }
    }
  }

  /** The recorded rule passes exactly when no case regresses and neither corpus loses coverage; otherwise it is rejected for good. */
  lemma RecordedStatus(s: Setting, w: World, id: string, seen: nat, expected: int, receipt: Receipt)
    requires StoreInv(s, w) && RecordReplay(s, w, id, seen, expected, receipt).1.Ok?
    ensures receipt.payload.confirmedId in s.corpora.corpora && receipt.payload.attackId in s.corpora.corpora
    ensures var confirmed, attacks := OutcomesOf(s.corpora.corpora[receipt.payload.confirmedId]),
                                      OutcomesOf(s.corpora.corpora[receipt.payload.attackId]);
            var status := RecordReplay(s, w, id, seen, expected, receipt).1.value.status;
            && (status.ReplayPassed? <==>
                  && (forall o :: o in confirmed + attacks ==> NoRegression(o))
                  && Sum(confirmed, CoverageChange) >= 0 && Sum(attacks, CoverageChange) >= 0)
            && (status.ReplayPassed? || status.Rejected?)
  {
    hide StoreInv, VerifyReceipt, Promotable, NoRegression, Sum, RecordReplay, OutcomesOf;
    RecordExactly(s, w, id, seen, expected, receipt);
    VerifiedIsReplayed(s.corpora, id, 1, Proposed, receipt);
    PromotableMeans(OutcomesOf(s.corpora.corpora[receipt.payload.confirmedId]),
                    OutcomesOf(s.corpora.corpora[receipt.payload.attackId]));
  }

  // ------------------------------------------------------------ imported corpora can be replayed

  lemma CaseIdsConcat(a: seq<Outcome>, b: seq<Outcome>)
    ensures CaseIds(a + b) == CaseIds(a) + CaseIds(b)
  {
  }

  lemma NoDupConcat(a: seq<string>, b: seq<string>)
    requires NoDup(a) && NoDup(b) && forall x :: x in a ==> x !in b
    ensures NoDup(a + b)
  {
    forall i, j | 0 <= i < j < |a + b|
      ensures (a + b)[i] != (a + b)[j]
    {
      if i < |a| && j >= |a| {
        assert a[i] in a && b[j - |a|] in b;
      }
    }
  }

  /** Over imported corpora every proposal gets a receipt for any confirmed and any attack corpus, and it is accepted. */
  lemma ImportedCorporaReplay(c: CorpusStore, ruleId: string, version: int, confirmedId: string, attackId: string)
    requires Importable(c) && confirmedId in c.corpora && attackId in c.corpora
    requires c.corpora[confirmedId].kind.Confirmed? && c.corpora[attackId].kind.Attack?
    ensures RunReplay(c, ruleId, version, Proposed, confirmedId, attackId).Ok?
    ensures var receipt := RunReplay(c, ruleId, version, Proposed, confirmedId, attackId).value;
            && VerifyReceipt(c, ruleId, version, Proposed, receipt).Ok?
            && VerifyReceipt(c, ruleId, version, Proposed, receipt).value
               == ReportOn(ruleId, version, OutcomesOf(c.corpora[confirmedId]), OutcomesOf(c.corpora[attackId]))
  {
    hide Intact, ReportOn, CaseIds;
    var confirmed, attacks := OutcomesOf(c.corpora[confirmedId]), OutcomesOf(c.corpora[attackId]);
    CaseIdsConcat(confirmed, attacks);
    NoDupConcat(CaseIds(confirmed), CaseIds(attacks));
    CardinalityNoDup(CaseIds(confirmed + attacks));
    RunThenVerify(c, ruleId, version, Proposed, confirmedId, attackId);
  }

  // ------------------------------------------------------------ adding and validating

  /** A proposal is stored exactly when it is authentic, of one source case, at version one, and its id is new. */
  lemma AddedExactly(w: World, p: Proposal, authentic: Option<Proposal>)
    ensures Add(w, p, authentic).1.Ok?
       <==> p.status.Proposed? && p.version == 1 && |p.evidenceCaseIds| == 1 && authentic == Some(p) && p.ruleId !in w.rows
    ensures Add(w, p, authentic).1.Ok? ==> AtStage(Add(w, p, authentic).0, p.ruleId, 1, Proposed)
                                           && Latest(Add(w, p, authentic).0.rows[p.ruleId]) == p
  {
  }

  /** There is one valid receipt for an active rule, and it tells who activated it, when, and by which four versions. */
  lemma ReceiptExactly(s: Setting, w: World, r: ActivationReceipt)
    requires StoreInv(s, w)
    ensures ValidateRefusal(s, w, r).None?
       <==> && AtStage(w, r.ruleId, 4, Active) && r.version == 4 && r.registryId == w.registry.registryId
            && r.activatedBy == w.rows[r.ruleId][3].proposal.activatedBy
            && r.activationTime == w.rows[r.ruleId][3].proposal.activationTime
            && r.historyHash == s.history(r.ruleId, w.rows[r.ruleId])
  {
    hide StoreInv;
    if Known(w, r.ruleId) {
      Stored(s, w, r.ruleId);
      var rows := w.rows[r.ruleId];
      assert |rows| == 4 ==> rows[..4] == rows;
      if 1 <= r.version <= |rows| && rows[r.version - 1].proposal.status.Active? {
        ActiveIsFourth(s, w.registry, r.ruleId, rows, r.version - 1);
      }
    }
  }
}
