/** Human capabilities over whole runs: who was given one, how long it works, and what was done with it. */
module CapabilityRuns {
  import opened Prelude
  import opened Capabilities

  lemma {:induction false} RunKeepsAnalysts(s: RegistryState, ops: seq<RegistryOp>)
    ensures RegistryRun(s, ops).analysts == s.analysts && RegistryRun(s, ops).registryId == s.registryId
    ensures s.issued <= RegistryRun(s, ops).issued
  {
    hide IssueDenial, ConsumeDenial;
    if ops != [] {
      RunKeepsAnalysts(s, ops[..|ops| - 1]);
    }
  }

  /** An active analyst who showed the right credential, for a permitted action on a named subject, before the expiry. */
  ghost predicate RightlyAsked(s: RegistryState, op: RegistryOp, c: Capability) {
    && op.IssueOp?
    && c == Capability(op.actor, op.action, s.registryId, op.subject, op.version, op.nonce, op.expiresAt)
    && op.actor in s.analysts && s.analysts[op.actor].active
    && s.analysts[op.actor].credential == op.credential && op.action in s.analysts[op.actor].actions
    && op.subject != "" && op.version >= 1 && op.now < op.expiresAt
  }

  lemma IssuedByStep(s: RegistryState, op: RegistryOp, c: Capability)
    ensures c in RegistryStep(s, op).issued <==> c in s.issued || RightlyAsked(s, op, c)
  {
  }

  /** Every capability of a run was there before or rightly asked for, and whatever was rightly asked for was issued. */
  lemma {:induction false} IssuedExactly(s: RegistryState, ops: seq<RegistryOp>, c: Capability)
    ensures c in RegistryRun(s, ops).issued <==> c in s.issued || exists i :: 0 <= i < |ops| && RightlyAsked(s, ops[i], c)
  {
    hide RegistryStep, RightlyAsked;
    if ops != [] {
      var rest, last := ops[..|ops| - 1], ops[|ops| - 1];
      IssuedExactly(s, rest, c);
      RunKeepsAnalysts(s, rest);
      IssuedByStep(RegistryRun(s, rest), last, c);
      SameQuestion(s, RegistryRun(s, rest), last, c);
      assert forall i :: 0 <= i < |rest| ==> ops[i] == rest[i];
      if RightlyAsked(s, last, c) {
        assert RightlyAsked(s, ops[|ops| - 1], c);
      }
    }
  }

  lemma SameQuestion(s: RegistryState, t: RegistryState, op: RegistryOp, c: Capability)
    requires s.analysts == t.analysts && s.registryId == t.registryId
    ensures RightlyAsked(s, op, c) <==> RightlyAsked(t, op, c)
  {
  }

  /** Presented before its expiry, for exactly the action, subject and version it was issued for. */
  ghost predicate RightlyShown(s: RegistryState, op: RegistryOp) {
    && op.ConsumeOp? && op.cap in s.issued && op.now < op.cap.expiresAt
    && op.cap.registryId == s.registryId && op.cap.action == op.action
    && op.cap.subjectId == op.subject && op.cap.subjectVersion == op.version
    && op.cap.actorId in s.analysts && s.analysts[op.cap.actorId].active && op.action in s.analysts[op.cap.actorId].actions
  }

  lemma UsedByStep(s: RegistryState, op: RegistryOp, n: string)
    ensures n in RegistryStep(s, op).used <==> n in s.used || (RightlyShown(s, op) && op.cap.nonce == n)
    ensures n in RegistryStep(s, op).used && n !in s.used ==>
              RegistryStep(s, op).used[n] == Use(op.cap.actorId, op.action, op.subject, op.version)
    ensures n in s.used ==> RegistryStep(s, op).used[n] == s.used[n]
  {
  }

  function Recorded(op: RegistryOp): Use
    requires op.ConsumeOp?
  {
    Use(op.cap.actorId, op.action, op.subject, op.version)
  }

  /** The i-th operation is the first to show a capability with this nonce rightly. */
  ghost predicate FirstShown(s: RegistryState, ops: seq<RegistryOp>, i: nat, n: string) {
    && i < |ops| && ops[i].ConsumeOp? && ops[i].cap.nonce == n
    && RightlyShown(RegistryRun(s, ops[..i]), ops[i]) && n !in RegistryRun(s, ops[..i]).used
  }

  lemma ShownEarlier(s: RegistryState, ops: seq<RegistryOp>, i: nat, n: string)
    requires i + 1 < |ops|
    ensures FirstShown(s, ops, i, n) <==> FirstShown(s, ops[..|ops| - 1], i, n)
  {
    assert ops[..|ops| - 1][..i] == ops[..i];
  }

  lemma LastStep(s: RegistryState, ops: seq<RegistryOp>)
    requires ops != []
    ensures RegistryRun(s, ops) == RegistryStep(RegistryRun(s, ops[..|ops| - 1]), ops[|ops| - 1])
  {
  }

  /** A use is recorded exactly when a capability with that nonce was rightly shown. */
  lemma {:induction false} UsedExactly(s: RegistryState, ops: seq<RegistryOp>, n: string)
    requires n !in s.used
    ensures n in RegistryRun(s, ops).used <==> exists i: nat :: FirstShown(s, ops, i, n)
  {
    if ops == [] {
      assert RegistryRun(s, ops) == s;
    } else {
      hide RegistryStep, RegistryRun, FirstShown;
      var k := |ops| - 1;
      UsedExactly(s, ops[..k], n);
      LastStep(s, ops);
      UsedByStep(RegistryRun(s, ops[..k]), ops[k], n);
      ShownLast(s, ops, k, n);
      if n in RegistryRun(s, ops[..k]).used {
        var i: nat :| FirstShown(s, ops[..k], i, n);
        ShownInTime(s, ops[..k], i, n);
        ShownEarlier(s, ops, i, n);
      } else if i: nat :| FirstShown(s, ops, i, n) {
        ShownInTime(s, ops, i, n);
        if i < k {
          ShownEarlier(s, ops, i, n);
        }
      }
    }
  }

  lemma ShownInTime(s: RegistryState, ops: seq<RegistryOp>, i: nat, n: string)
    requires FirstShown(s, ops, i, n)
    ensures i < |ops| && ops[i].ConsumeOp?
  {
  }

  /** The record is of the first time, for the holder and the scope that were shown, and stays. */
  lemma {:induction false} FirstUseRecorded(s: RegistryState, ops: seq<RegistryOp>, i: nat, n: string)
    requires FirstShown(s, ops, i, n)
    ensures ops[i].ConsumeOp? && n in RegistryRun(s, ops).used && RegistryRun(s, ops).used[n] == Recorded(ops[i])
  {
    hide RegistryStep, RightlyShown;
    var k := |ops| - 1;
    LastStep(s, ops);
    UsedByStep(RegistryRun(s, ops[..k]), ops[k], n);
    if i < k {
      ShownEarlier(s, ops, i, n);
      FirstUseRecorded(s, ops[..k], i, n);
    }
  }

  lemma ShownLast(s: RegistryState, ops: seq<RegistryOp>, i: nat, n: string)
    requires ops != [] && i >= |ops| - 1
    ensures FirstShown(s, ops, i, n)
       <==> i == |ops| - 1 && n in RegistryRun(s, ops).used && n !in RegistryRun(s, ops[..|ops| - 1]).used
    ensures !FirstShown(s, ops[..|ops| - 1], i, n)
  {
    hide RegistryStep;
    LastStep(s, ops);
    UsedByStep(RegistryRun(s, ops[..|ops| - 1]), ops[|ops| - 1], n);
  }

  /** A capability just issued works until it expires, for exactly its scope, as long as nobody has shown its nonce. */
  lemma WorksUntilExpiry(s: RegistryState, op: RegistryOp, c: Capability, ops: seq<RegistryOp>, action: HumanAction,
                         subject: string, version: int, now: int)
    requires RightlyAsked(s, op, c) && c.nonce !in s.used
    requires forall i :: 0 <= i < |ops| && ops[i].ConsumeOp? ==> ops[i].cap.nonce != c.nonce
    ensures ConsumeDenial(RegistryRun(RegistryStep(s, op), ops), c, action, subject, version, now).None?
       <==> action == c.action && subject == c.subjectId && version == c.subjectVersion && now < c.expiresAt
  {
    hide RegistryStep, RegistryRun;
    var t := RegistryStep(s, op);
    IssuedByStep(s, op, c);
    UsedByStep(s, op, c.nonce);
    AskingUsesNothing(s, op);
    StepKeepsAnalysts(s, op);
    RunKeepsAnalysts(t, ops);
    UsedExactly(t, ops, c.nonce);
  }

  lemma AskingUsesNothing(s: RegistryState, op: RegistryOp)
    requires op.IssueOp?
    ensures RegistryStep(s, op).used == s.used
  {
    hide IssueDenial;
  }

  lemma StepKeepsAnalysts(s: RegistryState, op: RegistryOp)
    ensures RegistryStep(s, op).analysts == s.analysts && RegistryStep(s, op).registryId == s.registryId
  {
    hide IssueDenial, ConsumeDenial;
  }

  /** Each refusal of a request names its own fault, and only when everything asked before it is in order. */
  lemma RequestRefusals(s: RegistryState, actor: string, credential: string, action: HumanAction, subject: string,
                        version: int, expiresAt: int, now: int)
    ensures var d := IssueDenial(s, actor, credential, action, subject, version, expiresAt, now);
            && (d == Some(UnknownIdentity) <==> actor !in s.analysts)
            && (d == Some(BadCredential) <==> actor in s.analysts && s.analysts[actor].credential != credential)
            && (d == Some(NotAuthorized) ==> !s.analysts[actor].active || action !in s.analysts[actor].actions)
            && (d == Some(BadSubject) ==> subject == "" || version < 1)
            && (d == Some(Expired) ==> expiresAt <= now)
            && (d.None? ==> expiresAt > now && subject != "" && version >= 1)
  {
  }

  /** The same for a capability that is shown; a used one is told so only if it would otherwise work. */
  lemma ShowingRefusals(s: RegistryState, c: Capability, action: HumanAction, subject: string, version: int, now: int)
    ensures var d := ConsumeDenial(s, c, action, subject, version, now);
            && (d == Some(WrongScope) <==> c.action != action || c.registryId != s.registryId)
            && (d == Some(WrongSubject) ==> c.subjectId != subject || c.subjectVersion != version)
            && (d == Some(Expired) ==> c.expiresAt <= now)
            && (d == Some(InvalidOrRevoked) ==>
                  c !in s.issued || c.actorId !in s.analysts || !s.analysts[c.actorId].active || action !in s.analysts[c.actorId].actions)
            && (d == Some(AlreadyUsed) <==>
                  c.nonce in s.used && RightlyShown(s, ConsumeOp(c, action, subject, version, now)))
  {
  }
}
