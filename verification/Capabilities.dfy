/** One-use human capabilities: an allowlist issues them, a store consumes them inside its own transaction. */
module Capabilities {
  import opened Prelude

  datatype HumanAction = ResolveAction | ApproveAction | ActivateAction | ImportReplay

  datatype Analyst = Analyst(credential: string, actions: set<HumanAction>, active: bool)

  datatype Capability = Capability(actorId: string, action: HumanAction, registryId: string, subjectId: string,
                                   subjectVersion: int, nonce: string, expiresAt: int)

  datatype Use = Use(actorId: string, action: HumanAction, subjectId: string, subjectVersion: int)

  datatype Denial =
    | UnknownIdentity | BadCredential | NotAuthorized | BadSubject | Expired
    | WrongScope | WrongSubject | InvalidOrRevoked | AlreadyUsed | NotConsumed

  /** `issued` stands for the signature check: exactly the capabilities this registry signed verify. */
  datatype RegistryState = RegistryState(registryId: string, analysts: map<string, Analyst>, issued: set<Capability>,
                                         used: map<string, Use>)

  predicate Permits(s: RegistryState, actor: string, action: HumanAction) {
    actor in s.analysts && s.analysts[actor].active && action in s.analysts[actor].actions
  }

  function IssueDenial(s: RegistryState, actor: string, credential: string, action: HumanAction, subject: string,
                       version: int, expiresAt: int, now: int): Option<Denial> {
    if actor !in s.analysts then Some(UnknownIdentity)
    else if s.analysts[actor].credential != credential then Some(BadCredential)
    else if !Permits(s, actor, action) then Some(NotAuthorized)
    else if subject == "" || version < 1 then Some(BadSubject)
    else if expiresAt <= now then Some(Expired)
    else None
  }

  function VerifyDenial(s: RegistryState, c: Capability, action: HumanAction, subject: string, version: int, now: int)
    : Option<Denial>
  {
    if c.action != action || c.registryId != s.registryId then Some(WrongScope)
    else if c.subjectId != subject || c.subjectVersion != version then Some(WrongSubject)
    else if c.expiresAt <= now then Some(Expired)
    else if !Permits(s, c.actorId, action) || c !in s.issued then Some(InvalidOrRevoked)
    else None
  }

  function ConsumeDenial(s: RegistryState, c: Capability, action: HumanAction, subject: string, version: int, now: int)
    : Option<Denial>
  {
    var denial := VerifyDenial(s, c, action, subject, version, now);
    if denial.Some? then denial else if c.nonce in s.used then Some(AlreadyUsed) else None
  }

  function Consumed(s: RegistryState, c: Capability, action: HumanAction, subject: string, version: int): RegistryState {
    s.(used := s.used[c.nonce := Use(c.actorId, action, subject, version)])
  }

  class AnalystRegistry {
    const registryId: string
    var analysts: map<string, Analyst>
    var issued: set<Capability>
    var used: map<string, Use>

    function State(): RegistryState
      reads this
    {
      RegistryState(registryId, analysts, issued, used)
    }

    constructor Bootstrap(id: string, trusted: map<string, Analyst>)
      ensures State() == RegistryState(id, trusted, {}, map[])
    {
      registryId, analysts, issued, used := id, trusted, {}, map[];
    }

    /** The nonce is the random token the source draws. */
    method Issue(actor: string, credential: string, action: HumanAction, subject: string, version: int,
                 expiresAt: int, now: int, nonce: string) returns (r: Result<Capability, Denial>)
      modifies this`issued
      ensures var denial := IssueDenial(old(State()), actor, credential, action, subject, version, expiresAt, now);
              var c := Capability(actor, action, registryId, subject, version, nonce, expiresAt);
              if denial.Some? then r == Err(denial.value) && State() == old(State())
              else r == Ok(c) && State() == old(State()).(issued := old(issued) + {c})
    {
      if actor !in analysts {
        return Err(UnknownIdentity);
      }
      var row := analysts[actor];
      if row.credential != credential {
        return Err(BadCredential);
      }
      if !row.active || action !in row.actions {
        return Err(NotAuthorized);
      }
      if subject == "" || version < 1 {
        return Err(BadSubject);
      }
      if expiresAt <= now {
        return Err(Expired);
      }
      var c := Capability(actor, action, registryId, subject, version, nonce, expiresAt);
      issued := issued + {c};
      return Ok(c);
    }

    method Verify(c: Capability, action: HumanAction, subject: string, version: int, now: int)
      returns (r: Result<string, Denial>)
      ensures var denial := VerifyDenial(State(), c, action, subject, version, now);
              r == if denial.Some? then Err(denial.value) else Ok(c.actorId)
    {
      if c.action != action || c.registryId != registryId {
        return Err(WrongScope);
      }
      if c.subjectId != subject || c.subjectVersion != version {
        return Err(WrongSubject);
      }
      if c.expiresAt <= now {
        return Err(Expired);
      }
      if c.actorId !in analysts || !analysts[c.actorId].active || action !in analysts[c.actorId].actions || c !in issued {
        return Err(InvalidOrRevoked);
      }
      return Ok(c.actorId);
    }

    /** The nonce is the primary key of the used table: a second insert fails. */
    method VerifyAndConsume(c: Capability, action: HumanAction, subject: string, version: int, now: int)
      returns (r: Result<string, Denial>)
      modifies this`used
      ensures var denial := ConsumeDenial(old(State()), c, action, subject, version, now);
              if denial.Some? then r == Err(denial.value) && State() == old(State())
              else r == Ok(c.actorId) && State() == Consumed(old(State()), c, action, subject, version)
    {
      r := Verify(c, action, subject, version, now);
      if r.Ok? {
        if c.nonce in used {
          return Err(AlreadyUsed);
        }
        used := used[c.nonce := Use(c.actorId, action, subject, version)];
      }
    }

    /** Undo for a transaction that fails after consuming. */
    method Rollback(before: map<string, Use>)
      modifies this`used
      ensures State() == old(State()).(used := before)
    {
      used := before;
    }

    method VerifyConsumed(c: Capability, action: HumanAction, subject: string, version: int, now: int)
      returns (r: Result<string, Denial>)
      ensures r.Ok? <==> && VerifyDenial(State(), c, action, subject, version, now).None?
                         && c.nonce in used && used[c.nonce] == Use(c.actorId, action, subject, version)
      ensures r.Ok? ==> r.value == c.actorId
    {
      r := Verify(c, action, subject, version, now);
      if r.Ok? && !(c.nonce in used && used[c.nonce] == Use(c.actorId, action, subject, version)) {
        return Err(NotConsumed);
      }
    }
  }

  // ------------------------------------------------------------ over any run

  datatype RegistryOp =
    | IssueOp(actor: string, credential: string, action: HumanAction, subject: string, version: int, expiresAt: int,
              now: int, nonce: string)
    | ConsumeOp(cap: Capability, action: HumanAction, subject: string, version: int, now: int)

  function RegistryStep(s: RegistryState, op: RegistryOp): RegistryState {
    match op
    case IssueOp(actor, credential, action, subject, version, expiresAt, now, nonce) =>
      if IssueDenial(s, actor, credential, action, subject, version, expiresAt, now).Some? then s
      else s.(issued := s.issued + {Capability(actor, action, s.registryId, subject, version, nonce, expiresAt)})
    case ConsumeOp(c, action, subject, version, now) =>
      if ConsumeDenial(s, c, action, subject, version, now).Some? then s else Consumed(s, c, action, subject, version)
  }

  function RegistryRun(s: RegistryState, ops: seq<RegistryOp>): RegistryState {
    if ops == [] then s else RegistryStep(RegistryRun(s, ops[..|ops| - 1]), ops[|ops| - 1])
  }

  /** Every recorded use is of a capability this registry issued, to its holder, for exactly its scope. */
  ghost predicate UsesWereIssued(s: RegistryState) {
    && (forall c :: c in s.issued ==> c.registryId == s.registryId && Permits(s, c.actorId, c.action))
    && (forall n :: n in s.used ==> exists c :: c in s.issued && c.nonce == n
                                        && s.used[n] == Use(c.actorId, c.action, c.subjectId, c.subjectVersion))
  }

  lemma StepKeepsUses(s: RegistryState, op: RegistryOp)
    requires UsesWereIssued(s)
    ensures UsesWereIssued(RegistryStep(s, op))
    ensures s.used.Keys <= RegistryStep(s, op).used.Keys
    ensures forall n :: n in s.used ==> RegistryStep(s, op).used[n] == s.used[n]
  {
    var t := RegistryStep(s, op);
    forall n | n in t.used
      ensures exists c :: c in t.issued && c.nonce == n
                          && t.used[n] == Use(c.actorId, c.action, c.subjectId, c.subjectVersion)
    {
      if n in s.used {
        var c :| c in s.issued && c.nonce == n && s.used[n] == Use(c.actorId, c.action, c.subjectId, c.subjectVersion);
        assert c in t.issued;
      } else {
        assert op.cap in t.issued;
      }
    }
  }

  lemma {:induction false} RunKeepsUses(s: RegistryState, ops: seq<RegistryOp>)
    requires UsesWereIssued(s)
    ensures UsesWereIssued(RegistryRun(s, ops))
    ensures s.used.Keys <= RegistryRun(s, ops).used.Keys
    ensures forall n :: n in s.used ==> RegistryRun(s, ops).used[n] == s.used[n]
  {
    hide UsesWereIssued, RegistryStep;
    if ops != [] {
      RunKeepsUses(s, ops[..|ops| - 1]);
      StepKeepsUses(RegistryRun(s, ops[..|ops| - 1]), ops[|ops| - 1]);
    }
  }

  /** Whatever happens in between, a capability is consumed at most once. */
  lemma ConsumedAtMostOnce(s: RegistryState, c: Capability, action: HumanAction, subject: string, version: int, now: int,
                           ops: seq<RegistryOp>, action2: HumanAction, subject2: string, version2: int, now2: int)
    requires UsesWereIssued(s) && ConsumeDenial(s, c, action, subject, version, now).None?
    ensures ConsumeDenial(RegistryRun(Consumed(s, c, action, subject, version), ops), c, action2, subject2, version2, now2).Some?
  {
    StepKeepsUses(s, ConsumeOp(c, action, subject, version, now));
    RunKeepsUses(Consumed(s, c, action, subject, version), ops);
  }
}
