/** The rule lifecycle: append-only versions, a replay gate, and two one-use human capabilities. */
module Rules {
  import opened Prelude
  import opened Capabilities
  import opened Replay

  datatype RuleFamily = ExactReference | NarrationPattern | DateWindow | FeeSchedule | SourceAlias

  datatype Proposal = Proposal(ruleId: string, family: RuleFamily, parameters: string, evidenceCaseIds: seq<string>,
                               sourceCaseHashes: seq<(string, string)>, author: string, status: RuleStatus, version: int,
                               approver: string, activatedBy: string, activationTime: string)

  /** Which names are human and which texts are UTC timestamps. */
  datatype Forms = Forms(human: string -> bool, utc: string -> bool)

  /** What the proposal class insists on in its constructor. */
  predicate WellFormed(f: Forms, p: Proposal) {
    && p.ruleId != "" && p.version >= 1 && f.human(p.author)
    && (if p.status.Approved? || p.status.Active? then f.human(p.approver) else p.approver == "")
    && (if p.status.Active? then f.human(p.activatedBy) && f.utc(p.activationTime)
        else p.activatedBy == "" && p.activationTime == "")
  }

  datatype VersionRow = VersionRow(proposal: Proposal, report: Option<Report>, receipt: Option<Receipt>)

  datatype ActivationReceipt = ActivationReceipt(ruleId: string, version: int, historyHash: string, registryId: string,
                                                 activatedBy: string, activationTime: string)

  datatype Refusal =
    | NotAVersionOneProposal | NotOneSourceCase | NotAuthenticated | AlreadyExists
    | UnknownRule | StaleVersion(expected: int, actual: int) | WrongStatus | InvalidReceipt(error: ReplayError)
    | Denied(denial: Denial) | Malformed
    | OtherRegistry | UnknownVersion | ReceiptMismatch

  /** Digest of a rule's first versions with their replay evidence. */
  type HistoryHash = (string, seq<VersionRow>) -> string

  /** The parts no operation changes. */
  datatype Setting = Setting(forms: Forms, corpora: CorpusStore, history: HistoryHash)

  datatype World = World(rows: map<string, seq<VersionRow>>, registry: RegistryState)

  // ------------------------------------------------------------ reading

  /** `ORDER BY version DESC LIMIT 1` over an append-only table. */
  function Latest(rows: seq<VersionRow>): Proposal
    requires rows != []
  {
    rows[|rows| - 1].proposal
  }

  predicate Known(w: World, id: string) { id in w.rows && w.rows[id] != [] }

  // ------------------------------------------------------------ adding

  function AddRefusal(w: World, p: Proposal, authentic: Option<Proposal>): Option<Refusal> {
    if !p.status.Proposed? || p.version != 1 then Some(NotAVersionOneProposal)
    else if |p.evidenceCaseIds| != 1 then Some(NotOneSourceCase)
    else if authentic != Some(p) then Some(NotAuthenticated)
    else if p.ruleId in w.rows then Some(AlreadyExists)
    else None
  }

  function Add(w: World, p: Proposal, authentic: Option<Proposal>): (World, Result<Proposal, Refusal>) {
    var refusal := AddRefusal(w, p, authentic);
    if refusal.Some? then (w, Err(refusal.value))
    else (w.(rows := w.rows[p.ruleId := [VersionRow(p, None, None)]]), Ok(p))
  }

  // ------------------------------------------------------------ transitions

  /** What a transition asks for and leaves behind. */
  datatype Change = Change(required: RuleStatus, target: RuleStatus, activationTime: string, report: Option<Report>,
                           receipt: Option<Receipt>, action: Option<HumanAction>)

  function Updated(p: Proposal, c: Change, actor: string): Proposal {
    p.(status := c.target, version := p.version + 1,
       approver := if c.action == Some(ApproveAction) && actor != "" then actor else p.approver,
       activatedBy := if c.action == Some(ActivateAction) then actor else "",
       activationTime := c.activationTime)
  }

  function TransitionRefusal(f: Forms, w: World, id: string, expected: int, c: Change, cap: Option<Capability>, now: int)
    : Option<Refusal>
    requires c.action.Some? ==> cap.Some?
  {
    if !Known(w, id) then Some(UnknownRule)
    else
      var current := Latest(w.rows[id]);
      if current.version != expected then Some(StaleVersion(expected, current.version))
      else if current.status != c.required then Some(WrongStatus)
      else
        var denial := if c.action.None? then None else ConsumeDenial(w.registry, cap.value, c.action.value, id, expected, now);
        if denial.Some? then Some(Denied(denial.value))
        else if !WellFormed(f, Updated(current, c, ActorOf(c, cap))) then Some(Malformed)
        else None
  }

  function ActorOf(c: Change, cap: Option<Capability>): string
    requires c.action.Some? ==> cap.Some?
  {
    if c.action.None? then "" else cap.value.actorId
  }

  /** Append one version, consuming the capability in the same transaction. */
  function Transition(f: Forms, w: World, id: string, expected: int, c: Change, cap: Option<Capability>, now: int)
    : (World, Result<Proposal, Refusal>)
    requires c.action.Some? ==> cap.Some?
  {
    var refusal := TransitionRefusal(f, w, id, expected, c, cap, now);
    if refusal.Some? then (w, Err(refusal.value))
    else
      var updated := Updated(Latest(w.rows[id]), c, ActorOf(c, cap));
      (World(w.rows[id := w.rows[id] + [VersionRow(updated, c.report, c.receipt)]],
             if c.action.None? then w.registry else Consumed(w.registry, cap.value, c.action.value, id, expected)),
       Ok(updated))
  }

  function ReplayChange(report: Report, receipt: Receipt): Change {
    Change(Proposed, report.status, "", Some(report), Some(receipt), None)
  }

  const APPROVAL := Change(ReplayPassed, Approved, "", None, None, Some(ApproveAction))

  function ActivationChange(time: string): Change { Change(Approved, Active, time, None, None, Some(ActivateAction)) }

  /** The rule read before the receipt was checked may since have moved on: `seen` is the version that was read. */
  function RecordReplay(s: Setting, w: World, id: string, seen: nat, expected: int, receipt: Receipt)
    : (World, Result<Proposal, Refusal>)
  {
    if !(Known(w, id) && seen < |w.rows[id]|) then (w, Err(UnknownRule))
    else
      var read := w.rows[id][seen].proposal;
      match VerifyReceipt(s.corpora, read.ruleId, read.version, read.status, receipt)
      case Err(e) => (w, Err(InvalidReceipt(e)))
      case Ok(report) => Transition(s.forms, w, id, expected, ReplayChange(report, receipt), None, 0)
  }

  /** The capability is checked once before the transaction and consumed inside it. */
  function Authorised(s: Setting, w: World, id: string, expected: int, c: Change, cap: Capability, now: int)
    : (World, Result<Proposal, Refusal>)
    requires c.action.Some?
  {
    var denial := VerifyDenial(w.registry, cap, c.action.value, id, expected, now);
    if denial.Some? then (w, Err(Denied(denial.value)))
    else Transition(s.forms, w, id, expected, c, Some(cap), now)
  }

  function ReceiptFor(s: Setting, w: World, active: Proposal): ActivationReceipt
    requires Known(w, active.ruleId) && 0 <= active.version <= |w.rows[active.ruleId]|
  {
    ActivationReceipt(active.ruleId, active.version, s.history(active.ruleId, w.rows[active.ruleId][..active.version]),
                      w.registry.registryId, active.activatedBy, active.activationTime)
  }

  function ValidateRefusal(s: Setting, w: World, r: ActivationReceipt): Option<Refusal> {
    if r.registryId != w.registry.registryId then Some(OtherRegistry)
    else if !(Known(w, r.ruleId) && 1 <= r.version <= |w.rows[r.ruleId]|) then Some(UnknownVersion)
    else
      var active := w.rows[r.ruleId][r.version - 1].proposal;
      if !active.status.Active? || active.activatedBy != r.activatedBy || active.activationTime != r.activationTime
         || s.history(r.ruleId, w.rows[r.ruleId][..r.version]) != r.historyHash then Some(ReceiptMismatch)
      else None
  }

  // ------------------------------------------------------------ the store

  class RuleStore {
    var rows: map<string, seq<VersionRow>>
    const registry: AnalystRegistry
    const setting: Setting

    function State(): World
      reads this, registry
    {
      World(rows, registry.State())
    }

    constructor (r: AnalystRegistry, s: Setting)
      ensures State() == World(map[], r.State()) && registry == r && setting == s
    {
      rows, registry, setting := map[], r, s;
    }

    method AddRule(p: Proposal, authentic: Option<Proposal>) returns (r: Result<Proposal, Refusal>)
      modifies this
      ensures (State(), r) == Add(old(State()), p, authentic)
    {
      if !p.status.Proposed? || p.version != 1 {
        return Err(NotAVersionOneProposal);
      }
      if |p.evidenceCaseIds| != 1 {
        return Err(NotOneSourceCase);
      }
      if authentic != Some(p) {
        return Err(NotAuthenticated);
      }
      if p.ruleId in rows {
        return Err(AlreadyExists);
      }
      rows := rows[p.ruleId := [VersionRow(p, None, None)]];
      return Ok(p);
    }

    method MakeTransition(id: string, expected: int, c: Change, cap: Option<Capability>, now: int)
      returns (r: Result<Proposal, Refusal>)
      requires c.action.Some? ==> cap.Some?
      modifies this, registry`used
      ensures (State(), r) == Transition(setting.forms, old(State()), id, expected, c, cap, now)
    {
      if !(id in rows && rows[id] != []) {
        return Err(UnknownRule);
      }
      var current := Latest(rows[id]);
      if current.version != expected {
        return Err(StaleVersion(expected, current.version));
      }
      if current.status != c.required {
        return Err(WrongStatus);
      }
      var actor, saved := "", registry.used;
      if c.action.Some? {
        var human := registry.VerifyAndConsume(cap.value, c.action.value, id, expected, now);
        if human.Err? {
          return Err(Denied(human.error));
        }
        actor := human.value;
      }
      var updated := Updated(current, c, actor);
      if !WellFormed(setting.forms, updated) {
        registry.Rollback(saved);
        return Err(Malformed);
      }
      rows := rows[id := rows[id] + [VersionRow(updated, c.report, c.receipt)]];
      return Ok(updated);
    }

    method Record(id: string, seen: nat, expected: int, receipt: Receipt) returns (r: Result<Proposal, Refusal>)
      modifies this, registry`used
      ensures (State(), r) == RecordReplay(setting, old(State()), id, seen, expected, receipt)
    {
      if !(id in rows && rows[id] != [] && seen < |rows[id]|) {
        return Err(UnknownRule);
      }
      var read := rows[id][seen].proposal;
      var checked := VerifyReceipt(setting.corpora, read.ruleId, read.version, read.status, receipt);
      if checked.Err? {
        return Err(InvalidReceipt(checked.error));
      }
      r := MakeTransition(id, expected, ReplayChange(checked.value, receipt), None, 0);
    }

    method Approve(id: string, expected: int, cap: Capability, now: int) returns (r: Result<Proposal, Refusal>)
      modifies this, registry`used
      ensures (State(), r) == Authorised(setting, old(State()), id, expected, APPROVAL, cap, now)
    {
      var checked := registry.Verify(cap, ApproveAction, id, expected, now);
      if checked.Err? {
        return Err(Denied(checked.error));
      }
      r := MakeTransition(id, expected, APPROVAL, Some(cap), now);
    }

    method Activate(id: string, expected: int, cap: Capability, time: string, now: int)
      returns (r: Result<ActivationReceipt, Refusal>)
      requires StoreInv(setting, State())
      modifies this, registry`used
      ensures var (w, done) := Authorised(setting, old(State()), id, expected, ActivationChange(time), cap, now);
              && State() == w
              && (done.Err? ==> r == Err(done.error))
              && (done.Ok? ==> Known(w, id) && done.value.ruleId == id && 0 <= done.value.version <= |w.rows[id]|
                               && r == Ok(ReceiptFor(setting, w, done.value)))
    {
      ghost var before := State();
      var checked := registry.Verify(cap, ActivateAction, id, expected, now);
      if checked.Err? {
        return Err(Denied(checked.error));
      }
      var done := MakeTransition(id, expected, ActivationChange(time), Some(cap), now);
      if done.Err? {
        return Err(done.error);
      }
      var active := done.value;
      AppendedVersion(setting, before, id, expected, ActivationChange(time), Some(cap), now);
      return Ok(ActivationReceipt(active.ruleId, active.version,
                                  setting.history(active.ruleId, rows[active.ruleId][..active.version]),
                                  registry.registryId, active.activatedBy, active.activationTime));
    }

    method ValidateActivation(receipt: ActivationReceipt) returns (r: Result<Proposal, Refusal>)
      ensures var refusal := ValidateRefusal(setting, State(), receipt);
              if refusal.Some? then r == Err(refusal.value) else r == Ok(rows[receipt.ruleId][receipt.version - 1].proposal)
    {
      if receipt.registryId != registry.registryId {
        return Err(OtherRegistry);
      }
      if !(receipt.ruleId in rows && 1 <= receipt.version <= |rows[receipt.ruleId]|) {
        return Err(UnknownVersion);
      }
      var active := rows[receipt.ruleId][receipt.version - 1].proposal;
      if !active.status.Active? || active.activatedBy != receipt.activatedBy
         || active.activationTime != receipt.activationTime
         || setting.history(receipt.ruleId, rows[receipt.ruleId][..receipt.version]) != receipt.historyHash {
        return Err(ReceiptMismatch);
      }
      return Ok(active);
    }
  }

  // ------------------------------------------------------------ what every run keeps

  /** What the lifecycle never changes about a rule. */
  predicate SameRule(p: Proposal, q: Proposal) {
    && p.ruleId == q.ruleId && p.family == q.family && p.parameters == q.parameters
    && p.evidenceCaseIds == q.evidenceCaseIds && p.sourceCaseHashes == q.sourceCaseHashes && p.author == q.author
  }

  /** The replay stage: a report the gate yields for version one over two stored corpora. */
  ghost predicate Replayed(s: Setting, row: VersionRow, first: Proposal) {
    && row.report.Some? && row.receipt.Some?
    && row.proposal.status == row.report.value.status
    && VerifyReceipt(s.corpora, first.ruleId, 1, Proposed, row.receipt.value) == Ok(row.report.value)
  }

  /** Some capability of this scope was consumed by this person. */
  ghost predicate UsedBy(registry: RegistryState, actor: string, action: HumanAction, id: string, version: int) {
    exists nonce :: nonce in registry.used && registry.used[nonce] == Use(actor, action, id, version)
  }

  /** One rule's rows: at most four versions, each stage what the stage before allows. */
  ghost predicate Lifecycle(s: Setting, registry: RegistryState, id: string, rows: seq<VersionRow>) {
    && 1 <= |rows| <= 4
    && (forall i :: 0 <= i < |rows| ==>
          && rows[i].proposal.version == i + 1 && rows[i].proposal.ruleId == id
          && SameRule(rows[i].proposal, rows[0].proposal) && WellFormed(s.forms, rows[i].proposal))
    && rows[0].proposal.status.Proposed?
    && (|rows| > 1 ==> Replayed(s, rows[1], rows[0].proposal))
    && (|rows| > 2 ==> rows[1].proposal.status.ReplayPassed? && rows[2].proposal.status.Approved?
                       && UsedBy(registry, rows[2].proposal.approver, ApproveAction, id, 2))
    && (|rows| > 3 ==> rows[3].proposal.status.Active? && rows[3].proposal.approver == rows[2].proposal.approver
                       && UsedBy(registry, rows[3].proposal.activatedBy, ActivateAction, id, 3))
  }

  ghost predicate StoreInv(s: Setting, w: World) {
    forall id :: id in w.rows ==> Lifecycle(s, w.registry, id, w.rows[id])
  }

  lemma AppendedVersion(s: Setting, w: World, id: string, expected: int, c: Change, cap: Option<Capability>, now: int)
    requires StoreInv(s, w) && (c.action.Some? ==> cap.Some?)
    requires Transition(s.forms, w, id, expected, c, cap, now).1.Ok?
    ensures var (v, done) := Transition(s.forms, w, id, expected, c, cap, now);
            Known(v, id) && done.value.ruleId == id && done.value.version == |v.rows[id]|
  {
    hide WellFormed, Replayed, UsedBy;
    assert Lifecycle(s, w.registry, id, w.rows[id]);
  }

  lemma AddKeeps(s: Setting, w: World, p: Proposal, authentic: Option<Proposal>)
    requires StoreInv(s, w) && WellFormed(s.forms, p)
    ensures StoreInv(s, Add(w, p, authentic).0)
  {
    hide Replayed, UsedBy;
    var v := Add(w, p, authentic).0;
    forall id | id in v.rows
      ensures Lifecycle(s, v.registry, id, v.rows[id])
    {
      if id in w.rows {
        assert Lifecycle(s, w.registry, id, w.rows[id]);
      }
    }
  }

  /** More consumed capabilities take nothing from a lifecycle. */
  lemma MoreUsed(s: Setting, before: RegistryState, after: RegistryState, id: string, rows: seq<VersionRow>)
    requires Lifecycle(s, before, id, rows)
    requires forall n :: n in before.used ==> n in after.used && after.used[n] == before.used[n]
    ensures Lifecycle(s, after, id, rows)
  {
    hide Replayed;
    forall actor, action, version | UsedBy(before, actor, action, id, version)
      ensures UsedBy(after, actor, action, id, version)
    {
      var n :| n in before.used && before.used[n] == Use(actor, action, id, version);
      assert n in after.used;
    }
  }

  lemma ConsumedIsUsed(registry: RegistryState, cap: Capability, action: HumanAction, id: string, version: int, now: int)
    requires ConsumeDenial(registry, cap, action, id, version, now).None?
    ensures UsedBy(Consumed(registry, cap, action, id, version), cap.actorId, action, id, version)
    ensures forall n :: n in registry.used ==>
              n in Consumed(registry, cap, action, id, version).used
              && Consumed(registry, cap, action, id, version).used[n] == registry.used[n]
  {
    assert cap.nonce in Consumed(registry, cap, action, id, version).used;
  }

  lemma OthersKeep(s: Setting, w: World, v: World, id: string)
    requires StoreInv(s, w) && v.rows.Keys <= w.rows.Keys + {id}
    requires forall x :: x in w.rows && x != id ==> x in v.rows && v.rows[x] == w.rows[x]
    requires forall n :: n in w.registry.used ==> n in v.registry.used && v.registry.used[n] == w.registry.used[n]
    requires id in v.rows ==> Lifecycle(s, v.registry, id, v.rows[id])
    ensures StoreInv(s, v)
  {
    hide Lifecycle;
    forall x | x in v.rows
      ensures Lifecycle(s, v.registry, x, v.rows[x])
    {
      if x != id {
        MoreUsed(s, w.registry, v.registry, x, w.rows[x]);
      }
    }
  }

  /** Only version one is a proposal. */
  lemma FirstIsProposed(s: Setting, registry: RegistryState, id: string, rows: seq<VersionRow>, i: nat)
    requires Lifecycle(s, registry, id, rows) && i < |rows| && rows[i].proposal.status.Proposed?
    ensures i == 0
  {
    hide UsedBy;
    if i == 1 {
      VerifiedIsReplayed(s.corpora, id, 1, Proposed, rows[1].receipt.value);
    }
  }

  /** The stage of a rule is the number of its versions. */
  lemma StageIsVersion(s: Setting, registry: RegistryState, id: string, rows: seq<VersionRow>)
    requires Lifecycle(s, registry, id, rows)
    ensures Latest(rows).version == |rows| && Latest(rows).ruleId == id && WellFormed(s.forms, Latest(rows))
    ensures Latest(rows).status.Proposed? ==> |rows| == 1
    ensures Latest(rows).status.ReplayPassed? ==> |rows| == 2
    ensures Latest(rows).status.Approved? ==> |rows| == 3
    ensures Latest(rows).status.Active? ==> |rows| == 4
  {
    hide UsedBy, SameRule, WellFormed;
    if Latest(rows).status.Proposed? {
      FirstIsProposed(s, registry, id, rows, |rows| - 1);
    }
    if |rows| == 2 {
      VerifiedIsReplayed(s.corpora, id, 1, Proposed, rows[1].receipt.value);
    }
  }

  lemma ReplayRow(s: Setting, registry: RegistryState, id: string, rows: seq<VersionRow>, report: Report, receipt: Receipt)
    requires Lifecycle(s, registry, id, rows) && |rows| == 1
    requires VerifyReceipt(s.corpora, id, 1, Proposed, receipt) == Ok(report)
    requires WellFormed(s.forms, Updated(Latest(rows), ReplayChange(report, receipt), ""))
    ensures Lifecycle(s, registry, id,
                      rows + [VersionRow(Updated(Latest(rows), ReplayChange(report, receipt), ""), Some(report), Some(receipt))])
  {
    hide UsedBy, WellFormed, VerifyReceipt;
  }

  lemma ApprovalRow(s: Setting, registry: RegistryState, id: string, rows: seq<VersionRow>, actor: string)
    requires Lifecycle(s, registry, id, rows) && Latest(rows).status.ReplayPassed?
    requires WellFormed(s.forms, Updated(Latest(rows), APPROVAL, actor)) && UsedBy(registry, actor, ApproveAction, id, 2)
    ensures Lifecycle(s, registry, id, rows + [VersionRow(Updated(Latest(rows), APPROVAL, actor), None, None)])
  {
    hide UsedBy, Replayed;
    StageIsVersion(s, registry, id, rows);
  }

  lemma ActivationRow(s: Setting, registry: RegistryState, id: string, rows: seq<VersionRow>, time: string, actor: string)
    requires Lifecycle(s, registry, id, rows) && Latest(rows).status.Approved?
    requires WellFormed(s.forms, Updated(Latest(rows), ActivationChange(time), actor))
    requires UsedBy(registry, actor, ActivateAction, id, 3)
    ensures Lifecycle(s, registry, id, rows + [VersionRow(Updated(Latest(rows), ActivationChange(time), actor), None, None)])
  {
    hide UsedBy, Replayed, WellFormed;
    StageIsVersion(s, registry, id, rows);
  }

  lemma ReplayKeeps(s: Setting, w: World, id: string, seen: nat, expected: int, receipt: Receipt)
    requires StoreInv(s, w)
    ensures StoreInv(s, RecordReplay(s, w, id, seen, expected, receipt).0)
  {
    hide WellFormed, VerifyReceipt, Lifecycle, Updated;
    var v := RecordReplay(s, w, id, seen, expected, receipt).0;
    if v != w {
      var rows := w.rows[id];
      ReadVersion(s, w.registry, id, rows, seen);
      var read := rows[seen].proposal;
      VerifiedIsReplayed(s.corpora, read.ruleId, read.version, read.status, receipt);
      FirstIsProposed(s, w.registry, id, rows, seen);
      StageIsVersion(s, w.registry, id, rows);
      ReplayRow(s, w.registry, id, rows, VerifyReceipt(s.corpora, id, 1, Proposed, receipt).value, receipt);
      OthersKeep(s, w, v, id);
    }
  }

  lemma ReadVersion(s: Setting, registry: RegistryState, id: string, rows: seq<VersionRow>, i: nat)
    requires Lifecycle(s, registry, id, rows) && i < |rows|
    ensures rows[i].proposal.ruleId == id && rows[i].proposal.version == i + 1
  {
    hide UsedBy, Replayed, WellFormed;
  }

  lemma ApprovalKeeps(s: Setting, w: World, id: string, expected: int, cap: Capability, now: int)
    requires StoreInv(s, w)
    ensures StoreInv(s, Authorised(s, w, id, expected, APPROVAL, cap, now).0)
  {
    hide UsedBy, WellFormed, VerifyDenial, Lifecycle, Updated, ConsumeDenial, Consumed;
    var v := Authorised(s, w, id, expected, APPROVAL, cap, now).0;
    if v != w {
      StageIsVersion(s, w.registry, id, w.rows[id]);
      ConsumedIsUsed(w.registry, cap, ApproveAction, id, expected, now);
      MoreUsed(s, w.registry, v.registry, id, w.rows[id]);
      ApprovalRow(s, v.registry, id, w.rows[id], cap.actorId);
      OthersKeep(s, w, v, id);
    }
  }

  lemma ActivationKeeps(s: Setting, w: World, id: string, expected: int, cap: Capability, time: string, now: int)
    requires StoreInv(s, w)
    ensures StoreInv(s, Authorised(s, w, id, expected, ActivationChange(time), cap, now).0)
  {
    hide UsedBy, WellFormed, VerifyDenial, Lifecycle, Updated, ConsumeDenial, Consumed;
    var v := Authorised(s, w, id, expected, ActivationChange(time), cap, now).0;
    if v != w {
      StageIsVersion(s, w.registry, id, w.rows[id]);
      ConsumedIsUsed(w.registry, cap, ActivateAction, id, expected, now);
      MoreUsed(s, w.registry, v.registry, id, w.rows[id]);
      ActivationRow(s, v.registry, id, w.rows[id], time, cap.actorId);
      OthersKeep(s, w, v, id);
    }
  }

  datatype RuleOp =
    | Adding(p: Proposal, authentic: Option<Proposal>)
    | Replaying(id: string, seen: nat, expected: int, receipt: Receipt)
    | Approving(id: string, expected: int, cap: Capability, now: int)
    | Activating(id: string, expected: int, cap: Capability, time: string, now: int)
    | Granting(grant: RegistryOp)

  /** One transaction by any client; a malformed proposal object cannot be built in the first place. */
  function Step(s: Setting, w: World, op: RuleOp): World {
    match op
    case Adding(p, authentic) => if WellFormed(s.forms, p) then Add(w, p, authentic).0 else w
    case Replaying(id, seen, expected, receipt) => RecordReplay(s, w, id, seen, expected, receipt).0
    case Approving(id, expected, cap, now) => Authorised(s, w, id, expected, APPROVAL, cap, now).0
    case Activating(id, expected, cap, time, now) => Authorised(s, w, id, expected, ActivationChange(time), cap, now).0
    case Granting(grant) => w.(registry := RegistryStep(w.registry, grant))
  }

  function Run(s: Setting, w: World, ops: seq<RuleOp>): World {
    if ops == [] then w else Step(s, Run(s, w, ops[..|ops| - 1]), ops[|ops| - 1])
  }

  lemma GrantKeeps(s: Setting, w: World, grant: RegistryOp)
    requires StoreInv(s, w)
    ensures StoreInv(s, w.(registry := RegistryStep(w.registry, grant)))
  {
    hide Lifecycle;
    var v := w.(registry := RegistryStep(w.registry, grant));
    forall id | id in v.rows
      ensures Lifecycle(s, v.registry, id, v.rows[id])
    {
      MoreUsed(s, w.registry, v.registry, id, w.rows[id]);
    }
  }

  lemma StepKeeps(s: Setting, w: World, op: RuleOp)
    requires StoreInv(s, w)
    ensures StoreInv(s, Step(s, w, op))
  {
    hide StoreInv, WellFormed, Add, RecordReplay, Authorised, RegistryStep;
    match op
    case Adding(p, authentic) =>
      if WellFormed(s.forms, p) {
        AddKeeps(s, w, p, authentic);
      }
    case Replaying(id, seen, expected, receipt) => ReplayKeeps(s, w, id, seen, expected, receipt);
    case Approving(id, expected, cap, now) => ApprovalKeeps(s, w, id, expected, cap, now);
    case Activating(id, expected, cap, time, now) => ActivationKeeps(s, w, id, expected, cap, time, now);
    case Granting(grant) => GrantKeeps(s, w, grant);
  }

  lemma {:induction false} RunKeeps(s: Setting, w: World, ops: seq<RuleOp>)
    requires StoreInv(s, w)
    ensures StoreInv(s, Run(s, w, ops))
  {
    hide StoreInv, Step;
    if ops != [] {
      RunKeeps(s, w, ops[..|ops| - 1]);
      StepKeeps(s, Run(s, w, ops[..|ops| - 1]), ops[|ops| - 1]);
    }
  }

  /** Rows are only appended, and the registry stays the same one. */
  ghost predicate Extends(v: World, w: World) {
    && v.registry.registryId == w.registry.registryId
    && forall id :: id in w.rows ==> id in v.rows && w.rows[id] <= v.rows[id]
  }

  lemma StepExtends(s: Setting, w: World, op: RuleOp)
    ensures Extends(Step(s, w, op), w)
  {
    hide WellFormed, VerifyReceipt, VerifyDenial, ConsumeDenial, Updated;
  }

  lemma {:induction false} RunExtends(s: Setting, w: World, ops: seq<RuleOp>)
    ensures Extends(Run(s, w, ops), w)
  {
    hide Step;
    if ops != [] {
      RunExtends(s, w, ops[..|ops| - 1]);
      StepExtends(s, Run(s, w, ops[..|ops| - 1]), ops[|ops| - 1]);
    }
  }

  // ------------------------------------------------------------ main results

  /** The whole history behind an active version. */
  ghost predicate ActivatedProperly(s: Setting, w: World, id: string, rows: seq<VersionRow>) {
    && |rows| == 4
    && rows[0].proposal.status.Proposed? && rows[1].proposal.status.ReplayPassed?
    && rows[2].proposal.status.Approved? && rows[3].proposal.status.Active?
    && (forall i :: 0 <= i < 4 ==> rows[i].proposal.version == i + 1 && SameRule(rows[i].proposal, rows[0].proposal))
    && (exists n, m :: n != m && n in w.registry.used && m in w.registry.used
                       && w.registry.used[n] == Use(rows[3].proposal.approver, ApproveAction, id, 2)
                       && w.registry.used[m] == Use(rows[3].proposal.activatedBy, ActivateAction, id, 3))
  }

  /** The stored report came from two stored corpora and no case in them regresses. */
  ghost predicate CleanReplay(s: Setting, row: VersionRow, id: string) {
    && row.report.Some? && row.receipt.Some?
    && var report, p := row.report.value, row.receipt.value.payload;
       && p.confirmedId in s.corpora.corpora && p.attackId in s.corpora.corpora
       && report.confirmed == OutcomesOf(s.corpora.corpora[p.confirmedId])
       && report.attacks == OutcomesOf(s.corpora.corpora[p.attackId])
       && report.ruleId == id && report.ruleVersion == 1
       && (forall o :: o in report.confirmed + report.attacks ==> NoRegression(o))
       && Sum(report.confirmed, CoverageChange) >= 0 && Sum(report.attacks, CoverageChange) >= 0
  }

  lemma DistinctUses(registry: RegistryState, a: string, b: string, id: string)
    requires UsedBy(registry, a, ApproveAction, id, 2) && UsedBy(registry, b, ActivateAction, id, 3)
    ensures exists n, m :: n != m && n in registry.used && m in registry.used
                           && registry.used[n] == Use(a, ApproveAction, id, 2)
                           && registry.used[m] == Use(b, ActivateAction, id, 3)
  {
    var n :| n in registry.used && registry.used[n] == Use(a, ApproveAction, id, 2);
    var m :| m in registry.used && registry.used[m] == Use(b, ActivateAction, id, 3);
    assert n != m;
  }

  lemma ReplayIsClean(s: Setting, row: VersionRow, first: Proposal)
    requires Replayed(s, row, first) && row.proposal.status.ReplayPassed?
    ensures CleanReplay(s, row, first.ruleId)
  {
    hide Sum, Promotable, VerifyReceipt, NoRegression;
    VerifiedIsReplayed(s.corpora, first.ruleId, 1, Proposed, row.receipt.value);
    var report := row.report.value;
    PromotableMeans(report.confirmed, report.attacks);
  }

  lemma ActiveRows(s: Setting, w: World, id: string, i: nat)
    requires StoreInv(s, w) && id in w.rows && i < |w.rows[id]| && w.rows[id][i].proposal.status.Active?
    ensures i == 3 && ActivatedProperly(s, w, id, w.rows[id]) && CleanReplay(s, w.rows[id][1], id)
  {
    hide UsedBy, WellFormed, Replayed, CleanReplay, SameRule;
    var rows := w.rows[id];
    assert Lifecycle(s, w.registry, id, rows);
    ActiveIsFourth(s, w.registry, id, rows, i);
    DistinctUses(w.registry, rows[3].proposal.approver, rows[3].proposal.activatedBy, id);
    ReplayIsClean(s, rows[1], rows[0].proposal);
  }

  lemma ActiveIsFourth(s: Setting, registry: RegistryState, id: string, rows: seq<VersionRow>, i: nat)
    requires Lifecycle(s, registry, id, rows) && i < |rows| && rows[i].proposal.status.Active?
    ensures i == 3 && |rows| == 4
  {
    hide UsedBy, WellFormed, SameRule;
    if i == 1 {
      VerifiedIsReplayed(s.corpora, rows[0].proposal.ruleId, 1, Proposed, rows[1].receipt.value);
    }
  }

  /**
   * After any operations on an empty store, an active rule is version four of one unchanged rule, went through every
   * stage, consumed two different capabilities for versions two and three, and passed a replay without regression.
   */
  lemma ActiveRulesEarnedIt(s: Setting, registry: RegistryState, ops: seq<RuleOp>, id: string, i: nat)
    requires var w := Run(s, World(map[], registry), ops);
             id in w.rows && i < |w.rows[id]| && w.rows[id][i].proposal.status.Active?
    ensures var w := Run(s, World(map[], registry), ops);
            i == 3 && ActivatedProperly(s, w, id, w.rows[id]) && CleanReplay(s, w.rows[id][1], id)
  {
    hide Run, ActivatedProperly, CleanReplay;
    var empty := World(map[], registry);
    assert StoreInv(s, empty);
    RunKeeps(s, empty, ops);
    ActiveRows(s, Run(s, empty, ops), id, i);
  }

  /** The receipt of an activation validates at once and after any later operations. */
  lemma ReceiptsStayValid(s: Setting, w: World, id: string, expected: int, cap: Capability, time: string, now: int,
                          later: seq<RuleOp>)
    requires StoreInv(s, w) && Authorised(s, w, id, expected, ActivationChange(time), cap, now).1.Ok?
    ensures var (v, done) := Authorised(s, w, id, expected, ActivationChange(time), cap, now);
            Known(v, id) && done.value.ruleId == id && done.value.version == |v.rows[id]|
            && ValidateRefusal(s, Run(s, v, later), ReceiptFor(s, v, done.value)).None?
  {
    hide StoreInv, WellFormed, VerifyDenial, ConsumeDenial, Run;
    var (v, done) := Authorised(s, w, id, expected, ActivationChange(time), cap, now);
    AppendedVersion(s, w, id, expected, ActivationChange(time), Some(cap), now);
    var n := |v.rows[id]|;
    assert v.rows[id][n - 1].proposal == done.value;
    RunExtends(s, v, later);
    var after := Run(s, v, later);
    assert after.rows[id][..n] == v.rows[id];
    assert after.rows[id][n - 1] == v.rows[id][n - 1];
    assert v.rows[id][..n] == v.rows[id];
  }

  /** An active or rejected rule gets no further version. */
  lemma {:induction false} SettledRulesAreFinal(s: Setting, w: World, ops: seq<RuleOp>, id: string)
    requires StoreInv(s, w) && Known(w, id)
    requires Latest(w.rows[id]).status.Active? || Latest(w.rows[id]).status.Rejected?
    ensures id in Run(s, w, ops).rows && Run(s, w, ops).rows[id] == w.rows[id]
  {
    hide StoreInv, WellFormed, VerifyDenial, ConsumeDenial, VerifyReceipt, Step;
    if ops != [] {
      var rest := ops[..|ops| - 1];
      SettledRulesAreFinal(s, w, rest, id);
      RunKeeps(s, w, rest);
      SettledStep(s, Run(s, w, rest), ops[|ops| - 1], id);
    }
  }

  lemma SettledStep(s: Setting, w: World, op: RuleOp, id: string)
    requires StoreInv(s, w) && Known(w, id)
    requires Latest(w.rows[id]).status.Active? || Latest(w.rows[id]).status.Rejected?
    ensures id in Step(s, w, op).rows && Step(s, w, op).rows[id] == w.rows[id]
  {
    hide StoreInv, WellFormed, VerifyDenial, ConsumeDenial, VerifyReceipt, Updated;
  }

  /** A refusal leaves rules and consumed capabilities alone. */
  lemma RefusalChangesNothing(s: Setting, w: World, id: string, seen: nat, expected: int, receipt: Receipt, c: Change,
                              cap: Capability, now: int, p: Proposal, authentic: Option<Proposal>)
    requires c.action.Some?
    ensures Add(w, p, authentic).1.Err? ==> Add(w, p, authentic).0 == w
    ensures RecordReplay(s, w, id, seen, expected, receipt).1.Err? ==> RecordReplay(s, w, id, seen, expected, receipt).0 == w
    ensures Authorised(s, w, id, expected, c, cap, now).1.Err? ==> Authorised(s, w, id, expected, c, cap, now).0 == w
  {
    hide WellFormed, VerifyDenial, ConsumeDenial, VerifyReceipt;
  }
}
