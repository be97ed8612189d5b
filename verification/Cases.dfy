/** The exception state machine: append-only case histories under optimistic concurrency. */
module Cases {
  import opened Prelude
  import opened Capabilities
  import Routes
  import Sorting

  datatype CaseState =
    | OpenState | Assigned | Investigating | EvidenceRequested | EvidenceReceived | Verified
    | Resolved | WrittenOff | Escalated

  predicate Terminal(s: CaseState) { s.Resolved? || s.WrittenOff? }

  /** The whole declared graph; escalation is an edge from every other state that is not terminal. */
  function Legal(s: CaseState): set<CaseState> {
    match s
    case OpenState => {Assigned, Escalated}
    case Assigned => {Investigating, Escalated}
    case Investigating => {EvidenceRequested, Verified, Escalated}
    case EvidenceRequested => {EvidenceReceived, Escalated}
    case EvidenceReceived => {Verified, EvidenceRequested, Escalated}
    case Verified => {Resolved, WrittenOff, Escalated}
    case Escalated => {Investigating, Resolved, WrittenOff}
    case Resolved => {}
    case WrittenOff => {}
  }

  datatype Reason = AmbiguousMatch | PolicyHold | PolicyEscalation | QuarantinedSource | ProofUnverified
                  | Undeclared(text: string)

  /** Stands for the digest of subject and reason: equal exactly when both are. */
  datatype CaseId = CaseId(orderId: string, reason: Reason)

  datatype Case = Case(caseId: CaseId, orderId: string, reason: Reason, certificateId: string, state: CaseState,
                       version: int, openedAt: int, updatedAt: int)

  datatype CaseEvent = CaseEvent(caseId: CaseId, seqNo: int, fromState: CaseState, toState: CaseState, actor: string,
                                 evidenceRefs: seq<string>, at: int, metadata: string)

  datatype Refusal =
    | UnknownReason | NoSubject | NoActor | UnknownCase | VersionConflict(expected: int, actual: int)
    | IllegalTransition(current: CaseState, target: CaseState) | Denied(denial: Denial) | ActorMismatch

  datatype AuthorityUse = AuthorityUse(cap: Capability, action: HumanAction, subject: string, version: int)

  /** The tables the store and the registry share. */
  datatype World = World(cases: map<CaseId, Case>, events: map<CaseId, seq<CaseEvent>>, registry: RegistryState)

  const NO_METADATA := "{}"
  const MACHINE_ACTOR := "ledger-daemon"

  // ------------------------------------------------------------ opening

  function NewCase(orderId: string, reason: Reason, certificateId: string, now: int): Case {
    Case(CaseId(orderId, reason), orderId, reason, certificateId, OpenState, 1, now, now)
  }

  function OpeningEvent(id: CaseId, now: int): CaseEvent {
    CaseEvent(id, 1, OpenState, OpenState, MACHINE_ACTOR, [], now, NO_METADATA)
  }

  function OpenCase(w: World, orderId: string, reason: Reason, certificateId: string, now: int)
    : (World, Result<Case, Refusal>)
  {
    var id := CaseId(orderId, reason);
    if reason.Undeclared? then (w, Err(UnknownReason))
    else if orderId == "" then (w, Err(NoSubject))
    else if id in w.cases then (w, Ok(w.cases[id]))
    else
      var entry := NewCase(orderId, reason, certificateId, now);
      (World(w.cases[id := entry], w.events[id := [OpeningEvent(id, now)]], w.registry), Ok(entry))
  }

  // ------------------------------------------------------------ advancing

  function StateAt(start: CaseState, path: seq<CaseState>, i: nat): CaseState
    requires i <= |path|
  {
    if i == 0 then start else path[i - 1]
  }

  /** The first hop that is not a declared edge. */
  function FirstIllegal(start: CaseState, path: seq<CaseState>): Option<Refusal>
    decreases path
  {
    if path == [] then None
    else if path[0] !in Legal(start) then Some(IllegalTransition(start, path[0]))
    else FirstIllegal(path[0], path[1..])
  }

  function HopEvent(c: Case, path: seq<CaseState>, i: nat, actor: string, refs: seq<string>, metadata: string, now: int)
    : CaseEvent
    requires i < |path|
  {
    CaseEvent(c.caseId, c.version + 1 + i, StateAt(c.state, path, i), path[i], actor, refs, now,
              if i == |path| - 1 then metadata else NO_METADATA)
  }

  function HopEvents(c: Case, path: seq<CaseState>, n: nat, actor: string, refs: seq<string>, metadata: string, now: int)
    : seq<CaseEvent>
    requires n <= |path|
  {
    seq(n, i requires 0 <= i < n => HopEvent(c, path, i, actor, refs, metadata, now))
  }

  function UseDenial(s: RegistryState, use: Option<AuthorityUse>, actor: string, now: int): Option<Refusal> {
    if use.None? then None
    else
      var u := use.value;
      var denial := ConsumeDenial(s, u.cap, u.action, u.subject, u.version, now);
      if denial.Some? then Some(Denied(denial.value))
      else if u.cap.actorId != actor then Some(ActorMismatch)
      else None
  }

  function AfterUse(s: RegistryState, use: Option<AuthorityUse>): RegistryState {
    if use.None? then s
    else Consumed(s, use.value.cap, use.value.action, use.value.subject, use.value.version)
  }

  function AdvanceRefusal(w: World, id: CaseId, expected: int, path: seq<CaseState>, actor: string,
                          use: Option<AuthorityUse>, now: int): Option<Refusal> {
    if actor == "" then Some(NoActor)
    else if id !in w.cases then Some(UnknownCase)
    else if w.cases[id].version != expected then Some(VersionConflict(expected, w.cases[id].version))
    else if path == [] then None
    else
      var denied := UseDenial(w.registry, use, actor, now);
      if denied.Some? then denied else FirstIllegal(w.cases[id].state, path)
  }

  function Advanced(c: Case, path: seq<CaseState>, now: int): Case
    requires path != []
  {
    c.(state := path[|path| - 1], version := c.version + |path|, updatedAt := now)
  }

  /** The whole path or none of it. */
  function Advance(w: World, id: CaseId, expected: int, path: seq<CaseState>, actor: string, refs: seq<string>,
                   metadata: string, use: Option<AuthorityUse>, now: int): (World, Result<Case, Refusal>)
    requires w.cases.Keys <= w.events.Keys
  {
    var refusal := AdvanceRefusal(w, id, expected, path, actor, use, now);
    if refusal.Some? then (w, Err(refusal.value))
    else if path == [] then (w, Ok(w.cases[id]))
    else
      var c := w.cases[id];
      var moved := Advanced(c, path, now);
      (World(w.cases[id := moved],
             w.events[id := w.events[id] + HopEvents(c, path, |path|, actor, refs, metadata, now)],
             AfterUse(w.registry, use)),
       Ok(moved))
  }

  // ------------------------------------------------------------ the store

  class CaseStore {
    var cases: map<CaseId, Case>
    var events: map<CaseId, seq<CaseEvent>>
    const registry: AnalystRegistry

    function State(): World
      reads this, registry
    {
      World(cases, events, registry.State())
    }

    constructor (r: AnalystRegistry)
      ensures State() == World(map[], map[], r.State()) && registry == r
    {
      cases, events, registry := map[], map[], r;
    }

    method Open(orderId: string, reason: Reason, certificateId: string, now: int) returns (r: Result<Case, Refusal>)
      modifies this
      ensures (State(), r) == OpenCase(old(State()), orderId, reason, certificateId, now)
    {
      if reason.Undeclared? {
        return Err(UnknownReason);
      }
      if orderId == "" {
        return Err(NoSubject);
      }
      var id := CaseId(orderId, reason);
      if id in cases {
        return Ok(cases[id]);
      }
      cases := cases[id := Case(id, orderId, reason, certificateId, OpenState, 1, now, now)];
      events := events[id := []];
      AppendEvent(id, OpeningEvent(id, now));
      assert [] + [OpeningEvent(id, now)] == [OpeningEvent(id, now)];
      assert events == old(events)[id := [OpeningEvent(id, now)]];
      return Ok(cases[id]);
    }

    method AppendEvent(id: CaseId, e: CaseEvent)
      requires id in events
      modifies this`events
      ensures events == old(events)[id := old(events)[id] + [e]]
    {
      events := events[id := events[id] + [e]];
    }

    /** Consume inside the transaction; a refusal leaves the registry as it was. */
    method UseAuthority(use: Option<AuthorityUse>, actor: string, now: int) returns (refusal: Option<Refusal>)
      modifies registry`used
      ensures refusal == UseDenial(old(registry.State()), use, actor, now)
      ensures registry.State() == if refusal.Some? then old(registry.State()) else AfterUse(old(registry.State()), use)
    {
      if use.None? {
        return None;
      }
      var u, saved := use.value, registry.used;
      var human := registry.VerifyAndConsume(u.cap, u.action, u.subject, u.version, now);
      if human.Err? {
        return Some(Denied(human.error));
      }
      if human.value != actor {
        registry.Rollback(saved);
        return Some(ActorMismatch);
      }
      return None;
    }

    method AdvanceCase(id: CaseId, expected: int, path: seq<CaseState>, actor: string, refs: seq<string>,
                       metadata: string, use: Option<AuthorityUse>, now: int) returns (r: Result<Case, Refusal>)
      requires cases.Keys <= events.Keys
      modifies this, registry`used
      ensures (State(), r) == Advance(old(State()), id, expected, path, actor, refs, metadata, use, now)
    {
      hide FirstIllegal, Legal, UseDenial, AfterUse, HopEvents;
      if actor == "" {
        return Err(NoActor);
      }
      if id !in cases {
        return Err(UnknownCase);
      }
      var c := cases[id];
      if c.version != expected {
        return Err(VersionConflict(expected, c.version));
      }
      if path == [] {
        return Ok(c);
      }
      var savedEvents, savedUsed := events, registry.used;
      var denied := UseAuthority(use, actor, now);
      if denied.Some? {
        return Err(denied.value);
      }
      var state, version := c.state, c.version;
      NoHopYet(c, path, actor, refs, metadata, now);
      assert path[0..] == path && savedEvents[id] + HopEvents(c, path, 0, actor, refs, metadata, now) == savedEvents[id];
      for i := 0 to |path|
        invariant cases == old(cases) && registry.State() == AfterUse(old(registry.State()), use)
        invariant state == StateAt(c.state, path, i) && version == c.version + i
        invariant FirstIllegal(c.state, path) == FirstIllegal(state, path[i..])
        invariant events == savedEvents[id := savedEvents[id] + HopEvents(c, path, i, actor, refs, metadata, now)]
      {
        var target := path[i];
        NextHop(state, path, i);
        if target !in Legal(state) {
          events := savedEvents;
          registry.Rollback(savedUsed);
          return Err(IllegalTransition(state, target));
        }
        version := version + 1;
        AppendEvent(id, CaseEvent(c.caseId, version, state, target, actor, refs, now,
                                  if i == |path| - 1 then metadata else NO_METADATA));
        HopEventsGrow(c, path, i, actor, refs, metadata, now);
        assert savedEvents[id] + HopEvents(c, path, i + 1, actor, refs, metadata, now)
            == savedEvents[id] + HopEvents(c, path, i, actor, refs, metadata, now) + [events[id][|events[id]| - 1]];
        state := target;
      }
      AllHopsLegal(state, path);
      var moved := c.(state := state, version := version, updatedAt := now);
      cases := cases[id := moved];
      return Ok(moved);
    }
  }

  lemma NextHop(state: CaseState, path: seq<CaseState>, i: nat)
    requires i < |path|
    ensures FirstIllegal(state, path[i..])
         == if path[i] !in Legal(state) then Some(IllegalTransition(state, path[i])) else FirstIllegal(path[i], path[i + 1..])
  {
    assert path[i..][1..] == path[i + 1..];
  }

  lemma AllHopsLegal(state: CaseState, path: seq<CaseState>)
    ensures FirstIllegal(state, path[|path|..]).None?
  {
  }

  lemma NoHopYet(c: Case, path: seq<CaseState>, actor: string, refs: seq<string>, metadata: string, now: int)
    ensures HopEvents(c, path, 0, actor, refs, metadata, now) == []
  {
  }

  lemma HopEventsGrow(c: Case, path: seq<CaseState>, i: nat, actor: string, refs: seq<string>, metadata: string, now: int)
    requires i < |path|
    ensures HopEvents(c, path, i + 1, actor, refs, metadata, now)
         == HopEvents(c, path, i, actor, refs, metadata, now) + [HopEvent(c, path, i, actor, refs, metadata, now)]
  {
  }

  // ------------------------------------------------------------ what every run keeps

  /** The state a history leads to, if it starts with the opening event and follows declared edges only. */
  function Replay(events: seq<CaseEvent>): Option<CaseState> {
    if events == [] then None
    else
      var last := events[|events| - 1];
      if |events| == 1 then
        if last.fromState.OpenState? && last.toState.OpenState? then Some(OpenState) else None
      else
        var before := Replay(events[..|events| - 1]);
        if before == Some(last.fromState) && last.toState in Legal(last.fromState) then Some(last.toState) else None
  }

  ghost predicate Numbered(events: seq<CaseEvent>, id: CaseId) {
    forall i :: 0 <= i < |events| ==> events[i].seqNo == i + 1 && events[i].caseId == id
  }

  /** The stored row is the projection of its history. */
  ghost predicate Projects(c: Case, events: seq<CaseEvent>, id: CaseId) {
    && c.caseId == id && id == CaseId(c.orderId, c.reason)
    && c.version == |events| >= 1
    && Numbered(events, id)
    && Replay(events) == Some(c.state)
  }

  ghost predicate ValidWorld(w: World) {
    && w.cases.Keys == w.events.Keys
    && forall id :: id in w.cases ==> Projects(w.cases[id], w.events[id], id)
  }

  lemma OpenKeeps(w: World, orderId: string, reason: Reason, certificateId: string, now: int)
    requires ValidWorld(w)
    ensures ValidWorld(OpenCase(w, orderId, reason, certificateId, now).0)
  {
    var v := OpenCase(w, orderId, reason, certificateId, now).0;
    forall id | id in v.cases
      ensures Projects(v.cases[id], v.events[id], id)
    {
      if id in w.cases {
        assert Projects(w.cases[id], w.events[id], id);
      }
    }
  }

  lemma HopsReplay(events: seq<CaseEvent>, c: Case, path: seq<CaseState>, n: nat, actor: string, refs: seq<string>,
                   metadata: string, now: int)
    requires n <= |path| && FirstIllegal(c.state, path).None? && Projects(c, events, c.caseId)
    ensures Replay(events + HopEvents(c, path, n, actor, refs, metadata, now)) == Some(StateAt(c.state, path, n))
    ensures Numbered(events + HopEvents(c, path, n, actor, refs, metadata, now), c.caseId)
    decreases n
  {
    if n == 0 {
      assert events + HopEvents(c, path, 0, actor, refs, metadata, now) == events;
    } else {
      HopsReplay(events, c, path, n - 1, actor, refs, metadata, now);
      HopEventsGrow(c, path, n - 1, actor, refs, metadata, now);
      var before := events + HopEvents(c, path, n - 1, actor, refs, metadata, now);
      var after := events + HopEvents(c, path, n, actor, refs, metadata, now);
      assert after == before + [HopEvent(c, path, n - 1, actor, refs, metadata, now)];
      assert after[..|after| - 1] == before;
      LegalHop(c.state, path, n - 1);
    }
  }

  lemma {:induction false} LegalHop(start: CaseState, path: seq<CaseState>, i: nat)
    requires i < |path| && FirstIllegal(start, path).None?
    ensures path[i] in Legal(StateAt(start, path, i))
    decreases i
  {
    if i > 0 {
      LegalHop(path[0], path[1..], i - 1);
      assert StateAt(path[0], path[1..], i - 1) == StateAt(start, path, i);
    }
  }

  lemma AdvanceKeeps(w: World, id: CaseId, expected: int, path: seq<CaseState>, actor: string, refs: seq<string>,
                     metadata: string, use: Option<AuthorityUse>, now: int)
    requires ValidWorld(w)
    ensures ValidWorld(Advance(w, id, expected, path, actor, refs, metadata, use, now).0)
  {
    hide UseDenial, FirstIllegal, Replay, Numbered;
    var v := Advance(w, id, expected, path, actor, refs, metadata, use, now).0;
    if v != w {
      assert Projects(w.cases[id], w.events[id], id);
      HopsReplay(w.events[id], w.cases[id], path, |path|, actor, refs, metadata, now);
    }
    forall x | x in v.cases
      ensures Projects(v.cases[x], v.events[x], x)
    {
      if x != id {
        assert Projects(w.cases[x], w.events[x], x);
      }
    }
  }

  datatype Op =
    | Opening(orderId: string, reason: Reason, certificateId: string, at: int)
    | Advancing(id: CaseId, expected: int, path: seq<CaseState>, actor: string, refs: seq<string>, metadata: string,
                use: Option<AuthorityUse>, at: int)
    | Granting(grant: RegistryOp)

  /** One transaction of the shared database, by any client. */
  ghost function Step(w: World, op: Op): (World, Option<Result<Case, Refusal>>)
    requires ValidWorld(w)
  {
    match op
    case Opening(orderId, reason, certificateId, now) =>
      var r := OpenCase(w, orderId, reason, certificateId, now);
      (r.0, Some(r.1))
    case Advancing(id, expected, path, actor, refs, metadata, use, now) =>
      var r := Advance(w, id, expected, path, actor, refs, metadata, use, now);
      (r.0, Some(r.1))
    case Granting(grant) => (w.(registry := RegistryStep(w.registry, grant)), None)
  }

  lemma StepKeeps(w: World, op: Op)
    requires ValidWorld(w)
    ensures ValidWorld(Step(w, op).0)
  {
    hide OpenCase, Advance, ValidWorld;
    match op
    case Opening(orderId, reason, certificateId, now) => OpenKeeps(w, orderId, reason, certificateId, now);
    case Advancing(id, expected, path, actor, refs, metadata, use, now) =>
      AdvanceKeeps(w, id, expected, path, actor, refs, metadata, use, now);
    case Granting(grant) => GrantKeeps(w, grant);
  }

  lemma GrantKeeps(w: World, grant: RegistryOp)
    requires ValidWorld(w)
    ensures ValidWorld(w.(registry := RegistryStep(w.registry, grant)))
  {
  }

  /** Any interleaving of any number of clients is some sequence of transactions. */
  ghost function Run(w: World, ops: seq<Op>): (v: World)
    requires ValidWorld(w)
    ensures ValidWorld(v)
  {
    if ops == [] then w
    else
      var before := Run(w, ops[..|ops| - 1]);
      StepKeeps(before, ops[|ops| - 1]);
      Step(before, ops[|ops| - 1]).0
  }

  /** Histories only grow, and versions with them; a case never disappears or changes its subject or certificate. */
  ghost predicate Extends(v: World, w: World) {
    forall id :: id in w.cases && id in w.events ==>
      && id in v.cases && id in v.events && w.events[id] <= v.events[id]
      && w.cases[id].version <= v.cases[id].version
      && v.cases[id].certificateId == w.cases[id].certificateId
  }

  lemma AdvanceExtends(w: World, id: CaseId, expected: int, path: seq<CaseState>, actor: string, refs: seq<string>,
                       metadata: string, use: Option<AuthorityUse>, now: int)
    requires w.cases.Keys <= w.events.Keys
    ensures Extends(Advance(w, id, expected, path, actor, refs, metadata, use, now).0, w)
    ensures w.registry.used.Keys <= Advance(w, id, expected, path, actor, refs, metadata, use, now).0.registry.used.Keys
  {
    hide FirstIllegal, UseDenial, HopEvents;
  }

  lemma OpenExtends(w: World, orderId: string, reason: Reason, certificateId: string, now: int)
    requires w.cases.Keys == w.events.Keys
    ensures Extends(OpenCase(w, orderId, reason, certificateId, now).0, w)
  {
  }

  lemma StepExtends(w: World, op: Op)
    requires ValidWorld(w)
    ensures Extends(Step(w, op).0, w)
    ensures w.registry.used.Keys <= Step(w, op).0.registry.used.Keys
  {
    hide Advance, OpenCase, Projects;
    match op
    case Opening(orderId, reason, certificateId, now) =>
      OpenExtends(w, orderId, reason, certificateId, now);
      OpenKeepsRegistry(w, orderId, reason, certificateId, now);
    case Advancing(id, expected, path, actor, refs, metadata, use, now) =>
      AdvanceExtends(w, id, expected, path, actor, refs, metadata, use, now);
    case Granting(grant) =>
  }

  lemma OpenKeepsRegistry(w: World, orderId: string, reason: Reason, certificateId: string, now: int)
    ensures OpenCase(w, orderId, reason, certificateId, now).0.registry == w.registry
  {
  }

  lemma {:induction false} RunExtends(w: World, ops: seq<Op>)
    requires ValidWorld(w)
    ensures Extends(Run(w, ops), w)
    ensures w.registry.used.Keys <= Run(w, ops).registry.used.Keys
  {
    hide Step, ValidWorld;
    if ops != [] {
      RunExtends(w, ops[..|ops| - 1]);
      StepExtends(Run(w, ops[..|ops| - 1]), ops[|ops| - 1]);
    }
  }

  // ------------------------------------------------------------ main results

  /** From the empty store, every case is at every moment the replay of a numbered history along declared edges. */
  lemma EveryRunProjects(registry: RegistryState, ops: seq<Op>, id: CaseId)
    requires ValidWorld(World(map[], map[], registry)) && id in Run(World(map[], map[], registry), ops).cases
    ensures var w := Run(World(map[], map[], registry), ops);
            && id in w.events && |w.events[id]| == w.cases[id].version
            && (forall i :: 0 <= i < |w.events[id]| ==> w.events[id][i].seqNo == i + 1)
            && w.events[id][0].fromState == w.events[id][0].toState == OpenState
            && (forall i :: 0 < i < |w.events[id]| ==>
                  && w.events[id][i].fromState == w.events[id][i - 1].toState
                  && w.events[id][i].toState in Legal(w.events[id][i].fromState))
            && w.cases[id].state == w.events[id][|w.events[id]| - 1].toState
  {
    hide Run;
    var w := Run(World(map[], map[], registry), ops);
    assert Projects(w.cases[id], w.events[id], id);
    ReplayChains(w.events[id]);
  }

  lemma {:induction false} ReplayChains(events: seq<CaseEvent>)
    requires Replay(events).Some?
    ensures events != [] && events[0].fromState == events[0].toState == OpenState
    ensures forall i :: 0 < i < |events| ==>
              events[i].fromState == events[i - 1].toState && events[i].toState in Legal(events[i].fromState)
    ensures Replay(events) == Some(events[|events| - 1].toState)
  {
    if |events| > 1 {
      var init := events[..|events| - 1];
      ReplayChains(init);
      forall i | 0 < i < |events|
        ensures events[i].fromState == events[i - 1].toState && events[i].toState in Legal(events[i].fromState)
      {
        if i < |init| {
          assert events[i] == init[i] && events[i - 1] == init[i - 1];
        }
      }
    }
  }

  lemma TerminalStep(w: World, op: Op, id: CaseId)
    requires ValidWorld(w) && id in w.cases && Terminal(w.cases[id].state)
    ensures var v := Step(w, op).0;
            id in v.cases && v.cases[id] == w.cases[id] && v.events[id] == w.events[id]
  {
    hide UseDenial, Replay;
  }

  /** A resolved or written-off case is never touched again. */
  lemma {:induction false} TerminalAbsorbs(w: World, ops: seq<Op>, id: CaseId)
    requires ValidWorld(w) && id in w.cases && Terminal(w.cases[id].state)
    ensures id in Run(w, ops).cases && Run(w, ops).cases[id] == w.cases[id] && Run(w, ops).events[id] == w.events[id]
  {
    hide Step, Terminal;
    if ops != [] {
      TerminalAbsorbs(w, ops[..|ops| - 1], id);
      TerminalStep(Run(w, ops[..|ops| - 1]), ops[|ops| - 1], id);
    }
  }

  /** A refusal leaves cases, histories and consumed capabilities alone; so does an empty path or opening again. */
  lemma RefusalChangesNothing(w: World, op: Op)
    requires ValidWorld(w)
    ensures Step(w, op).1.Some? && Step(w, op).1.value.Err? ==> Step(w, op).0 == w
    ensures op.Advancing? && op.path == [] ==> Step(w, op).0 == w
    ensures op.Opening? && CaseId(op.orderId, op.reason) in w.cases ==> Step(w, op).0 == w
  {
    hide FirstIllegal, UseDenial;
  }

  lemma {:induction false} RunSplit(w: World, first: seq<Op>, second: seq<Op>)
    requires ValidWorld(w)
    ensures Run(w, first + second) == Run(Run(w, first), second)
  {
    hide Step, ValidWorld;
    if second == [] {
      assert first + second == first;
    } else {
      var rest := second[..|second| - 1];
      assert (first + second)[..|first + second| - 1] == first + rest;
      RunSplit(w, first, rest);
    }
  }

  /** The operation writes: it succeeds, at this version of this case, with something to do. */
  ghost predicate Wins(w: World, op: Op, id: CaseId, version: int)
    requires ValidWorld(w)
  {
    op.Advancing? && op.id == id && op.expected == version && op.path != [] && Step(w, op).1.value.Ok?
  }

  lemma WinnerMovesVersion(w: World, op: Op, id: CaseId, version: int)
    requires ValidWorld(w) && Wins(w, op, id, version)
    ensures id in w.cases && w.cases[id].version == version
    ensures id in Step(w, op).0.cases && Step(w, op).0.cases[id].version > version
    ensures op.use.Some? ==> op.use.value.cap.nonce in Step(w, op).0.registry.used
    ensures op.use.Some? ==> op.use.value.cap.nonce !in w.registry.used && op.use.value.cap.actorId == op.actor
  {
    hide FirstIllegal, HopEvents;
  }

  /** Of any number of writers that read one version, at most one wins, whatever runs between them. */
  lemma OneWinner(w: World, before: seq<Op>, one: Op, between: seq<Op>, two: Op, id: CaseId, version: int)
    requires ValidWorld(w)
    requires Wins(Run(w, before), one, id, version)
    ensures !Wins(Run(w, before + [one] + between), two, id, version)
  {
    hide Step, ValidWorld, Wins;
    var start := Run(w, before);
    WinnerMovesVersion(start, one, id, version);
    assert (before + [one])[..|before|] == before;
    var moved := Run(w, before + [one]);
    assert moved == Step(start, one).0;
    RunSplit(w, before + [one], between);
    RunExtends(moved, between);
    var now := Run(w, before + [one] + between);
    KeysMatch(moved);
    if Wins(now, two, id, version) {
      WinnerMovesVersion(now, two, id, version);
    }
  }

  lemma KeysMatch(w: World)
    requires ValidWorld(w)
    ensures w.cases.Keys == w.events.Keys
  {
  }

  /** A capability that authorised one write authorises no later one, for any case. */
  lemma AuthorityUsedOnce(w: World, one: Op, between: seq<Op>, two: Op, id: CaseId, version: int, id2: CaseId, version2: int)
    requires ValidWorld(w) && Wins(w, one, id, version) && one.use.Some?
    requires two.Advancing? && two.use.Some? && two.use.value.cap.nonce == one.use.value.cap.nonce
    ensures !Wins(Run(w, [one] + between), two, id2, version2)
  {
    hide Step, ValidWorld, Wins;
    WinnerMovesVersion(w, one, id, version);
    assert [one][..0] == [];
    assert Run(w, [one]) == Step(w, one).0;
    RunSplit(w, [one], between);
    RunExtends(Run(w, [one]), between);
    var now := Run(w, [one] + between);
    if Wins(now, two, id2, version2) {
      WinnerMovesVersion(now, two, id2, version2);
    }
  }

  // ------------------------------------------------------------ routes through the declared graph

  function StateName(s: CaseState): string {
    match s
    case OpenState => "OPEN"
    case Assigned => "ASSIGNED"
    case Investigating => "INVESTIGATING"
    case EvidenceRequested => "EVIDENCE_REQUESTED"
    case EvidenceReceived => "EVIDENCE_RECEIVED"
    case Verified => "VERIFIED"
    case Resolved => "RESOLVED"
    case WrittenOff => "WRITTEN_OFF"
    case Escalated => "ESCALATED"
  }

  /** The out-edges in name order, the order the search tries them. */
  function NamedEdges(s: CaseState): (edges: seq<CaseState>)
    ensures Elems(edges) == Legal(s)
  {
    match s
    case OpenState => [Assigned, Escalated]
    case Assigned => [Escalated, Investigating]
    case Investigating => [Escalated, EvidenceRequested, Verified]
    case EvidenceRequested => [Escalated, EvidenceReceived]
    case EvidenceReceived => [Escalated, EvidenceRequested, Verified]
    case Verified => [Escalated, Resolved, WrittenOff]
    case Escalated => [Investigating, Resolved, WrittenOff]
    case Resolved => []
    case WrittenOff => []
  }

  const STATES: set<CaseState> := {OpenState, Assigned, Investigating, EvidenceRequested, EvidenceReceived, Verified,
                                   Resolved, WrittenOff, Escalated}

  function CaseGraph(): Routes.Graph<CaseState> { map s | s in STATES :: NamedEdges(s) }

  lemma EdgesAreNamed(s: CaseState, i: int, j: int)
    requires 0 <= i < j < |NamedEdges(s)|
    ensures Sorting.StringLe(StateName(NamedEdges(s)[i]), StateName(NamedEdges(s)[j]))
  {
  }

  lemma GraphIsTotal(s: CaseState)
    ensures s in CaseGraph() && forall t :: t in CaseGraph()[s] <==> t in Legal(s)
  {
    assert s in STATES;
    assert forall t :: t in NamedEdges(s) <==> t in Elems(NamedEdges(s));
  }

  /** The route the workbench walks: the shortest one that does not escalate on the way, if there is any. */
  method CaseRoute(start: CaseState, target: CaseState) returns (r: Result<seq<CaseState>, Refusal>)
    ensures r.Ok? ==> Routes.IsShortest(CaseGraph(), start, target, Escalated, r.value)
    ensures r.Err? ==> r.error == IllegalTransition(start, target)
    ensures r.Err? <==> forall route :: !Routes.IsRoute(CaseGraph(), start, target, Escalated, route)
  {
    hide CaseGraph, Routes.IsRoute, Legal;
    forall s, t | s in CaseGraph() && t in CaseGraph()[s]
      ensures t in CaseGraph()
    {
      GraphIsTotal(t);
    }
    GraphIsTotal(start);
    var found := Routes.PathTo(CaseGraph(), start, target, Escalated);
    match found
    case None => return Err(IllegalTransition(start, target));
    case Some(route) => return Ok(route);
  }

  lemma {:induction false} WalkIsLegal(start: CaseState, path: seq<CaseState>)
    requires Routes.IsWalk(CaseGraph(), start, path)
    ensures FirstIllegal(start, path).None?
    decreases |path|
  {
    hide Legal, CaseGraph;
    if path != [] {
      assert Routes.At(start, path, 0) == start;
      GraphIsTotal(start);
      GraphIsTotal(path[0]);
      forall i | 0 <= i < |path[1..]|
        ensures Routes.At(path[0], path[1..], i) in CaseGraph()
        ensures path[1..][i] in CaseGraph()[Routes.At(path[0], path[1..], i)]
      {
        assert Routes.At(path[0], path[1..], i) == Routes.At(start, path, i + 1);
      }
      WalkIsLegal(path[0], path[1..]);
    }
  }

  /** A computed route is always accepted at the current version and lands on its target. */
  lemma RouteIsAccepted(w: World, id: CaseId, target: CaseState, route: seq<CaseState>, actor: string, refs: seq<string>,
                        metadata: string, now: int)
    requires ValidWorld(w) && id in w.cases && actor != ""
    requires Routes.IsRoute(CaseGraph(), w.cases[id].state, target, Escalated, route)
    ensures var r := Advance(w, id, w.cases[id].version, route, actor, refs, metadata, None, now);
            r.1.Ok? && r.1.value.state == target && r.1.value.version == w.cases[id].version + |route|
  {
    hide CaseGraph, Projects, HopEvents;
    WalkIsLegal(w.cases[id].state, route);
  }
}
