/** What the history of a case shows about how it was worked. */
module CaseHistory {
  import opened Prelude
  import opened Capabilities
  import opened Cases

  /** From where each state may be entered. */
  function EnteredFrom(t: CaseState): set<CaseState> {
    match t
    case OpenState => {}
    case Assigned => {OpenState}
    case Investigating => {Assigned, Escalated}
    case EvidenceRequested => {Investigating, EvidenceReceived}
    case EvidenceReceived => {EvidenceRequested}
    case Verified => {Investigating, EvidenceReceived}
    case Resolved => {Verified, Escalated}
    case WrittenOff => {Verified, Escalated}
    case Escalated => {OpenState, Assigned, Investigating, EvidenceRequested, EvidenceReceived, Verified}
  }

  /** The edges leaving every state are the edges entering every state. */
  lemma EdgesBothWays(s: CaseState, t: CaseState)
    ensures t in Legal(s) <==> s in EnteredFrom(t)
  {
  }

  /** The two closing states are exactly those from which nothing can be entered. */
  lemma TerminalExactly(s: CaseState)
    ensures (s.Resolved? || s.WrittenOff?) <==> forall t :: s !in EnteredFrom(t)
    ensures Terminal(s) <==> s.Resolved? || s.WrittenOff?
  {
    match s
    case OpenState => assert s in EnteredFrom(Assigned);
    case Assigned => assert s in EnteredFrom(Escalated);
    case Investigating => assert s in EnteredFrom(Verified);
    case EvidenceRequested => assert s in EnteredFrom(EvidenceReceived);
    case EvidenceReceived => assert s in EnteredFrom(Verified);
    case Verified => assert s in EnteredFrom(Resolved);
    case Escalated => assert s in EnteredFrom(Resolved);
    case Resolved =>
    case WrittenOff =>
  }

  /** A numbered chain of declared steps from OPEN. */
  ghost predicate Chained(events: seq<CaseEvent>) {
    && events != [] && events[0].toState == OpenState
    && forall i :: 0 < i < |events| ==> events[i].fromState == events[i - 1].toState
                                        && events[i].fromState in EnteredFrom(events[i].toState)
  }

  ghost predicate NeverEscalated(events: seq<CaseEvent>, n: nat)
    requires n <= |events|
  {
    forall i :: 0 <= i < n ==> events[i].toState != Escalated
  }

  ghost predicate Entered(events: seq<CaseEvent>, i: int, s: CaseState) {
    0 < i < |events| && events[i].toState == s
  }

  /** Assigned to somebody and then investigated, by this point. */
  ghost predicate WasInvestigated(events: seq<CaseEvent>, n: nat) {
    exists a, b :: a < b <= n && Entered(events, a, Assigned) && Entered(events, b, Investigating)
  }

  ghost predicate WasVerified(events: seq<CaseEvent>, n: nat) {
    exists a, b, c :: a < b < c <= n && Entered(events, a, Assigned) && Entered(events, b, Investigating)
                      && Entered(events, c, Verified)
  }

  lemma {:induction false} WorkedSoFar(events: seq<CaseEvent>, n: nat)
    requires Chained(events) && n < |events| && NeverEscalated(events, n + 1)
    ensures var s := events[n].toState;
            && (s.Assigned? ==> Entered(events, n, Assigned))
            && (s.Investigating? || s.EvidenceRequested? || s.EvidenceReceived? ==> WasInvestigated(events, n))
            && (s.Verified? || Terminal(s) ==> WasVerified(events, n))
  {
    if n > 0 {
      WorkedSoFar(events, n - 1);
      var s, t := events[n - 1].toState, events[n].toState;
      assert events[n].fromState == s && s in EnteredFrom(t) && s != Escalated;
      if t.Investigating? {
        assert Entered(events, n - 1, Assigned) && Entered(events, n, Investigating);
      } else if t.Verified? {
        var a, b :| a < b <= n - 1 && Entered(events, a, Assigned) && Entered(events, b, Investigating);
        assert Entered(events, n, Verified);
      }
    }
  }

  lemma RunIsChained(registry: RegistryState, ops: seq<Op>, id: CaseId)
    requires ValidWorld(World(map[], map[], registry)) && id in Run(World(map[], map[], registry), ops).cases
    ensures id in Run(World(map[], map[], registry), ops).events && Chained(Run(World(map[], map[], registry), ops).events[id])
  {
    hide Run, Legal, EnteredFrom, ValidWorld;
    EveryRunProjects(registry, ops, id);
    var events := Run(World(map[], map[], registry), ops).events[id];
    EventsPositive(registry, ops, id);
    forall i | 0 < i < |events|
      ensures events[i].fromState in EnteredFrom(events[i].toState)
    {
      EdgesBothWays(events[i].fromState, events[i].toState);
    }
  }

  lemma EventsPositive(registry: RegistryState, ops: seq<Op>, id: CaseId)
    requires ValidWorld(World(map[], map[], registry)) && id in Run(World(map[], map[], registry), ops).cases
    ensures var w := Run(World(map[], map[], registry), ops); id in w.events && w.events[id] != []
  {
    hide Run;
    var w := Run(World(map[], map[], registry), ops);
    assert Projects(w.cases[id], w.events[id], id);
  }

  /** After any transactions: a closed case that nobody escalated was assigned, then investigated, then verified. */
  lemma ClosedMeansVerified(registry: RegistryState, ops: seq<Op>, id: CaseId)
    requires ValidWorld(World(map[], map[], registry)) && id in Run(World(map[], map[], registry), ops).cases
    requires Terminal(Run(World(map[], map[], registry), ops).cases[id].state)
    ensures var events := Run(World(map[], map[], registry), ops).events[id];
            NeverEscalated(events, |events|) ==> WasVerified(events, |events| - 1)
    ensures Run(World(map[], map[], registry), ops).cases[id].version >= 3
  {
    hide Run, ValidWorld, Chained, EnteredFrom, Legal, WasVerified, NeverEscalated;
    var w := Run(World(map[], map[], registry), ops);
    EveryRunProjects(registry, ops, id);
    RunIsChained(registry, ops, id);
    ClosesLate(w.events[id]);
    if NeverEscalated(w.events[id], |w.events[id]|) {
      WorkedSoFar(w.events[id], |w.events[id]| - 1);
    }
  }

  lemma ClosesLate(events: seq<CaseEvent>)
    requires Chained(events) && Terminal(events[|events| - 1].toState)
    ensures |events| >= 3
  {
  }

  // ------------------------------------------------------------ one write

  /** Every hop of the path is a declared edge, the first from the current state. */
  ghost predicate Walkable(s: CaseState, path: seq<CaseState>) {
    forall i :: 0 <= i < |path| ==> Before(s, path, i) in EnteredFrom(path[i])
  }

  function Before(s: CaseState, path: seq<CaseState>, i: nat): CaseState
    requires i < |path|
  {
    if i == 0 then s else path[i - 1]
  }

  lemma {:induction false} WalkableExactly(s: CaseState, path: seq<CaseState>)
    ensures FirstIllegal(s, path).None? <==> Walkable(s, path)
    decreases path
  {
    hide Legal, EnteredFrom;
    if path != [] {
      EdgesBothWays(s, path[0]);
      WalkableExactly(path[0], path[1..]);
      var rest := path[1..];
      assert Before(s, path, 0) == s;
      forall i | 0 <= i < |rest|
        ensures Before(path[0], rest, i) in EnteredFrom(rest[i]) <==> Before(s, path, i + 1) in EnteredFrom(path[i + 1])
      {
        assert rest[i] == path[i + 1];
      }
      if Walkable(path[0], rest) && s in EnteredFrom(path[0]) {
        forall i | 0 <= i < |path|
          ensures Before(s, path, i) in EnteredFrom(path[i])
        {
          if i > 0 {
            assert Before(path[0], rest, i - 1) in EnteredFrom(rest[i - 1]);
          }
        }
      }
    }
  }

  /** Unexpired, unused, issued to this very actor, for exactly this action, subject and version. */
  ghost predicate GoodUse(s: RegistryState, u: AuthorityUse, actor: string, now: int) {
    && u.cap in s.issued && u.cap.registryId == s.registryId && u.cap.actorId == actor
    && u.cap.action == u.action && u.cap.subjectId == u.subject && u.cap.subjectVersion == u.version
    && now < u.cap.expiresAt && u.cap.nonce !in s.used
    && actor in s.analysts && s.analysts[actor].active && u.action in s.analysts[actor].actions
  }

  /** A write goes through exactly for a named actor at the current version, on a walkable path, under a good capability if any. */
  lemma AdvanceExactly(w: World, id: CaseId, expected: int, path: seq<CaseState>, actor: string, refs: seq<string>,
                       metadata: string, use: Option<AuthorityUse>, now: int)
    requires w.cases.Keys <= w.events.Keys
    ensures Advance(w, id, expected, path, actor, refs, metadata, use, now).1.Ok?
       <==> && actor != "" && id in w.cases && w.cases[id].version == expected
            && (path != [] ==> Walkable(w.cases[id].state, path) && (use.Some? ==> GoodUse(w.registry, use.value, actor, now)))
  {
    hide FirstIllegal, Walkable, HopEvents;
    if id in w.cases {
      WalkableExactly(w.cases[id].state, path);
    }
  }

  /** What it writes: one event a hop under the actor's name, the data of the call on the last, the state and version after it. */
  lemma AdvanceWrites(w: World, id: CaseId, expected: int, path: seq<CaseState>, actor: string, refs: seq<string>,
                      metadata: string, use: Option<AuthorityUse>, now: int)
    requires w.cases.Keys <= w.events.Keys && path != []
    requires Advance(w, id, expected, path, actor, refs, metadata, use, now).1.Ok?
    ensures id in w.cases
    ensures var v, c, done := Advance(w, id, expected, path, actor, refs, metadata, use, now).0, w.cases[id],
                                Advance(w, id, expected, path, actor, refs, metadata, use, now).1.value;
            && v.cases.Keys == w.cases.Keys && v.events.Keys == w.events.Keys && v.cases[id] == done
            && (forall x :: x in w.cases && x != id ==> v.cases[x] == w.cases[x] && v.events[x] == w.events[x])
            && done.state == path[|path| - 1] && done.version == expected + |path| && done.updatedAt == now
            && done.openedAt == c.openedAt && done.certificateId == c.certificateId
            && |v.events[id]| == |w.events[id]| + |path| && w.events[id] <= v.events[id]
            && (forall i :: 0 <= i < |path| ==>
                  var e := v.events[id][|w.events[id]| + i];
                  && e.caseId == c.caseId && e.seqNo == expected + 1 + i && e.toState == path[i]
                  && e.fromState == (if i == 0 then c.state else path[i - 1])
                  && e.actor == actor && e.evidenceRefs == refs && e.at == now
                  && e.metadata == if i == |path| - 1 then metadata else "{}")
            && (use.Some? ==> use.value.cap.nonce in v.registry.used
                              && v.registry.used[use.value.cap.nonce]
                                 == Use(actor, use.value.action, use.value.subject, use.value.version))
            && (use.None? ==> v.registry == w.registry)
  {
    hide FirstIllegal, VerifyDenial;
  }

  /** Opening: a named subject and a declared reason get one case, open at version one with one event, or the case they have. */
  lemma OpenExactly(w: World, orderId: string, reason: Reason, certificateId: string, now: int)
    ensures var (v, r) := OpenCase(w, orderId, reason, certificateId, now);
            var id := CaseId(orderId, reason);
            && (r.Ok? <==> orderId != "" && !reason.Undeclared?)
            && (r.Err? || id in w.cases ==> v == w)
            && (r.Ok? && id in w.cases ==> r.value == w.cases[id])
            && (r.Ok? && id !in w.cases ==>
                  && v.cases.Keys == w.cases.Keys + {id} && v.cases[id] == r.value && v.registry == w.registry
                  && r.value.orderId == orderId && r.value.reason == reason && r.value.certificateId == certificateId
                  && r.value.state == OpenState && r.value.version == 1 && r.value.openedAt == r.value.updatedAt == now
                  && id in v.events && |v.events[id]| == 1 && v.events[id][0].at == now
                  && v.events[id][0].toState == OpenState && v.events[id][0].seqNo == 1
                  && forall x :: x in w.cases ==> v.cases[x] == w.cases[x])
  {
  }
}
