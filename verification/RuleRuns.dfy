/** Rule runs from an empty database: the one import of replay corpora is a step among the others. */
module RuleRuns {
  import opened Prelude
  import opened Capabilities
  import opened Replay
  import opened Rules

  /** The parts no operation changes; `commit` is the digest an import capability is scoped to. */
  datatype Base = Base(forms: Forms, history: HistoryHash, dig: ReplayDigests, commit: map<string, Corpus> -> string)

  /** The tables: no runner and no corpora before the import. */
  datatype Database = Database(rules: World, corpora: Option<CorpusStore>)

  function Under(s: Base, c: CorpusStore): Setting { Setting(s.forms, c, s.history) }

  /** Both kinds of corpus, none of them empty, no case twice, every hash computed on the way in. */
  ghost predicate Importable(c: CorpusStore) {
    && (exists id :: id in c.corpora && c.corpora[id].kind.Confirmed?)
    && (exists id :: id in c.corpora && c.corpora[id].kind.Attack?)
    && (forall id :: id in c.corpora ==> id != "" && c.corpora[id].records != [] && Intact(c, id, c.corpora[id])
                                         && NoDup(CaseIds(OutcomesOf(c.corpora[id]))))
    && (forall i, j, x :: i in c.corpora && j in c.corpora && i != j && x in CaseIds(OutcomesOf(c.corpora[i]))
          ==> x !in CaseIds(OutcomesOf(c.corpora[j])))
  }

  datatype DatabaseOp =
    | Importing(runnerId: string, corpora: map<string, Corpus>, cap: Capability, now: int)
    | Working(op: RuleOp)

  /** One transaction: the capability is consumed only if no runner exists yet. */
  ghost function Import(s: Base, w: Database, runnerId: string, corpora: map<string, Corpus>, cap: Capability, now: int)
    : Database
  {
    var c, subject := CorpusStore(runnerId, corpora, s.dig), s.commit(corpora);
    if !Importable(c) || ConsumeDenial(w.rules.registry, cap, ImportReplay, subject, 1, now).Some? || w.corpora.Some? then w
    else Database(w.rules.(registry := Consumed(w.rules.registry, cap, ImportReplay, subject, 1)), Some(c))
  }

  /** A replay cannot be recorded before the import; nothing else reads the corpora. */
  ghost function DatabaseStep(s: Base, w: Database, op: DatabaseOp): Database {
    match op
    case Importing(runnerId, corpora, cap, now) => Import(s, w, runnerId, corpora, cap, now)
    case Working(op) =>
      if w.corpora.Some? then w.(rules := Step(Under(s, w.corpora.value), w.rules, op))
      else if op.Replaying? then w
      else w.(rules := Step(Under(s, CorpusStore("", map[], s.dig)), w.rules, op))
  }

  ghost function DatabaseRun(s: Base, w: Database, ops: seq<DatabaseOp>): Database {
    if ops == [] then w else DatabaseStep(s, DatabaseRun(s, w, ops[..|ops| - 1]), ops[|ops| - 1])
  }

  // ------------------------------------------------------------ what every run keeps

  /** Under the imported corpora the lifecycle holds; before the import it would hold under any. */
  ghost predicate DatabaseInv(s: Base, w: Database) {
    if w.corpora.Some? then StoreInv(Under(s, w.corpora.value), w.rules)
    else forall c: CorpusStore :: StoreInv(Under(s, c), w.rules)
  }

  lemma CorporaUnread(s: Base, w: World, op: RuleOp, c: CorpusStore, d: CorpusStore)
    requires !op.Replaying?
    ensures Step(Under(s, c), w, op) == Step(Under(s, d), w, op)
  {
    hide WellFormed, Transition, VerifyDenial, RegistryStep, Add;
  }

  lemma ImportKeeps(s: Base, w: Database, runnerId: string, corpora: map<string, Corpus>, cap: Capability, now: int)
    requires DatabaseInv(s, w)
    ensures DatabaseInv(s, Import(s, w, runnerId, corpora, cap, now))
  {
    hide StoreInv, Importable;
    var v := Import(s, w, runnerId, corpora, cap, now);
    if v != w {
      GrantKeeps(Under(s, v.corpora.value), w.rules, ConsumeOp(cap, ImportReplay, s.commit(corpora), 1, now));
    }
  }

  lemma DatabaseStepKeeps(s: Base, w: Database, op: DatabaseOp)
    requires DatabaseInv(s, w)
    ensures DatabaseInv(s, DatabaseStep(s, w, op))
  {
    hide StoreInv, Step, Import;
    match op
    case Importing(runnerId, corpora, cap, now) => ImportKeeps(s, w, runnerId, corpora, cap, now);
    case Working(op) =>
      if w.corpora.Some? {
        StepKeeps(Under(s, w.corpora.value), w.rules, op);
      } else if !op.Replaying? {
        forall c: CorpusStore
          ensures StoreInv(Under(s, c), Step(Under(s, CorpusStore("", map[], s.dig)), w.rules, op))
        {
          StepKeeps(Under(s, c), w.rules, op);
          CorporaUnread(s, w.rules, op, c, CorpusStore("", map[], s.dig));
        }
      }
  }

  lemma {:induction false} DatabaseRunKeeps(s: Base, w: Database, ops: seq<DatabaseOp>)
    requires DatabaseInv(s, w)
    ensures DatabaseInv(s, DatabaseRun(s, w, ops))
  {
    hide DatabaseInv, DatabaseStep;
    if ops != [] {
      DatabaseRunKeeps(s, w, ops[..|ops| - 1]);
      DatabaseStepKeeps(s, DatabaseRun(s, w, ops[..|ops| - 1]), ops[|ops| - 1]);
    }
  }

  /** Rows are only appended, the registry stays the same one, and imported corpora never change. */
  ghost predicate Grows(v: Database, w: Database) {
    Extends(v.rules, w.rules) && (w.corpora.Some? ==> v.corpora == w.corpora)
  }

  lemma DatabaseStepGrows(s: Base, w: Database, op: DatabaseOp)
    ensures Grows(DatabaseStep(s, w, op), w)
  {
    hide Step, Importable, ConsumeDenial;
    if op.Working? {
      StepExtends(Under(s, if w.corpora.Some? then w.corpora.value else CorpusStore("", map[], s.dig)), w.rules, op.op);
    }
  }

  /** Whatever happens between: a second import changes nothing, and no row and no corpus is ever taken back. */
  lemma {:induction false} DatabaseRunGrows(s: Base, w: Database, ops: seq<DatabaseOp>)
    ensures Grows(DatabaseRun(s, w, ops), w)
  {
    hide DatabaseStep;
    if ops != [] {
      DatabaseRunGrows(s, w, ops[..|ops| - 1]);
      DatabaseStepGrows(s, DatabaseRun(s, w, ops[..|ops| - 1]), ops[|ops| - 1]);
    }
  }

  // ------------------------------------------------------------ main results

  /** From an empty database: an active rule earned it, by a clean replay of the corpora that were imported. */
  lemma ActiveRulesEarnedItAfterImport(s: Base, registry: RegistryState, ops: seq<DatabaseOp>, id: string, i: nat)
    requires var w := DatabaseRun(s, Database(World(map[], registry), None), ops).rules;
             id in w.rows && i < |w.rows[id]| && w.rows[id][i].proposal.status.Active?
    ensures var w := DatabaseRun(s, Database(World(map[], registry), None), ops);
            && w.corpora.Some? && i == 3
            && ActivatedProperly(Under(s, w.corpora.value), w.rules, id, w.rules.rows[id])
            && CleanReplay(Under(s, w.corpora.value), w.rules.rows[id][1], id)
  {
    hide DatabaseRun, ActivatedProperly, CleanReplay;
    var empty := Database(World(map[], registry), None);
    assert forall c: CorpusStore :: StoreInv(Under(s, c), empty.rules);
    DatabaseRunKeeps(s, empty, ops);
    var w := DatabaseRun(s, empty, ops);
    if w.corpora.Some? {
      ActiveRows(Under(s, w.corpora.value), w.rules, id, i);
    } else {
      NoCorporaNoActive(s, w, id, i);
    }
  }

  /** Before the import no rule is active. */
  lemma NoCorporaNoActive(s: Base, w: Database, id: string, i: nat)
    requires DatabaseInv(s, w) && w.corpora.None? && id in w.rules.rows && i < |w.rules.rows[id]|
    ensures !w.rules.rows[id][i].proposal.status.Active?
  {
    hide ActivatedProperly, StoreInv;
    if w.rules.rows[id][i].proposal.status.Active? {
      var none := CorpusStore("", map[], s.dig);
      ActiveRows(Under(s, none), w.rules, id, i);
    }
  }

  /** The receipt of an activation validates at once and after any later operations, imports among them. */
  lemma ReceiptsStayValidAfterImport(s: Base, w: Database, id: string, expected: int, cap: Capability, time: string, now: int,
                                     later: seq<DatabaseOp>)
    requires w.corpora.Some? && DatabaseInv(s, w)
    requires Authorised(Under(s, w.corpora.value), w.rules, id, expected, ActivationChange(time), cap, now).1.Ok?
    ensures var base := Under(s, w.corpora.value);
            var (v, done) := Authorised(base, w.rules, id, expected, ActivationChange(time), cap, now);
            Known(v, id) && done.value.ruleId == id && done.value.version == |v.rows[id]|
            && ValidateRefusal(base, DatabaseRun(s, w.(rules := v), later).rules, ReceiptFor(base, v, done.value)).None?
  {
    hide StoreInv, WellFormed, VerifyDenial, ConsumeDenial, DatabaseRun;
    var base := Under(s, w.corpora.value);
    var (v, done) := Authorised(base, w.rules, id, expected, ActivationChange(time), cap, now);
    AppendedVersion(base, w.rules, id, expected, ActivationChange(time), Some(cap), now);
    var n := |v.rows[id]|;
    assert v.rows[id][n - 1].proposal == done.value;
    DatabaseRunGrows(s, w.(rules := v), later);
    var after := DatabaseRun(s, w.(rules := v), later).rules;
    assert after.rows[id][..n] == v.rows[id];
    assert after.rows[id][n - 1] == v.rows[id][n - 1];
    assert v.rows[id][..n] == v.rows[id];
  }
}
