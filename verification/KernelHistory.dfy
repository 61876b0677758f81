/** How answers relate across time: currentness, replay, gate decisions and journal positions. */
module KernelHistory {
  import opened Wrappers
  import opened KernelFacts
  import opened KernelPlan
  import opened KernelInvariant
  import opened KernelSteps
  import opened KernelTheorems

  // Currentness ---------------------------------------------------------------------------

  /** A well-formed read request that names the verdict recorded at index `v`. */
  predicate ReadsVerdict(r: Request, records: seq<Fact>, v: nat) {
    && v < |records| && records[v].VerdictFact?
    && r.operation == VerdictRead && r.body.ReadBody?
    && r.body.readDigest == VerdictReadD(r.body.read)
    && r.body.read.verdictId == records[v].verdict.verdictId
    && r.body.read.verdictDigest == records[v].verdictDigest
  }

  /** The read repeats the five binding fields of the verdict. */
  predicate FieldsMatch(read: ReadExpectation, verdict: Verdict) {
    && read.taskBindingDigest == verdict.taskBindingDigest
    && read.subjectStateDigest == verdict.subjectStateDigest
    && read.gateCatalogDigest == verdict.gateCatalogDigest
    && read.authorityDigest == verdict.authorityDigest
    && read.ranexProvenanceDigest == verdict.ranexProvenanceDigest
  }

  /** The conditions a caller can meet: the same clean subject, runtime and live task. */
  predicate Fresh(records: seq<Fact>, verdict: Verdict, r: Request, env: Env)
    requires r.body.ReadBody?
  {
    && FieldsMatch(r.body.read, verdict)
    && verdict.subjectStateDigest == SubjectD(r.body.readSubject) && r.body.readSubject.isClean
    && verdict.ranexProvenanceDigest == Provenance(env)
    && exists t :: t in records && Hits(TaskNamed(verdict.taskBindingDigest), t) && t.task.expiresAt > env.now
  }

  function ReadAnswer(f: Fact, current: bool): Projection
    requires f.VerdictFact?
  {
    VerdictProjection(f.verdict.verdictId, f.verdictDigest, f.verdict.decision, current,
                      if current then Some(f.verdict.decision) else None, f.verdict, f.gateRows, f.subjectState)
  }

  lemma FirstIndexIs(records: seq<Fact>, i: nat)
    requires Valid(records) && i < |records|
    ensures FirstIndex(records, records[i]) == i
  {
    var first := FirstIndex(records, records[i]);
    if first < i { KeysDiffer(records, first, i); }
  }

  lemma RowIsWellFormed(records: seq<Fact>, gate: GateExpectation, q: Requirement)
    requires q.requiredOutcome == OutcomePass
    ensures var row := RowFor(records, gate, q);
      && row.requirement.requiredOutcome == OutcomePass
      && (row.result == RowBlocked <==> (row.evidenceDigest.None? || row.producerBindingDigest.None?))
  {
    hide Select;
  }

  lemma RowsAreWellFormed(records: seq<Fact>, v: nat)
    requires Valid(records) && v < |records| && records[v].VerdictFact?
    ensures RowsWellFormed(records[v].gateRows)
    ensures records[v].verdict.journalSequence == v && records[v].verdict.journalRootDigest == Chain(records[..v])
  {
    hide Valid, Hits, Select, SelectedEvidence, DecisionOf, CheckCount, Chain, RowFor;
    VerdictGroundedAt(records, v);
    var gate := GateOf(records[v]);
    forall row | row in records[v].gateRows
      ensures row.requirement.requiredOutcome == OutcomePass
      ensures row.result == RowBlocked <==> (row.evidenceDigest.None? || row.producerBindingDigest.None?)
    {
      var k :| 0 <= k < |records[v].gateRows| && records[v].gateRows[k] == row;
      assert gate.requirements[k] in gate.requirements;
      RowIsWellFormed(records[..v], gate, gate.requirements[k]);
    }
  }

  lemma VerdictIsKeyed(records: seq<Fact>, v: nat)
    requires Valid(records) && v < |records| && records[v].VerdictFact?
    ensures records[v].verdictDigest == VerdictD(records[v].verdict)
    ensures SubjectD(records[v].subjectState) == records[v].verdict.subjectStateDigest
  {
    hide Valid, Hits, Select, SelectedEvidence, DecisionOf, CheckCount, Chain, RowFor, RowsFor, KeyFresh, IdFresh;
    VerdictGroundedAt(records, v);
    KeyedAt(records, v);
  }

  /**
   Reading a recorded verdict always succeeds, returns the decision and rows it was recorded
   with, and calls it current exactly when it is the journal's last fact and the caller's
   subject, runtime and task are still those of the verdict. The chain test never decides.
   */
  lemma {:induction false} ReadDecidesCurrentness(records: seq<Fact>, v: nat, r: Request, env: Env)
    requires Valid(records) && ReadsVerdict(r, records, v)
    ensures PlanRead(records, r, env)
            == Answer(ReadAnswer(records[v], v == |records| - 1 && Fresh(records, records[v].verdict, r, env)))
  {
    hide Valid, Sound, RowsWellFormed, Chain, Keyed, Select, Grounds;
    var f := records[v];
    Lookup(records, VerdictWithId(f.verdict.verdictId), f) by { assert Hits(VerdictWithId(f.verdict.verdictId), f); }
    RowsAreWellFormed(records, v);
    VerdictIsKeyed(records, v);
    var named := TaskNamed(f.verdict.taskBindingDigest);
    AtMostOne(records, named);
    var tasks := Select(records, named);
    FirstIndexIs(records, v);
    if t :| t in records && Hits(named, t) && t.task.expiresAt > env.now { SelectFinds(records, named, t); }
    var current := IsCurrent(records, f, tasks, r.body.read, r.body.readSubject, env);
    assert current == (v == |records| - 1 && Fresh(records, f.verdict, r, env));
  }

  /** The read request a caller makes for a verdict it has just been given. */
  function ReadFor(verdict: Verdict, subject: RepositoryState, commit: string, schemaSet: Digest): Request {
    var read := ReadExpectation(verdict.verdictId, VerdictD(verdict), verdict.taskBindingDigest,
                                verdict.subjectStateDigest, verdict.gateCatalogDigest, verdict.authorityDigest,
                                verdict.ranexProvenanceDigest);
    var body := ReadBody(subject, read, VerdictReadD(read));
    Request("kogg.ranex/v2", commit, schemaSet, VerdictRead, 1, IdempotencyD(BodyD(body), VerdictRead, 1), BodyD(body),
            body)
  }

  /** The gate.evaluate request appended a fact. */
  predicate Commits(records: seq<Fact>, r: Request, env: Env) {
    |Handle(records, r, env).records| > |records|
  }

  lemma CommittedPlan(records: seq<Fact>, r: Request, env: Env)
    requires Valid(records) && Commits(records, r, env)
    ensures EnvelopeRefusal(r, env).None? && PlanOf(records, r, env).Commit?
    ensures InOrder(records, r, PlanOf(records, r, env))
    ensures Handle(records, r, env).records == records + [PlanOf(records, r, env).fact]
  {
    hide PlanOf, Valid;
    if EnvelopeRefusal(r, env).None? { PlanInOrder(records, r, env); }
  }

  /**
   Evaluate and read undo each other: right after `gate.evaluate` commits on a clean subject,
   reading its verdict in the same runtime and before the task expires is answered with
   `current`, the decision of the evaluation and its rows.
   */
  lemma {:induction false} EvaluateThenRead(records: seq<Fact>, r: Request, env: Env, later: Env) returns (fact: Fact)
    requires Valid(records) && r.operation == GateEvaluate && Commits(records, r, env)
    requires later.commit == env.commit && later.schemaSet == env.schemaSet && later.tree == env.tree
    ensures fact.VerdictFact? && r.body.GateBody?
    ensures Handle(records, r, env).records == records + [fact]
    ensures Handle(records, r, env).reply.Done? && Handle(records, r, env).reply.projection == ProjectionOf(fact)
    ensures fact.gateRows == RowsFor(records, r.body.gate) && fact.verdict.decision == DecisionOf(fact.gateRows)
    ensures r.body.gateSubject.isClean && TaskLives(records, r.body.gate.taskBindingDigest, later) ==>
              Handle(records + [fact], ReadFor(fact.verdict, r.body.gateSubject, env.commit, env.schemaSet), later)
              == Step(Done(ReadAnswer(fact, true), None), records + [fact])
  {
    hide Valid, Sound, RowsFor, SelectedEvidence, Chain, DecisionOf, PlanRead, PlanEvaluate, Fresh, GatePreflight,
      TaskLives, Keyed;
    CommittedPlan(records, r, env);
    EvaluateCommits(records, r, env);
    fact := PlanOf(records, r, env).fact;
    ValidAppend(records, fact);
    var read := ReadFor(fact.verdict, r.body.gateSubject, env.commit, env.schemaSet);
    VerdictIsKeyed(records + [fact], |records|);
    ReadDecidesCurrentness(records + [fact], |records|, read, later);
    if r.body.gateSubject.isClean && TaskLives(records, r.body.gate.taskBindingDigest, later) {
      StillFresh(records, fact, r, env, later);
    }
  }

  predicate TaskLives(records: seq<Fact>, task: Digest, env: Env) {
    exists t :: t in records && Hits(TaskNamed(task), t) && t.task.expiresAt > env.now
  }

  lemma StillFresh(records: seq<Fact>, fact: Fact, r: Request, env: Env, later: Env)
    requires r.body.GateBody? && fact == VerdictFactOf(records, r, RowsFor(records, r.body.gate))
    requires r.body.gate.subjectStateDigest == SubjectD(r.body.gateSubject)
    requires r.body.gate.ranexProvenanceDigest == Provenance(env) == Provenance(later)
    requires r.body.gateSubject.isClean && TaskLives(records, r.body.gate.taskBindingDigest, later)
    ensures Fresh(records + [fact], fact.verdict, ReadFor(fact.verdict, r.body.gateSubject, env.commit, env.schemaSet),
              later)
  {
    hide RowsFor, SelectedEvidence, Chain, DecisionOf;
    var t :| t in records && Hits(TaskNamed(r.body.gate.taskBindingDigest), t) && t.task.expiresAt > later.now;
    assert t in records + [fact];
  }

  /** What `gate.evaluate` commits. */
  lemma EvaluateCommits(records: seq<Fact>, r: Request, env: Env)
    requires PlanEvaluate(records, r, env).Commit?
    ensures r.body.GateBody? && GatePreflight(records, r, env).None?
    ensures PlanEvaluate(records, r, env).fact == VerdictFactOf(records, r, RowsFor(records, r.body.gate))
    ensures PlanEvaluate(records, r, env).projection == ProjectionOf(PlanEvaluate(records, r, env).fact)
    ensures r.body.gate.subjectStateDigest == SubjectD(r.body.gateSubject)
    ensures r.body.gate.ranexProvenanceDigest == Provenance(env)
  {
    hide Select, RowsFor, SelectedEvidence, Chain, CheckCount;
  }

  /** Once anything is appended after a verdict, no later read ever calls it current. */
  lemma {:induction false} StaleForever(inputs: seq<Input>, more: seq<Input>, v: nat, r: Request, env: Env)
    requires v < |Run(inputs)| && Run(inputs)[v].VerdictFact? && v < |Run(inputs)| - 1
    requires ReadsVerdict(r, Run(inputs + more), v)
    ensures EnvelopeRefusal(r, env).None? ==>
              Handle(Run(inputs + more), r, env).reply == Done(ReadAnswer(Run(inputs)[v], false), None)
  {
    hide PlanRead, Valid, Run;
    RunExtends(inputs, more);
    ReachableIsValid(inputs + more);
    ReadDecidesCurrentness(Run(inputs + more), v, r, env);
  }

  /** At most one verdict is current: two reads that both say so name the same fact. */
  lemma {:induction false} OneCurrentVerdict(records: seq<Fact>, v: nat, w: nat, r: Request, s: Request, env: Env)
    requires Valid(records) && ReadsVerdict(r, records, v) && ReadsVerdict(s, records, w)
    requires PlanRead(records, r, env) == Answer(ReadAnswer(records[v], true))
    requires PlanRead(records, s, env) == Answer(ReadAnswer(records[w], true))
    ensures v == w == |records| - 1
  {
    hide PlanRead, Valid, Fresh;
    ReadDecidesCurrentness(records, v, r, env);
    ReadDecidesCurrentness(records, w, s, env);
  }

  // Replay ----------------------------------------------------------------------------------

  /** A commit is answered with the fact's own projection and the position it was appended at. */
  lemma CommitAnswer(records: seq<Fact>, r: Request, env: Env)
    requires Valid(records) && Commits(records, r, env)
    ensures var after := Handle(records, r, env);
      && |after.records| == |records| + 1 && after.records[|records|].key == r.key
      && after.reply == Done(ProjectionOf(after.records[|records|]), Some(PositionAt(after.records, |records| + 1)))
  {
    hide PlanOf, Valid, ProjectionOf, Sound;
    CommittedPlan(records, r, env);
  }

  /**
   A request whose key is already recorded appends nothing, and if it succeeds it is answered
   with the recorded fact's projection and the position of that fact.
   */
  lemma {:induction false} ReplayAnswersFromRecord(records: seq<Fact>, i: nat, r: Request, env: Env)
    requires Valid(records) && i < |records| && records[i].key == r.key
    ensures Handle(records, r, env).records == records
    ensures var reply := Handle(records, r, env).reply;
            reply.Done? ==> reply == Done(ProjectionOf(records[i]), Some(PositionAt(records, i + 1)))
  {
    hide Valid, ProjectionOf, Grounds, IdFresh, Keyed, PlanOf, Select, Sound;
    if EnvelopeRefusal(r, env).None? {
      PlanInOrder(records, r, env);
      var plan := PlanOf(records, r, env);
      if plan.Commit? { SoundMeansNew(records, plan.fact); }
      AnswersAreUnrecorded(records, i, r, env);
      ReplayIndex(records, i, r, env);
    }
  }

  lemma SoundMeansNew(records: seq<Fact>, fact: Fact)
    requires Sound(records, fact)
    ensures KeyFresh(records, fact.key)
  {
  }

  lemma ReplayIndex(records: seq<Fact>, i: nat, r: Request, env: Env)
    requires Valid(records) && i < |records| && records[i].key == r.key
    requires PlanOf(records, r, env).Replay? ==> PlanOf(records, r, env).prior.key == r.key
    ensures PlanOf(records, r, env).Replay? ==>
              PlanOf(records, r, env).prior == records[i] && FirstIndex(records, records[i]) == i
  {
    hide PlanOf, Valid;
    var plan := PlanOf(records, r, env);
    if plan.Replay? {
      var j :| 0 <= j < |records| && records[j] == plan.prior;
      if j < i { KeysDiffer(records, j, i); } else if i < j { KeysDiffer(records, i, j); }
      FirstIndexIs(records, i);
    }
  }

  /** Only reads and inspections answer without the journal, and their keys are never recorded. */
  lemma AnswersAreUnrecorded(records: seq<Fact>, i: nat, r: Request, env: Env)
    requires Valid(records) && i < |records| && records[i].key == r.key
    requires EnvelopeRefusal(r, env).None?
    ensures !PlanOf(records, r, env).Answer?
  {
    hide Valid, PlanOf, KeyFresh, IdFresh;
    KeyedAt(records, i);
    assert OperationOf(records[i]) == r.operation;
    OnlyReadsAnswer(records, r, env);
  }

  lemma OnlyReadsAnswer(records: seq<Fact>, r: Request, env: Env)
    requires r.operation !in {VerdictRead, Handshake, Health, Qualify}
    ensures !PlanOf(records, r, env).Answer?
  {
    hide Select, RowsFor, Hits, CheckCount, Chain, SelectedEvidence, Precedes, PlanEvaluate, PlanRecovery,
      ReplayOrCommit, PlanEvidenceFact, PlanRead, IsCurrent, RowsWellFormed, SuiteWellFormed, ExecutionMatchesAuthority,
        WithBody;
    if r.operation == GateEvaluate { GateNeverAnswers(records, r, env); }
  }

  lemma GateNeverAnswers(records: seq<Fact>, r: Request, env: Env)
    ensures !PlanEvaluate(records, r, env).Answer?
  {
    hide Select, RowsFor, CheckCount, GateWellFormed, VerdictFactOf;
  }

  lemma RunAppend(inputs: seq<Input>, last: Input)
    ensures Run(inputs + [last]) == Handle(Run(inputs), last.request, last.env).records
  {
    hide Handle;
    assert (inputs + [last])[..|inputs|] == inputs;
  }

  /**
   Whatever was appended since, repeating a committed request never appends, and when it
   succeeds it is answered exactly as it was the first time.
   */
  lemma {:induction false} ReplayIsStable(inputs: seq<Input>, more: seq<Input>, r: Request, env: Env, later: Env)
    requires Commits(Run(inputs), r, env)
    ensures var journal := Run(inputs + [Input(r, env)] + more);
            var again := Handle(journal, r, later);
            again.records == journal && (again.reply.Done? ==> again.reply == Handle(Run(inputs), r, env).reply)
  {
    hide Valid, Handle, Run, ProjectionOf, Commits;
    var before := Run(inputs);
    var committed := inputs + [Input(r, env)];
    RunAppend(inputs, Input(r, env));
    ReachableIsValid(inputs);
    CommitAnswer(before, r, env);
    RunExtends(committed, more);
    ReachableIsValid(committed + more);
    var journal := Run(committed + more);
    ReplayAnswersFromRecord(journal, |before|, r, later);
    assert journal[..|before| + 1] == Run(committed)[..|before| + 1];
  }

  /** The guards a reconciliation request passes whatever the journal holds. */
  predicate ReconcileRequestOk(r: Request, env: Env) {
    && EnvelopeRefusal(r, env).None? && r.operation == OperationReconcile
    && r.body.ReconcileBody? && Reconcilable(r.body.reconcile.targetOperation)
    && r.body.reconcile.targetIdempotencyKey
       == IdempotencyD(r.body.reconcile.targetBodyDigest, r.body.reconcile.targetOperation,
                       VersionOf(r.body.reconcile.targetOperation))
    && r.body.reconcileDigest == ReconcileD(r.body.reconcile)
    && r.body.reconcile.ranexProvenanceDigest == Provenance(env)
  }

  lemma ReconcileGroundedAt(records: seq<Fact>, i: nat)
    requires Valid(records) && i < |records| && records[i].ReconcileFact?
    ensures records[i].bodyDigest.BodyD? && records[i].bodyDigest.body.ReconcileBody?
    ensures ReconcileGrounded(records[..i], records[i], records[i].bodyDigest.body.reconcile.targetIdempotencyKey)
    ensures Keyed(records[i])
  {
    hide Valid, ReconcileGrounded, Keyed;
    GroundedAt(records, i);
    KeyedAt(records, i);
  }

  lemma KeyFixesRequest(f: Fact, r: Request)
    requires Keyed(f) && f.ReconcileFact? && f.key == r.key
               && EnvelopeRefusal(r, Env(0, r.commit, r.schemaSet, "")).None?
    requires r.operation == OperationReconcile && r.body.ReconcileBody?
    ensures f.bodyDigest == r.bodyDigest && f.expectationDigest == r.body.reconcileDigest
  {
  }

  lemma PlansRecovery(records: seq<Fact>, r: Request, env: Env)
    requires Valid(records) && records != [] && ReconcileRequestOk(r, env)
    ensures var same := Select(records, AnyKey(r.body.reconcile.targetIdempotencyKey));
            |same| <= 1 && PlanOf(records, r, env) == PlanRecovery(records, ReconcileFactOf(r, same))
  {
    hide Valid, Select, PlanRecovery, WithBody, ReconcileFactOf;
    TargetMatches(records, r.body.reconcile);
  }

  /**
   Repeating a recorded reconciliation gives the recorded answer exactly when that answer was
   `acknowledged` or the target is still absent; otherwise it is an idempotency conflict. So
   `acknowledged` is stable forever and `absent` does not fence a later commit of its target.
   */
  lemma {:induction false} ReconcileReplay(records: seq<Fact>, i: nat, r: Request, env: Env)
    requires Valid(records) && i < |records| && records[i].ReconcileFact? && records[i].key == r.key
    requires ReconcileRequestOk(r, env)
    ensures var target := r.body.reconcile.targetIdempotencyKey;
            var stable := records[i].outcome.Acknowledged? || forall g :: g in records ==> g.key != target;
            Handle(records, r, env).reply
            == if stable then Done(ProjectionOf(records[i]), Some(PositionAt(records, i + 1)))
               else Refused(IdempotencyConflict)
  {
    hide Valid, Select, Keyed, ReconcileGrounded, PlanRecovery, PlanOf, ReconcileFactOf, Chain, ProjectionOf;
    var f := records[i];
    ReconcileGroundedAt(records, i);
    KeyFixesRequest(f, r);
    PlansRecovery(records, r, env);
    var same := Select(records, AnyKey(r.body.reconcile.targetIdempotencyKey));
    ReconcileRecomputes(records, i, r, same);
    RecoveryReplay(records, i, ReconcileFactOf(r, same));
    FirstIndexIs(records, i);
  }

  /** A recovery fact under a recorded key replays exactly when it is the recorded fact. */
  lemma RecoveryReplay(records: seq<Fact>, i: nat, fact: Fact)
    requires Valid(records) && i < |records| && records[i].key == fact.key
    requires OperationOf(records[i]) == OperationOf(fact)
    ensures PlanRecovery(records, fact)
            == if fact == records[i] then Replay(records[i], ProjectionOf(records[i])) else Refuse(IdempotencyConflict)
  {
    hide Valid, Select;
    Lookup(records, OfKey(OperationOf(fact), fact.key), records[i]);
  }

  /** The reconciliation recomputed later equals the recorded one exactly when it is stable. */
  lemma ReconcileRecomputes(records: seq<Fact>, i: nat, r: Request, same: seq<Fact>)
    requires Valid(records) && i < |records| && records[i].ReconcileFact? && records[i].key == r.key
    requires r.body.ReconcileBody? && records[i].bodyDigest == r.bodyDigest == BodyD(r.body)
    requires records[i].expectationDigest == r.body.reconcileDigest
    requires same == Select(records, AnyKey(r.body.reconcile.targetIdempotencyKey)) && |same| <= 1
    ensures ReconcileFactOf(r, same) == records[i]
            <==> records[i].outcome.Acknowledged? || forall g :: g in records ==>
                g.key != r.body.reconcile.targetIdempotencyKey
  {
    hide Valid, Keyed, Select;
    var f, target := records[i], r.body.reconcile.targetIdempotencyKey;
    ReconcileGroundedAt(records, i);
    if f.outcome.Acknowledged? {
      var g :| g in records[..i] && g.key == target && f.targetFactDigest == Some(FactD(g));
      assert g in records;
      Lookup(records, AnyKey(target), g);
    } else if g :| g in records && g.key == target {
      Lookup(records, AnyKey(target), g);
    } else {
      SelectNone(records, AnyKey(target));
    }
  }

  // The gate over growing journals ------------------------------------------------------------

  function GateDecision(records: seq<Fact>, gate: GateExpectation): Decision {
    DecisionOf(RowsFor(records, gate))
  }

  /** A requirement with two matching evidence facts stays blocked in every longer journal. */
  lemma TwoMatchesBlockForever(records: seq<Fact>, more: seq<Fact>, gate: GateExpectation, k: nat)
    requires k < |gate.requirements| && |Select(records, EvidenceFor(gate, gate.requirements[k]))| >= 2
    ensures RowsFor(records + more, gate)[k].result == RowBlocked
    ensures GateDecision(records + more, gate) == Blocked
  {
    SelectConcat(records, more, EvidenceFor(gate, gate.requirements[k]));
    var rows := RowsFor(records + more, gate);
    assert rows[k] == RowFor(records + more, gate, gate.requirements[k]);
    assert rows[k] in rows;
  }

  /** A decided row can later only stay as it is or become blocked. */
  lemma RowIsStable(records: seq<Fact>, more: seq<Fact>, gate: GateExpectation, q: Requirement)
    requires Valid(records + more)
    requires RowFor(records, gate, q).result != RowBlocked
    ensures RowFor(records + more, gate, q).result == RowBlocked
              || RowFor(records + more, gate, q) == RowFor(records, gate, q)
  {
    hide Valid, Select;
    assert (records + more)[..|records|] == records;
    ValidPrefix(records + more, |records|);
    SelectConcat(records, more, EvidenceFor(gate, q));
    RowIsDecided(records, gate, q);
    var v := Select(records, EvidenceFor(gate, q))[0];
    SelectConcat(records, more, ExecutionNamed(v.evidence.checkExecutionDigest));
    AtMostOne(records + more, ExecutionNamed(v.evidence.checkExecutionDigest));
  }

  /** For a fixed expectation, no extension turns pass into fail or fail into pass. */
  lemma {:induction false} GateNeverFlips(records: seq<Fact>, more: seq<Fact>, gate: GateExpectation)
    requires Valid(records + more)
    ensures GateDecision(records, gate) == Pass ==> GateDecision(records + more, gate) != Fail
    ensures GateDecision(records, gate) == Fail ==> GateDecision(records + more, gate) != Pass
  {
    hide Valid, RowFor;
    var before, after := RowsFor(records, gate), RowsFor(records + more, gate);
    forall k | 0 <= k < |before| && before[k].result != RowBlocked
      ensures after[k].result == RowBlocked || after[k] == before[k]
    {
      assert before[k] == RowFor(records, gate, gate.requirements[k]);
      assert after[k] == RowFor(records + more, gate, gate.requirements[k]);
      RowIsStable(records, more, gate, gate.requirements[k]);
    }
    LatticeOf(before);
    LatticeOf(after);
    FailHasRow(before);
    FailHasRow(after);
  }

  lemma FailHasRow(rows: seq<GateRow>)
    ensures DecisionOf(rows) == Fail ==>
              && (forall k :: 0 <= k < |rows| ==> rows[k].result != RowBlocked)
              && exists k :: 0 <= k < |rows| && rows[k].result == RowFail
  {
    if DecisionOf(rows) == Fail {
      LatticeOf(rows);
      var row :| row in rows && row.result == RowFail;
      var k :| 0 <= k < |rows| && rows[k] == row;
    }
  }

  // Positions -----------------------------------------------------------------------------------

  /** Equal chain roots are equal histories. */
  lemma {:induction false} ChainIsInjective(a: seq<Fact>, b: seq<Fact>)
    requires Chain(a) == Chain(b)
    ensures a == b
  {
    if a != [] && b != [] {
      ChainIsInjective(a[..|a| - 1], b[..|b| - 1]);
      assert a == a[..|a| - 1] + [a[|a| - 1]];
      assert b == b[..|b| - 1] + [b[|b| - 1]];
    }
  }

  /** A journal position pins down the whole journal up to it. */
  lemma PositionPinsHistory(a: seq<Fact>, b: seq<Fact>, m: nat, n: nat)
    requires m <= |a| && n <= |b| && PositionAt(a, m).rootDigest == PositionAt(b, n).rootDigest
    ensures m == n && a[..m] == b[..n]
  {
    ChainIsInjective(a[..m], b[..n]);
  }
}
