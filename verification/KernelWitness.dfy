/** Runs that reach what the theorems about passing verdicts and reconciliations speak of. */
module KernelWitness {
  import opened Wrappers
  import opened KernelFacts
  import opened KernelPlan
  import opened KernelInvariant
  import opened KernelSteps
  import opened KernelHistory

  const ENV := Env(0, "commit", External("schemas"), "tree")

  /** The envelope of a body. */
  function Enclose(operation: Operation, body: Body): Request {
    Request("kogg.ranex/v2", ENV.commit, ENV.schemaSet, operation, 1, IdempotencyD(BodyD(body), operation, 1),
            BodyD(body), body)
  }

  lemma Appends(records: seq<Fact>, operation: Operation, body: Body, fact: Fact)
    requires operation in {TaskBind, ProducerDispatch, SuiteFreeze, SuiteExecute, EvidenceAdmit, GateEvaluate,
                           OperationReconcile}
    requires PlanOf(records, Enclose(operation, body), ENV) == Commit(fact, ProjectionOf(fact))
    ensures Handle(records, Enclose(operation, body), ENV).records == records + [fact]
  {
    hide PlanOf;
  }

  /** A key no fact of the operation has is a new key. */
  lemma IsNew(records: seq<Fact>, fact: Fact)
    requires forall f :: f in records ==> OperationOf(f) != OperationOf(fact)
    ensures ReplayOrCommit(records, fact) == Commit(fact, ProjectionOf(fact))
  {
    SelectNone(records, OfKey(OperationOf(fact), fact.key));
  }

  // A pass ----------------------------------------------------------------------------------------------

  const CLEAN := RepositoryState("sha1", "commit", "tree", External("git"), External("worktree"), External("index"),
                                 External("content"), External("policy"), true)
  const TASK := TaskBinding("task", "run", 1, External("specification"), "approval", External("approval"),
                            External("authority"), "project", "repository", External("identity"), CLEAN, "worktree",
                            External("worktree"), CLEAN, External("profile"), 1)
  const PRODUCER := ProducerBinding("producer", "implementation", "adapter", External("adapter"), "provider", "model",
                                    "attempt", TaskD(TASK), External("authority"), External("profile"))
  const CHECK := CheckDefinition("check", "kind", External("executable"), External("arguments"),
                                 External("environment"), 1, External("output"), true)
  const REQUIREMENT := Requirement("claim", CheckD(CHECK), OutcomePass)
  const SUITE := FrozenSuite("suite", 1, SuiteManifestD([CHECK], GateCatalogD([REQUIREMENT]), "exact-commit",
                                                        TaskD(TASK), External("verification")),
                             TaskD(TASK), "exact-commit", [CHECK], GateCatalogD([REQUIREMENT]),
                             External("verification"))
  const PROOF := ProcessProof("operation", "process", "kind", "owner", Completed, ExitZero, 0, 0, 0, SuiteD(SUITE),
                              CheckD(CHECK), SubjectD(CLEAN), "verifier", External("verifier"), External("profile"),
                              External("result"))
  const EXECUTION := CheckExecution("execution", SuiteD(SUITE), CheckD(CHECK), CLEAN, "verifier", "verification",
                                    External("verifier"), "process", External("profile"), 0, 0, OutcomePass, ExitZero,
                                    External("result"), CleanupD(PROOF))
  const EVIDENCE := Evidence("evidence", "claim", SubjectD(CLEAN), TaskD(TASK), ProducerD(PRODUCER), SuiteD(SUITE),
                             CheckD(CHECK), ExecutionD(EXECUTION), External("result"), External("verification"),
                             Provenance(ENV), 0)
  const GATE := GateExpectation("verdict", TaskD(TASK), SuiteD(SUITE), SubjectD(CLEAN), GateCatalogD([REQUIREMENT]),
                                [REQUIREMENT], External("verification"), Provenance(ENV), 0)

  const BIND := Enclose(TaskBind, BindBody(TASK, TaskD(TASK)))
  const DISPATCH := Enclose(ProducerDispatch, ProducerBody(PRODUCER, ProducerD(PRODUCER)))
  const FREEZE := Enclose(SuiteFreeze, SuiteBody(SUITE, SuiteD(SUITE)))
  const EXECUTE := Enclose(SuiteExecute, ExecuteBody(EXECUTION, ExecutionD(EXECUTION),
                                                     ProcessAuthority(PROOF, CleanupD(PROOF))))
  const ADMIT := Enclose(EvidenceAdmit, EvidenceBody(CLEAN, EVIDENCE, EvidenceD(EVIDENCE)))
  const EVALUATE := Enclose(GateEvaluate, GateBody(CLEAN, GATE, GateEvaluationD(GATE)))

  const T := TaskFact(BIND.key, BIND.bodyDigest, TaskD(TASK), TASK)
  const P := ProducerFact(DISPATCH.key, DISPATCH.bodyDigest, ProducerD(PRODUCER), PRODUCER)
  const S := SuiteFact(FREEZE.key, FREEZE.bodyDigest, SuiteD(SUITE), SUITE)
  const X := ExecutionFact(EXECUTE.key, EXECUTE.bodyDigest, ExecutionD(EXECUTION), EXECUTION,
                           ProcessAuthority(PROOF, CleanupD(PROOF)))
  const V := EvidenceFact(ADMIT.key, ADMIT.bodyDigest, EvidenceD(EVIDENCE), EVIDENCE)

  lemma Binds()
    ensures Handle([], BIND, ENV).records == [T]
  {
    IsNew([], T);
    Appends([], TaskBind, BIND.body, T);
  }

  lemma Dispatches()
    requires Valid([T])
    ensures Handle([T], DISPATCH, ENV).records == [T, P]
  {
    hide Valid, Select;
    Lookup([T], TaskNamed(TaskD(TASK)), T);
    IsNew([T], P);
    Appends([T], ProducerDispatch, DISPATCH.body, P);
  }

  lemma Freezes()
    requires Valid([T, P])
    ensures Handle([T, P], FREEZE, ENV).records == [T, P, S]
  {
    hide Valid, Select;
    Lookup([T, P], TaskNamed(TaskD(TASK)), T);
    IsNew([T, P], S);
    Appends([T, P], SuiteFreeze, FREEZE.body, S);
  }

  lemma OneCheck()
    ensures CheckCount(SUITE.checks, CheckD(CHECK)) == 1
  {
    assert SUITE.checks[..0] == [];
  }

  /** What lets an execution commit: its suite and task, and no producer that is the verifier. */
  lemma ExecutionCommits(records: seq<Fact>, r: Request, t: Fact, s: Fact, fact: Fact)
    requires Valid(records) && r.body.ExecuteBody? && t in records && s in records
    requires Hits(SuiteNamed(r.body.execution.suiteDigest), s) && Hits(TaskNamed(s.suite.taskBindingDigest), t)
    requires CheckCount(s.suite.checks, r.body.execution.checkDefinitionDigest) == 1
    requires r.body.execution.executionProfileDigest == t.task.executionProfileDigest
    requires forall f :: f in records ==> !ProducedByVerifier(f, s.suite.taskBindingDigest, r.body.execution)
    requires r.body.execution.verifierRole == "verification"
               && r.body.execution.startedAt <= r.body.execution.finishedAt
    requires r.body.authority.cleanupProofDigest == CleanupD(r.body.authority.proof)
               && !r.body.authority.proof.exitClass.ExitNone?
    requires r.body.executionDigest == ExecutionD(r.body.execution)
               && ExecutionMatchesAuthority(r.body.execution, r.body.authority)
    requires forall f :: f in records ==> !f.ExecutionFact?
    requires fact == ExecutionFact(r.key, r.bodyDigest, ExecutionD(r.body.execution), r.body.execution,
                                   r.body.authority)
    ensures PlanExecute(records, r, ENV) == Commit(fact, ProjectionOf(fact))
  {
    hide Valid, Select, CheckCount, ProducedByVerifier, ExecutionMatchesAuthority, ReplayOrCommit;
    Lookup(records, SuiteNamed(r.body.execution.suiteDigest), s);
    Lookup(records, TaskNamed(s.suite.taskBindingDigest), t);
    IsNew(records, fact);
  }

  lemma Executes()
    requires Valid([T, P, S])
    ensures Handle([T, P, S], EXECUTE, ENV).records == [T, P, S, X]
  {
    hide Valid, CheckCount, PlanExecute, Hits, ExecutionMatchesAuthority, Handle;
    var records := [T, P, S];
    OneCheck();
    ExecutionFits();
    ExecutionCommits(records, EXECUTE, T, S, X);
    Appends(records, SuiteExecute, EXECUTE.body, X);
  }

  lemma ExecutionFits()
    ensures Hits(SuiteNamed(EXECUTION.suiteDigest), S) && Hits(TaskNamed(S.suite.taskBindingDigest), T)
    ensures ExecutionMatchesAuthority(EXECUTION, ProcessAuthority(PROOF, CleanupD(PROOF)))
  {
  }

  /** What lets evidence commit: the four facts it names, in agreement with it, and a new id. */
  lemma EvidenceCommits(records: seq<Fact>, r: Request, t: Fact, p: Fact, s: Fact, x: Fact, fact: Fact)
    requires Valid(records) && r.body.EvidenceBody? && t in records && p in records && s in records && x in records
    requires Hits(TaskNamed(r.body.evidence.taskBindingDigest), t)
    requires Hits(ProducerNamed(r.body.evidence.producerBindingDigest), p)
    requires Hits(SuiteNamed(r.body.evidence.suiteDigest), s)
    requires Hits(ExecutionNamed(r.body.evidence.checkExecutionDigest), x)
    requires EvidenceAgrees(r.body.evidence, p, s, x) && r.body.evidence.createdAt <= ENV.now
    requires r.body.evidenceDigest == EvidenceD(r.body.evidence)
               && r.body.evidence.subjectStateDigest == SubjectD(r.body.evidenceSubject)
               && r.body.evidence.ranexProvenanceDigest == Provenance(ENV)
    requires forall f :: f in records ==> !f.EvidenceFact?
    requires fact == EvidenceFact(r.key, r.bodyDigest, EvidenceD(r.body.evidence), r.body.evidence)
    ensures PlanAdmit(records, r, ENV) == Commit(fact, ProjectionOf(fact))
  {
    hide Valid, Select;
    var v := r.body.evidence;
    Lookup(records, TaskNamed(v.taskBindingDigest), t);
    Lookup(records, ProducerNamed(v.producerBindingDigest), p);
    Lookup(records, SuiteNamed(v.suiteDigest), s);
    Lookup(records, ExecutionNamed(v.checkExecutionDigest), x);
    SelectNone(records, EvidenceWithId(v.evidenceId));
    SelectNone(records, OfKey(EvidenceAdmit, fact.key));
  }

  lemma Admits()
    requires Valid([T, P, S, X])
    ensures Handle([T, P, S, X], ADMIT, ENV).records == [T, P, S, X, V]
  {
    hide Valid, PlanAdmit, Hits, EvidenceAgrees, Handle;
    var records := [T, P, S, X];
    EvidenceFits();
    EvidenceCommits(records, ADMIT, T, P, S, X, V);
    Appends(records, EvidenceAdmit, ADMIT.body, V);
  }

  lemma EvidenceFits()
    ensures Hits(TaskNamed(EVIDENCE.taskBindingDigest), T) && Hits(ProducerNamed(EVIDENCE.producerBindingDigest), P)
    ensures Hits(SuiteNamed(EVIDENCE.suiteDigest), S) && Hits(ExecutionNamed(EVIDENCE.checkExecutionDigest), X)
    ensures EvidenceAgrees(EVIDENCE, P, S, X)
  {
  }

  /** A single piece of evidence for the requirement, on a passed execution, makes the row pass. */
  lemma RowPasses(records: seq<Fact>, gate: GateExpectation, q: Requirement, v: Fact, x: Fact)
    requires Valid(records + [v]) && x in records && v.EvidenceFact? && x.ExecutionFact?
    requires forall f :: f in records ==> !f.EvidenceFact?
    requires Hits(EvidenceFor(gate, q), v) && Hits(ExecutionNamed(v.evidence.checkExecutionDigest), x)
    requires x.execution.resultArtifactDigest == v.evidence.resultArtifactDigest && x.execution.outcome == OutcomePass
    ensures RowFor(records + [v], gate, q).result == RowPass
  {
    hide Valid, Select;
    SelectConcat(records, [v], EvidenceFor(gate, q));
    SelectNone(records, EvidenceFor(gate, q));
    SelectIs([v], EvidenceFor(gate, q), v);
    Lookup(records + [v], ExecutionNamed(v.evidence.checkExecutionDigest), x);
  }

  /** What lets a gate of one requirement commit, and pass. */
  lemma GateCommits(records: seq<Fact>, r: Request, t: Fact, s: Fact) returns (fact: Fact)
    requires Valid(records) && r.body.GateBody? && t in records && s in records
    requires GateWellFormed(r.body.gate) && r.body.gateDigest == GateEvaluationD(r.body.gate)
    requires r.body.gate.subjectStateDigest == SubjectD(r.body.gateSubject)
    requires r.body.gate.ranexProvenanceDigest == Provenance(ENV) && r.body.gate.evaluatedAt <= ENV.now
    requires Hits(TaskNamed(r.body.gate.taskBindingDigest), t) && Hits(SuiteNamed(r.body.gate.suiteDigest), s)
    requires s.suite.taskBindingDigest == r.body.gate.taskBindingDigest
               && s.suite.gateCatalogDigest == r.body.gate.gateCatalogDigest
               && s.suite.verifierAuthorityDigest == r.body.gate.authorityDigest
    requires |r.body.gate.requirements| == 1
    requires CheckCount(s.suite.checks, r.body.gate.requirements[0].checkDefinitionDigest) == 1
    requires RowFor(records, r.body.gate, r.body.gate.requirements[0]).result == RowPass
    requires forall f :: f in records ==> !f.VerdictFact?
    ensures PlanEvaluate(records, r, ENV) == Commit(fact, ProjectionOf(fact))
    ensures fact.VerdictFact? && fact.verdict.decision == Pass && |fact.gateRows| == 1
  {
    hide Valid, Select, CheckCount, RowFor, Chain, SelectedEvidence;
    var gate := r.body.gate;
    Lookup(records, TaskNamed(gate.taskBindingDigest), t);
    Lookup(records, SuiteNamed(gate.suiteDigest), s);
    SelectNone(records, OfKey(GateEvaluate, r.key));
    SelectNone(records, VerdictWithId(gate.verdictId));
    fact := VerdictFactOf(records, r, RowsFor(records, gate));
    assert forall q :: q in gate.requirements ==> q == gate.requirements[0];
  }

  lemma Evaluates() returns (verdict: Fact)
    requires Valid([T, P, S, X, V])
    ensures verdict.VerdictFact? && verdict.verdict.decision == Pass && |verdict.gateRows| == 1
    ensures Handle([T, P, S, X, V], EVALUATE, ENV).records == [T, P, S, X, V, verdict]
  {
    hide Valid, RowFor, CheckCount, PlanEvaluate, Hits, GateWellFormed, Handle;
    var records := [T, P, S, X, V];
    OneCheck();
    OneRow();
    GateFits();
    verdict := GateCommits(records, EVALUATE, T, S);
    Appends(records, GateEvaluate, EVALUATE.body, verdict);
  }

  lemma OneRow()
    requires Valid([T, P, S, X, V])
    ensures RowFor([T, P, S, X, V], GATE, REQUIREMENT).result == RowPass
  {
    hide Valid, RowFor, Hits;
    RowFits();
    assert [T, P, S, X, V] == [T, P, S, X] + [V];
    RowPasses([T, P, S, X], GATE, REQUIREMENT, V, X);
  }

  lemma RowFits()
    ensures Hits(EvidenceFor(GATE, REQUIREMENT), V) && Hits(ExecutionNamed(V.evidence.checkExecutionDigest), X)
  {
  }

  lemma GateFits()
    ensures GateWellFormed(GATE) && Hits(TaskNamed(GATE.taskBindingDigest), T) && Hits(SuiteNamed(GATE.suiteDigest), S)
  {
  }

  /** A run whose fifth request has its evidence admitted. */
  lemma UpToEvidence() returns (inputs: seq<Input>)
    ensures Run(inputs) == [T, P, S, X, V]
  {
    hide Handle, Valid;
    Binds();
    inputs := Then([], [], Input(BIND, ENV));
    Dispatches();
    inputs := Then(inputs, [T], Input(DISPATCH, ENV));
    Freezes();
    inputs := Then(inputs, [T, P], Input(FREEZE, ENV));
    Executes();
    inputs := Then(inputs, [T, P, S], Input(EXECUTE, ENV));
    Admits();
    inputs := Then(inputs, [T, P, S, X], Input(ADMIT, ENV));
  }

  /** The run goes on with one input, and the journal it leaves is valid. */
  lemma Then(inputs: seq<Input>, records: seq<Fact>, next: Input) returns (longer: seq<Input>)
    requires Run(inputs) == records
    ensures longer == inputs + [next] && Run(longer) == Handle(records, next.request, next.env).records
    ensures Valid(Run(longer))
  {
    longer := inputs + [next];
    RunAppend(inputs, next);
    ReachableIsValid(longer);
  }

  /** A run that ends with a passing verdict, of which an immediate read says that it is current. */
  lemma PassHappens() returns (inputs: seq<Input>)
    ensures var records := Run(inputs);
            && |records| == 6 && records[5].VerdictFact? && records[5].verdict.decision == Pass
            && |records[5].gateRows| == 1
            && Handle(records, ReadFor(records[5].verdict, CLEAN, ENV.commit, ENV.schemaSet), ENV).reply
               == Done(ReadAnswer(records[5], true), None)
  {
    hide Run, Handle, Valid;
    inputs := UpToEvidence();
    ReachableIsValid(inputs);
    var verdict := Evaluates();
    RunAppend(inputs, Input(EVALUATE, ENV));
    var fact := EvaluateThenRead(Run(inputs), EVALUATE, ENV, ENV);
    LivesOn();
    inputs := inputs + [Input(EVALUATE, ENV)];
  }

  lemma LivesOn()
    ensures TaskLives([T, P, S, X, V], TaskD(TASK), ENV)
  {
    assert T in [T, P, S, X, V];
  }

  // A target that commits after it was found absent ---------------------------------------------------------

  const OTHER := TASK.(taskId := "other")
  const TARGET := Enclose(TaskBind, BindBody(OTHER, TaskD(OTHER)))
  const LOST := ReconcileExpectation(TaskBind, TARGET.key, TARGET.bodyDigest, Provenance(ENV))
  const RECONCILE := Enclose(OperationReconcile, ReconcileBody(LOST, ReconcileD(LOST)))
  const R := ReconcileFact(RECONCILE.key, RECONCILE.bodyDigest, ReconcileD(LOST), Absent, None)
  const U := TaskFact(TARGET.key, TARGET.bodyDigest, TaskD(OTHER), OTHER)

  lemma KeysDiffer()
    ensures T.key != TARGET.key && R.key != TARGET.key
  {
    assert TASK.taskId != OTHER.taskId;
  }

  lemma FoundAbsent()
    requires Valid([T])
    ensures Handle([T], RECONCILE, ENV).records == [T, R]
    ensures Handle([T], RECONCILE, ENV).reply.projection == ReconcileProjection(Absent, None)
  {
    hide Valid, Select;
    KeysDiffer();
    SelectNone([T], AnyKey(LOST.targetIdempotencyKey));
    SelectNone([T], OfKey(OperationReconcile, RECONCILE.key));
    Appends([T], OperationReconcile, RECONCILE.body, R);
  }

  lemma BindsLate()
    requires Valid([T, R])
    ensures Handle([T, R], TARGET, ENV).records == [T, R, U]
  {
    hide Valid, Select;
    KeysDiffer();
    SelectNone([T, R], OfKey(TaskBind, TARGET.key));
    Appends([T, R], TaskBind, TARGET.body, U);
  }

  /** A reconciliation is answered with `absent`, its target commits, and then its repetition is a conflict. */
  lemma AbsentTargetCommits() returns (inputs: seq<Input>)
    ensures var before, after := Run(inputs), Run(inputs + [Input(TARGET, ENV)]);
            && RECONCILE.body.reconcile.targetIdempotencyKey == TARGET.key
            && Handle(before, RECONCILE, ENV).reply.Done?
            && Handle(before, RECONCILE, ENV).reply.projection == ReconcileProjection(Absent, None)
            && Handle(before, RECONCILE, ENV).records == before && |after| == |before| + 1
            && Handle(after, RECONCILE, ENV).reply == Refused(IdempotencyConflict)
  {
    hide Handle, Valid, Run;
    RunOfNothing();
    Binds();
    inputs := Then([], [], Input(BIND, ENV));
    FoundAbsent();
    inputs := Then(inputs, [T], Input(RECONCILE, ENV));
    AnsweredAgain();
    BindsLate();
    var _ := Then(inputs, [T, R], Input(TARGET, ENV));
    Conflicts();
  }

  lemma RunOfNothing()
    ensures Run([]) == []
  {
  }

  lemma ReconcileFits()
    ensures ReconcileRequestOk(RECONCILE, ENV)
  {
  }

  lemma AnsweredAgain()
    requires Valid([T, R])
    ensures var step := Handle([T, R], RECONCILE, ENV);
            step.records == [T, R] && step.reply.Done? && step.reply.projection == ReconcileProjection(Absent, None)
  {
    hide Valid, Handle, ReconcileRequestOk, Chain;
    KeysDiffer();
    ReconcileFits();
    ReconcileReplay([T, R], 1, RECONCILE, ENV);
    ReplayAnswersFromRecord([T, R], 1, RECONCILE, ENV);
  }

  lemma Conflicts()
    requires Valid([T, R, U])
    ensures Handle([T, R, U], RECONCILE, ENV).reply == Refused(IdempotencyConflict)
  {
    hide Valid, Handle, ReconcileRequestOk, Chain;
    ReconcileFits();
    assert U in [T, R, U];
    ReconcileReplay([T, R, U], 1, RECONCILE, ENV);
  }
}
