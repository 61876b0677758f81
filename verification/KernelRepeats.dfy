/** Exactly when a request that is repeated is answered again. */
module KernelRepeats {
  import opened KernelFacts
  import opened KernelPlan
  import opened KernelInvariant
  import opened KernelSteps
  import opened KernelHistory

  /**
   What the repeated request still has to meet, for each kind of fact: a task that has not expired,
   a verifier that has not become a producer of the task, the runtime and the clock of evidence and
   gate, and for a reconciliation that its outcome still stands. A dispatch, a suite and a
   cancellation meet everything again.
   */
  predicate RepeatHolds(records: seq<Fact>, f: Fact, env: Env)
    requires Keyed(f)
  {
    match f
    case TaskFact(_, _, _, task) => task.expiresAt > env.now
    case ProducerFact(_, _, _, _) => true
    case SuiteFact(_, _, _, _) => true
    case ExecutionFact(_, _, _, execution, _) => NoLaterProducer(records, execution)
    case EvidenceFact(_, _, _, v) => v.ranexProvenanceDigest == Provenance(env) && v.createdAt <= env.now + 5000
    case VerdictFact(_, body, _, _, _, _, _, _) =>
      body.body.gate.ranexProvenanceDigest == Provenance(env) && body.body.gate.evaluatedAt <= env.now + 5000
    case ReconcileFact(_, body, _, outcome, _) =>
      && body.body.reconcile.ranexProvenanceDigest == Provenance(env)
      && (outcome.Acknowledged? || forall g :: g in records ==> g.key != body.body.reconcile.targetIdempotencyKey)
    case CancelFact(_, _, _, _) => true
  }

  /** The verifier of the execution is no producer of the suite's task in the journal as it is now. */
  predicate NoLaterProducer(records: seq<Fact>, execution: CheckExecution) {
    forall s, p :: s in records && p in records && Hits(SuiteNamed(execution.suiteDigest), s) ==>
      !ProducedByVerifier(p, s.suite.taskBindingDigest, execution)
  }

  /** The request is the one that was recorded. */
  predicate Repeats(f: Fact, r: Request) {
    Carries(r.body, f) && f.bodyDigest == r.bodyDigest == BodyD(r.body) && f.key == r.key
  }

  /** Under a recorded key it can be no other. */
  lemma RepeatedBody(records: seq<Fact>, i: nat, r: Request, env: Env)
    requires Valid(records) && i < |records| && records[i].key == r.key && EnvelopeRefusal(r, env).None?
    ensures Keyed(records[i]) && Repeats(records[i], r) && OperationOf(records[i]) == r.operation
  {
    hide Valid, Carries;
    KeyedAt(records, i);
  }

  /** A recorded fact is found under its key and replayed. */
  lemma ReplaysRecorded(records: seq<Fact>, f: Fact)
    requires Valid(records) && f in records && !f.VerdictFact? && !f.ReconcileFact? && !f.CancelFact?
    ensures ReplayOrCommit(records, f) == Replay(f, ProjectionOf(f))
  {
    hide Valid, Select, ProjectionOf;
    Lookup(records, OfKey(OperationOf(f), f.key), f);
  }

  lemma InPrefix(records: seq<Fact>, i: nat)
    requires i <= |records|
    ensures forall f :: f in records[..i] ==> f in records
  {
  }

  lemma TaskRepeats(records: seq<Fact>, i: nat, r: Request, env: Env)
    requires Valid(records) && i < |records| && records[i].TaskFact? && Repeats(records[i], r)
    ensures !PlanBind(records, r, env).Refuse? <==> records[i].task.expiresAt > env.now
  {
    GroundedAt(records, i);
    hide Valid, ReplayOrCommit;
    ReplaysRecorded(records, records[i]);
  }

  lemma ProducerRepeats(records: seq<Fact>, i: nat, r: Request, env: Env)
    requires Valid(records) && i < |records| && records[i].ProducerFact? && Repeats(records[i], r)
    ensures !PlanDispatch(records, r, env).Refuse?
  {
    GroundedAt(records, i);
    InPrefix(records, i);
    hide Valid, ReplayOrCommit, Select;
    ReplaysRecorded(records, records[i]);
    var p := records[i].producer;
    var t :| t in records[..i] && Hits(TaskNamed(p.taskBindingDigest), t)
             && t.task.authorityDigest == p.authorityDigest
               && t.task.executionProfileDigest == p.executionProfileDigest;
    Lookup(records, TaskNamed(p.taskBindingDigest), t);
  }

  /** The task of a recorded suite is still the one its digest names. */
  lemma SuiteRests(records: seq<Fact>, i: nat) returns (t: Fact)
    requires Valid(records) && i < |records| && records[i].SuiteFact?
    ensures var suite := records[i].suite;
            SuiteWellFormed(suite) && Select(records, TaskNamed(suite.taskBindingDigest)) == [t] && t.TaskFact?
            && t.task.authorityDigest != suite.verifierAuthorityDigest
  {
    GroundedAt(records, i);
    InPrefix(records, i);
    hide Valid, Select, SuiteWellFormed;
    var suite := records[i].suite;
    t :| t in records[..i] && Hits(TaskNamed(suite.taskBindingDigest), t)
         && t.task.authorityDigest != suite.verifierAuthorityDigest;
    Lookup(records, TaskNamed(suite.taskBindingDigest), t);
  }

  lemma SuiteRepeats(records: seq<Fact>, i: nat, r: Request, env: Env)
    requires Valid(records) && i < |records| && records[i].SuiteFact? && Repeats(records[i], r)
    ensures !PlanFreeze(records, r, env).Refuse?
  {
    var t := SuiteRests(records, i);
    ReplaysRecorded(records, records[i]);
    hide Valid, ReplayOrCommit, Select, SuiteWellFormed, Hits, ProjectionOf;
  }

  lemma ExecutionRanUnder(records: seq<Fact>, i: nat) returns (s: Fact, t: Fact)
    requires Valid(records) && i < |records| && records[i].ExecutionFact?
    ensures var e := records[i].execution;
            && s in records[..i] && t in records[..i] && Hits(SuiteNamed(e.suiteDigest), s) && s.SuiteFact?
            && Hits(TaskNamed(s.suite.taskBindingDigest), t) && t.TaskFact?
            && CheckCount(s.suite.checks, e.checkDefinitionDigest) == 1
            && e.executionProfileDigest == t.task.executionProfileDigest
  {
    hide Valid, Select, ExecutionMatchesAuthority, ProducedByVerifier, CheckCount;
    ExecutionGroundedAt(records, i);
    var e := records[i].execution;
    s, t :| s in records[..i] && t in records[..i] && Hits(SuiteNamed(e.suiteDigest), s)
            && Hits(TaskNamed(s.suite.taskBindingDigest), t)
            && CheckCount(s.suite.checks, e.checkDefinitionDigest) == 1
            && e.executionProfileDigest == t.task.executionProfileDigest
            && (forall f :: f in records[..i] ==> !ProducedByVerifier(f, s.suite.taskBindingDigest, e));
  }

  /** The suite and the task of a recorded execution are still the ones its digests name. */
  lemma ExecutionRests(records: seq<Fact>, i: nat) returns (s: Fact, t: Fact)
    requires Valid(records) && i < |records| && records[i].ExecutionFact?
    ensures var e := records[i].execution;
            && s in records && Hits(SuiteNamed(e.suiteDigest), s) && Select(records, SuiteNamed(e.suiteDigest)) == [s]
            && s.SuiteFact? && Select(records, TaskNamed(s.suite.taskBindingDigest)) == [t] && t.TaskFact?
            && CheckCount(s.suite.checks, e.checkDefinitionDigest) == 1
            && e.executionProfileDigest == t.task.executionProfileDigest
  {
    hide *;
    s, t := ExecutionRanUnder(records, i);
    InPrefix(records, i);
    Identifies(records[i].execution.suiteDigest, s.suite.taskBindingDigest);
    Lookup(records, SuiteNamed(records[i].execution.suiteDigest), s);
    Lookup(records, TaskNamed(s.suite.taskBindingDigest), t);
  }

  lemma Identifies(suite: Digest, task: Digest)
    ensures Identifying(SuiteNamed(suite)) && Identifying(TaskNamed(task))
  {
  }

  lemma ExecutionIsWellFormed(records: seq<Fact>, i: nat)
    requires Valid(records) && i < |records| && records[i].ExecutionFact?
    ensures var e, a := records[i].execution, records[i].authority;
            ExecutionMatchesAuthority(e, a) && e.verifierRole == "verification" && e.startedAt <= e.finishedAt
            && !a.proof.exitClass.ExitNone?
  {
    GroundedAt(records, i);
    hide Valid, ExecutionMatchesAuthority, ExecutionGrounded;
  }

  lemma ExecutionRepeats(records: seq<Fact>, i: nat, r: Request, env: Env)
    requires Valid(records) && i < |records| && records[i].ExecutionFact? && Repeats(records[i], r)
    ensures !PlanExecute(records, r, env).Refuse? <==> NoLaterProducer(records, records[i].execution)
  {
    hide *;
    ExecutionIsWellFormed(records, i);
    var s, t := ExecutionRests(records, i);
    ReplaysRecorded(records, records[i]);
    OnlySuite(records, records[i].execution, s);
    SuiteIsSuite(records[i].execution.suiteDigest, s);
    ExecutionBody(records[i], r);
    ExecutionPasses(records, records[i], r, env, s, t);
  }

  lemma SuiteIsSuite(digest: Digest, s: Fact)
    requires Hits(SuiteNamed(digest), s)
    ensures s.SuiteFact?
  {
  }

  lemma ExecutionBody(f: Fact, r: Request)
    requires f.ExecutionFact? && Repeats(f, r)
    ensures r.body == ExecuteBody(f.execution, ExecutionD(f.execution), f.authority)
    ensures f == ExecutionFact(r.key, r.bodyDigest, ExecutionD(f.execution), f.execution, f.authority)
    ensures f.authority.cleanupProofDigest == CleanupD(f.authority.proof)
  {
  }

  lemma ExecutionPasses(records: seq<Fact>, f: Fact, r: Request, env: Env, s: Fact, t: Fact)
    requires f.ExecutionFact? && records != []
    requires var e, a := f.execution, f.authority;
             && r.body == ExecuteBody(e, ExecutionD(e), a)
               && f == ExecutionFact(r.key, r.bodyDigest, ExecutionD(e), e, a)
             && ExecutionMatchesAuthority(e, a) && e.verifierRole == "verification" && e.startedAt <= e.finishedAt
             && !a.proof.exitClass.ExitNone? && a.cleanupProofDigest == CleanupD(a.proof)
             && s.SuiteFact? && Select(records, SuiteNamed(e.suiteDigest)) == [s]
             && Select(records, TaskNamed(s.suite.taskBindingDigest)) == [t] && t.TaskFact?
             && CheckCount(s.suite.checks, e.checkDefinitionDigest) == 1
             && e.executionProfileDigest == t.task.executionProfileDigest
    requires ReplayOrCommit(records, f).Replay?
    ensures !PlanExecute(records, r, env).Refuse?
            <==> forall p :: p in records ==> !ProducedByVerifier(p, s.suite.taskBindingDigest, f.execution)
  {
    hide Select, Hits, ReplayOrCommit, ExecutionMatchesAuthority, ProducedByVerifier, CheckCount;
  }

  /** The suite is the only one, so its task is the one that counts. */
  lemma OnlySuite(records: seq<Fact>, e: CheckExecution, s: Fact)
    requires Valid(records) && s in records && Hits(SuiteNamed(e.suiteDigest), s)
    ensures NoLaterProducer(records, e)
            <==> forall p :: p in records ==> !ProducedByVerifier(p, s.suite.taskBindingDigest, e)
  {
    hide Valid, ProducedByVerifier;
    forall other | other in records && Hits(SuiteNamed(e.suiteDigest), other) ensures other == s {
      Lookup(records, SuiteNamed(e.suiteDigest), s);
      Lookup(records, SuiteNamed(e.suiteDigest), other);
    }
  }

  /** What recorded evidence rests on is still what its digests name. */
  lemma EvidenceRests(records: seq<Fact>, i: nat) returns (t: Fact, p: Fact, s: Fact, x: Fact)
    requires Valid(records) && i < |records| && records[i].EvidenceFact?
    ensures var v := records[i].evidence;
            && Select(records, TaskNamed(v.taskBindingDigest)) == [t]
            && Select(records, ProducerNamed(v.producerBindingDigest)) == [p]
            && Select(records, SuiteNamed(v.suiteDigest)) == [s]
            && Select(records, ExecutionNamed(v.checkExecutionDigest)) == [x] && EvidenceAgrees(v, p, s, x)
  {
    EvidenceGroundedAt(records, i);
    InPrefix(records, i);
    hide Valid, Select, EvidenceAgrees;
    var v := records[i].evidence;
    t, p, s, x :| t in records[..i] && p in records[..i] && s in records[..i] && x in records[..i]
                  && Hits(TaskNamed(v.taskBindingDigest), t) && Hits(ProducerNamed(v.producerBindingDigest), p)
                  && Hits(SuiteNamed(v.suiteDigest), s) && Hits(ExecutionNamed(v.checkExecutionDigest), x)
                  && EvidenceAgrees(v, p, s, x);
    Lookup(records, TaskNamed(v.taskBindingDigest), t);
    Lookup(records, ProducerNamed(v.producerBindingDigest), p);
    Lookup(records, SuiteNamed(v.suiteDigest), s);
    Lookup(records, ExecutionNamed(v.checkExecutionDigest), x);
  }

  lemma EvidenceRepeats(records: seq<Fact>, i: nat, r: Request, env: Env)
    requires Valid(records) && i < |records| && records[i].EvidenceFact? && Repeats(records[i], r)
    ensures var v := records[i].evidence;
            !PlanAdmit(records, r, env).Refuse? <==>
                v.ranexProvenanceDigest == Provenance(env) && v.createdAt <= env.now + 5000
  {
    var t, p, s, x := EvidenceRests(records, i);
    EvidenceReplays(records, records[i]);
    EvidenceBodyIs(records[i], r);
    hide *;
    EvidencePasses(records, records[i], r, env, t, p, s, x);
  }

  lemma EvidenceBodyIs(f: Fact, r: Request)
    requires f.EvidenceFact? && Repeats(f, r)
    ensures r.body.EvidenceBody? && r.body == EvidenceBody(r.body.evidenceSubject, f.evidence, EvidenceD(f.evidence))
    ensures f == EvidenceFact(r.key, r.bodyDigest, EvidenceD(f.evidence), f.evidence)
    ensures f.evidence.subjectStateDigest == SubjectD(r.body.evidenceSubject)
  {
  }

  lemma EvidencePasses(records: seq<Fact>, f: Fact, r: Request, env: Env, t: Fact, p: Fact, s: Fact, x: Fact)
    requires f.EvidenceFact? && records != [] && r.body.EvidenceBody?
    requires var v := f.evidence;
             && r.body == EvidenceBody(r.body.evidenceSubject, v, EvidenceD(v))
             && f == EvidenceFact(r.key, r.bodyDigest, EvidenceD(v), v)
             && v.subjectStateDigest == SubjectD(r.body.evidenceSubject)
             && Select(records, TaskNamed(v.taskBindingDigest)) == [t]
             && Select(records, ProducerNamed(v.producerBindingDigest)) == [p]
             && Select(records, SuiteNamed(v.suiteDigest)) == [s]
             && Select(records, ExecutionNamed(v.checkExecutionDigest)) == [x] && EvidenceAgrees(v, p, s, x)
    requires !PlanEvidenceFact(records, f).Refuse?
    ensures var v := f.evidence;
            !PlanAdmit(records, r, env).Refuse? <==>
                v.ranexProvenanceDigest == Provenance(env) && v.createdAt <= env.now + 5000
  {
    hide Select, Hits, PlanEvidenceFact, Provenance;
  }

  lemma EvidenceReplays(records: seq<Fact>, f: Fact)
    requires Valid(records) && f in records && f.EvidenceFact?
    ensures !PlanEvidenceFact(records, f).Refuse?
  {
    hide Valid, Select, ReplayOrCommit;
    Lookup(records, EvidenceWithId(f.evidence.evidenceId), f);
    Lookup(records, OfKey(EvidenceAdmit, f.key), f);
    ReplaysRecorded(records, f);
  }

  lemma VerdictRepeats(records: seq<Fact>, i: nat, r: Request, env: Env)
    requires Valid(records) && i < |records| && records[i].VerdictFact? && records[i].bodyDigest.BodyD?
    requires Repeats(records[i], r)
    ensures records[i].bodyDigest.body.GateBody?
    ensures var gate := records[i].bodyDigest.body.gate;
            !PlanEvaluate(records, r, env).Refuse?
            <==> gate.ranexProvenanceDigest == Provenance(env) && gate.evaluatedAt <= env.now + 5000
  {
    VerdictIsFound(records, i, r);
    hide *;
    GatePasses(records, records[i], r, env);
  }

  lemma VerdictIsFound(records: seq<Fact>, i: nat, r: Request)
    requires Valid(records) && i < |records| && records[i].VerdictFact? && Repeats(records[i], r)
    ensures r.body.GateBody? && GateWellFormed(r.body.gate) && Select(records, OfKey(GateEvaluate, r.key))
              == [records[i]]
    ensures records[i].bodyDigest == BodyD(r.body) && records[i].expectationDigest == r.body.gateDigest
              == GateEvaluationD(r.body.gate)
    ensures r.body.gate.subjectStateDigest == SubjectD(r.body.gateSubject)
  {
    VerdictGroundedAt(records, i);
    hide Valid, Select, RowsFor, VerdictOf, SelectedEvidence, GateWellFormed, CheckCount;
    Lookup(records, OfKey(GateEvaluate, r.key), records[i]);
  }

  lemma GatePasses(records: seq<Fact>, f: Fact, r: Request, env: Env)
    requires r.body.GateBody? && GateWellFormed(r.body.gate) && Select(records, OfKey(GateEvaluate, r.key)) == [f]
    requires f.VerdictFact? && f.bodyDigest == r.bodyDigest && f.expectationDigest == r.body.gateDigest
               == GateEvaluationD(r.body.gate)
    requires r.body.gate.subjectStateDigest == SubjectD(r.body.gateSubject) && records != []
    ensures var gate := r.body.gate;
            !PlanEvaluate(records, r, env).Refuse?
            <==> gate.ranexProvenanceDigest == Provenance(env) && gate.evaluatedAt <= env.now + 5000
  {
    hide Select, Hits, RowsFor, VerdictFactOf, GateWellFormed, CheckCount, ProjectionOf, PlanVerdict, Provenance;
  }

  /** What a recorded reconciliation says about its target, whatever the runtime. */
  lemma ReconcileTarget(records: seq<Fact>, i: nat, r: Request)
    requires Valid(records) && i < |records| && records[i].ReconcileFact? && Repeats(records[i], r)
    ensures records[i].bodyDigest.BodyD? && r.body.ReconcileBody? && records[i].bodyDigest.body == r.body
    ensures var x := r.body.reconcile;
            && Reconcilable(x.targetOperation) && r.body.reconcileDigest == ReconcileD(x)
            && x.targetIdempotencyKey
               == IdempotencyD(x.targetBodyDigest, x.targetOperation, VersionOf(x.targetOperation))
  {
    GroundedAt(records, i);
    hide Valid, ReconcileGrounded, Reconcilable;
  }

  /** A reconciliation in another runtime is refused. */
  lemma ReconcileElsewhere(records: seq<Fact>, r: Request, env: Env)
    requires r.operation == OperationReconcile
    requires r.body.ReconcileBody? && r.body.reconcile.ranexProvenanceDigest != Provenance(env)
    ensures PlanOf(records, r, env).Refuse?
  {
    hide Select, PlanRecovery, ReconcileFactOf, WithBody, Provenance, Reconcilable;
  }

  /** A reply is an answer exactly when the plan refuses nothing. */
  lemma RefusedByPlan(records: seq<Fact>, r: Request, env: Env)
    requires EnvelopeRefusal(r, env).None?
    ensures Handle(records, r, env).reply.Done? <==> !PlanOf(records, r, env).Refuse?
  {
    hide PlanOf, EnvelopeRefusal, PositionAt;
  }

  lemma ReconcileRepeats(records: seq<Fact>, i: nat, r: Request, env: Env)
    requires Valid(records) && i < |records| && records[i].ReconcileFact? && records[i].key == r.key
    requires EnvelopeRefusal(r, env).None? && Repeats(records[i], r) && r.operation == OperationReconcile
    ensures records[i].bodyDigest.BodyD? && records[i].bodyDigest.body.ReconcileBody?
    ensures var x := records[i].bodyDigest.body.reconcile;
            !PlanOf(records, r, env).Refuse?
            <==> x.ranexProvenanceDigest == Provenance(env)
                 && (records[i].outcome.Acknowledged? || forall g :: g in records ==> g.key != x.targetIdempotencyKey)
  {
    hide Valid, Repeats, PlanOf, Handle, EnvelopeRefusal, Provenance, Reconcilable;
    ReconcileTarget(records, i, r);
    if r.body.reconcile.ranexProvenanceDigest == Provenance(env) {
      ReconcileReplay(records, i, r, env);
      RefusedByPlan(records, r, env);
    } else {
      ReconcileElsewhere(records, r, env);
    }
  }

  lemma CancelRepeats(records: seq<Fact>, i: nat, r: Request, env: Env)
    requires Valid(records) && i < |records| && records[i].CancelFact? && Repeats(records[i], r)
    ensures !PlanCancel(records, r, env).Refuse?
  {
    hide Valid, PlanRecovery;
    RecoveryReplay(records, i, records[i]);
  }

  /** The plan of each operation, and what is left of it when it is repeated. */
  lemma PlanRepeatsIff(records: seq<Fact>, i: nat, r: Request, env: Env)
    requires Valid(records) && i < |records| && records[i].key == r.key && EnvelopeRefusal(r, env).None?
    requires Keyed(records[i]) && Repeats(records[i], r) && OperationOf(records[i]) == r.operation
    ensures !PlanOf(records, r, env).Refuse? <==> RepeatHolds(records, records[i], env)
  {
    hide Valid, PlanBind, PlanDispatch, PlanFreeze, PlanExecute, PlanAdmit, PlanEvaluate, PlanReconcile, PlanCancel,
      PlanRead, NoLaterProducer, Carries, EnvelopeRefusal, Provenance;
    match records[i]
    case TaskFact(_, _, _, _) => TaskRepeats(records, i, r, env);
    case ProducerFact(_, _, _, _) => ProducerRepeats(records, i, r, env);
    case SuiteFact(_, _, _, _) => SuiteRepeats(records, i, r, env);
    case ExecutionFact(_, _, _, _, _) => ExecutionRepeats(records, i, r, env);
    case EvidenceFact(_, _, _, _) => EvidenceRepeats(records, i, r, env);
    case VerdictFact(_, _, _, _, _, _, _, _) => VerdictRepeats(records, i, r, env);
    case ReconcileFact(_, _, _, _, _) => ReconcileRepeats(records, i, r, env);
    case CancelFact(_, _, _, _) => CancelRepeats(records, i, r, env);
  }

  /**
   A request whose key is recorded is answered again exactly when what it is repeated with still
   holds; nothing else about the journal since, and nothing else about the runtime, refuses it.
   */
  lemma {:induction false} RepeatSucceedsIff(records: seq<Fact>, i: nat, r: Request, env: Env)
    requires Valid(records) && i < |records| && records[i].key == r.key && EnvelopeRefusal(r, env).None?
    ensures Keyed(records[i])
    ensures Handle(records, r, env).reply.Done? <==> RepeatHolds(records, records[i], env)
  {
    RepeatedBody(records, i, r, env);
    RefusedByPlan(records, r, env);
    hide *;
    PlanRepeatsIff(records, i, r, env);
  }

  /**
   So after any run a committed request that is sent again gets the answer it got, and the journal
   stays as it is, exactly when that holds of the fact it committed; otherwise it is refused.
   */
  lemma {:induction false} RepeatAnswersIff(inputs: seq<Input>, more: seq<Input>, r: Request, env: Env, later: Env)
    requires Commits(Run(inputs), r, env) && EnvelopeRefusal(r, later).None?
    ensures var journal := Run(inputs + [Input(r, env)] + more);
            var i := |Run(inputs)|;
            && i < |journal| && Keyed(journal[i])
            && (Handle(journal, r, later) == Step(Handle(Run(inputs), r, env).reply, journal)
                <==> RepeatHolds(journal, journal[i], later))
            && (!RepeatHolds(journal, journal[i], later) ==> Handle(journal, r, later).reply.Refused?)
  {
    hide Valid, Handle, Run, ProjectionOf, Commits, RepeatHolds, Keyed;
    var before := Run(inputs);
    var committed := inputs + [Input(r, env)];
    RunAppend(inputs, Input(r, env));
    ReachableIsValid(inputs);
    CommitAnswer(before, r, env);
    RunExtends(committed, more);
    ReachableIsValid(committed + more);
    var journal := Run(committed + more);
    assert journal[|before|] == Run(committed)[|before|];
    RepeatSucceedsIff(journal, |before|, r, later);
    ReplayIsStable(inputs, more, r, env, later);
  }
}
