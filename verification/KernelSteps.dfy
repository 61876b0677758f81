/** Each operation, from a valid journal: what it commits is sound, and no lookup is ambiguous. */
module KernelSteps {
  import opened KernelFacts
  import opened KernelPlan
  import opened KernelInvariant

  /**
   A plan is in order for a request when what it commits is sound, what it replays is the one
   record under the request's key, and it never reports an ambiguous journal. Either way the
   projection is the one the fact itself determines.
   */
  predicate InOrder(records: seq<Fact>, r: Request, plan: Plan) {
    match plan
    case Refuse(code) => code != JournalAmbiguous
    case Answer(_) => true
    case Replay(prior, projection) => prior in records && prior.key == r.key && projection == ProjectionOf(prior)
    case Commit(fact, projection) => fact.key == r.key && Sound(records, fact) && projection == ProjectionOf(fact)
  }

  predicate Enveloped(r: Request) {
    && r.version == VersionOf(r.operation)
    && r.bodyDigest == BodyD(r.body)
    && r.key == IdempotencyD(BodyD(r.body), r.operation, r.version)
  }

  lemma KeyedIn(records: seq<Fact>, f: Fact)
    requires Valid(records) && f in records
    ensures Keyed(f)
  {
    var i :| 0 <= i < |records| && records[i] == f;
    ValidAt(records, i);
  }

  /** No record of this kind under the key means no record of any kind under it. */
  lemma KeyIsFresh(records: seq<Fact>, operation: Operation, key: Digest)
    requires Valid(records) && key.IdempotencyD? && key.operation == operation
    requires Select(records, OfKey(operation, key)) == []
    ensures KeyFresh(records, key)
  {
    forall g | g in records ensures g.key != key {
      KeyedIn(records, g);
      if g.key == key { SelectFinds(records, OfKey(operation, key), g); }
    }
  }

  lemma ReplayOrCommitInOrder(records: seq<Fact>, r: Request, fact: Fact)
    requires Valid(records) && Enveloped(r)
    requires fact.key == r.key && fact.bodyDigest == r.bodyDigest && OperationOf(fact) == r.operation
    requires Keyed(fact) && Grounds(records, fact)
    requires !fact.EvidenceFact? && !fact.VerdictFact? && !fact.ReconcileFact? && !fact.CancelFact?
    ensures InOrder(records, r, ReplayOrCommit(records, fact))
  {
    hide Grounds, Valid, Select;
    var q := OfKey(OperationOf(fact), fact.key);
    AtMostOne(records, q);
    var prior := Select(records, q);
    if prior == [] {
      KeyIsFresh(records, OperationOf(fact), fact.key);
    } else {
      KeyedIn(records, prior[0]);
      SameBodySameFact(prior[0], fact);
    }
  }

  /** Two facts of one kind under one key project to the same answer. */
  lemma SameBodySameFact(f: Fact, g: Fact)
    requires Keyed(f) && Keyed(g) && f.key == g.key
    requires !f.VerdictFact? && !f.ReconcileFact?
    ensures f == g
  {
  }

  lemma BindInOrder(records: seq<Fact>, r: Request, env: Env)
    requires Valid(records) && Enveloped(r) && r.operation == TaskBind
    ensures InOrder(records, r, PlanBind(records, r, env))
  {
    hide Valid, Select, ReplayOrCommit, Sound;
    if r.body.BindBody? && r.body.task.taskRevision >= 1 && r.body.taskDigest == TaskD(r.body.task) {
      ReplayOrCommitInOrder(records, r, TaskFact(r.key, r.bodyDigest, TaskD(r.body.task), r.body.task));
    }
  }

  lemma DispatchInOrder(records: seq<Fact>, r: Request, env: Env)
    requires Valid(records) && Enveloped(r) && r.operation == ProducerDispatch
    ensures InOrder(records, r, PlanDispatch(records, r, env))
  {
    hide Valid, Select, ReplayOrCommit, Sound;
    var plan := PlanDispatch(records, r, env);
    if r.body.ProducerBody? && r.body.producer.producerRole == "implementation"
       && r.body.producerDigest == ProducerD(r.body.producer) {
      var p := r.body.producer;
      AtMostOne(records, TaskNamed(p.taskBindingDigest));
      var tasks := Select(records, TaskNamed(p.taskBindingDigest));
      if |tasks| == 1 && tasks[0].task.authorityDigest == p.authorityDigest
         && tasks[0].task.executionProfileDigest == p.executionProfileDigest {
        ReplayOrCommitInOrder(records, r, ProducerFact(r.key, r.bodyDigest, ProducerD(p), p));
      }
    }
  }

  lemma FreezeInOrder(records: seq<Fact>, r: Request, env: Env)
    requires Valid(records) && Enveloped(r) && r.operation == SuiteFreeze
    ensures InOrder(records, r, PlanFreeze(records, r, env))
  {
    hide Valid, Select, ReplayOrCommit, Sound, SuiteWellFormed;
    if r.body.SuiteBody? && SuiteWellFormed(r.body.suite) && r.body.suiteDigest == SuiteD(r.body.suite) {
      var suite := r.body.suite;
      AtMostOne(records, TaskNamed(suite.taskBindingDigest));
      var tasks := Select(records, TaskNamed(suite.taskBindingDigest));
      if |tasks| == 1 && tasks[0].task.authorityDigest != suite.verifierAuthorityDigest {
        ReplayOrCommitInOrder(records, r, SuiteFact(r.key, r.bodyDigest, SuiteD(suite), suite));
      }
    }
  }

  lemma SuiteIn(records: seq<Fact>, s: Fact)
    requires Valid(records) && s in records && s.SuiteFact?
    ensures IdsSorted(s.suite.checks)
  {
    var i :| 0 <= i < |records| && records[i] == s;
    ValidAt(records, i);
  }

  predicate RanUnder(records: seq<Fact>, e: CheckExecution, s: Fact, t: Fact)
    requires s.SuiteFact? && t.TaskFact?
  {
    && CheckCount(s.suite.checks, e.checkDefinitionDigest) == 1
    && e.executionProfileDigest == t.task.executionProfileDigest
    && forall f :: f in records ==> !ProducedByVerifier(f, s.suite.taskBindingDigest, e)
  }

  lemma ExecutedInOrder(records: seq<Fact>, r: Request, s: Fact, t: Fact)
    requires Valid(records) && Enveloped(r) && r.operation == SuiteExecute && r.body.ExecuteBody?
    requires r.body.executionDigest == ExecutionD(r.body.execution)
    requires r.body.execution.verifierRole == "verification"
    requires r.body.execution.startedAt <= r.body.execution.finishedAt
    requires r.body.authority.cleanupProofDigest == CleanupD(r.body.authority.proof)
    requires !r.body.authority.proof.exitClass.ExitNone?
    requires ExecutionMatchesAuthority(r.body.execution, r.body.authority)
    requires s in records && t in records && Hits(SuiteNamed(r.body.execution.suiteDigest), s)
    requires Hits(TaskNamed(s.suite.taskBindingDigest), t) && RanUnder(records, r.body.execution, s, t)
    ensures var fact := ExecutionFact(r.key, r.bodyDigest, ExecutionD(r.body.execution), r.body.execution,
              r.body.authority);
            InOrder(records, r, ReplayOrCommit(records, fact))
  {
    hide Valid, Select, ReplayOrCommit, Sound, InOrder, ProducedByVerifier;
    assert ExecutionGrounded(records, r.body.execution);
    ReplayOrCommitInOrder(records, r, ExecutionFact(r.key, r.bodyDigest, ExecutionD(r.body.execution),
                                                    r.body.execution, r.body.authority));
  }

  lemma ExecuteInOrder(records: seq<Fact>, r: Request, env: Env)
    requires Valid(records) && Enveloped(r) && r.operation == SuiteExecute
    ensures InOrder(records, r, PlanExecute(records, r, env))
  {
    hide Valid, Select, ReplayOrCommit, SuiteWellFormed, Sound, ProducedByVerifier, CheckCount, IdsSorted;
    var plan := PlanExecute(records, r, env);
    if r.body.ExecuteBody? && records != [] {
      var e, a := r.body.execution, r.body.authority;
      AtMostOne(records, SuiteNamed(e.suiteDigest));
      var suites := Select(records, SuiteNamed(e.suiteDigest));
      if |suites| == 1 {
        var suite := suites[0].suite;
        SuiteIn(records, suites[0]);
        ChecksDistinct(suite.checks, e.checkDefinitionDigest);
        AtMostOne(records, TaskNamed(suite.taskBindingDigest));
        var tasks := Select(records, TaskNamed(suite.taskBindingDigest));
        if && e.verifierRole == "verification" && e.startedAt <= e.finishedAt
           && a.cleanupProofDigest == CleanupD(a.proof) && !a.proof.exitClass.ExitNone?
           && r.body.executionDigest == ExecutionD(e)
           && ExecutionMatchesAuthority(e, a) && |tasks| == 1 && RanUnder(records, e, suites[0], tasks[0])
        {
          ExecutedInOrder(records, r, suites[0], tasks[0]);
        }
      }
    }
  }

  lemma EvidenceFactInOrder(records: seq<Fact>, r: Request, fact: Fact)
    requires Valid(records) && Enveloped(r)
    requires fact.EvidenceFact? && fact.key == r.key && fact.bodyDigest == r.bodyDigest && r.operation == EvidenceAdmit
    requires Keyed(fact) && Grounds(records, fact)
    ensures InOrder(records, r, PlanEvidenceFact(records, fact))
  {
    hide Valid, Select, Grounds, EvidenceGrounded;
    var byId := EvidenceWithId(fact.evidence.evidenceId);
    AtMostOne(records, byId);
    AtMostOne(records, OfKey(EvidenceAdmit, fact.key));
    var prior := Select(records, OfKey(EvidenceAdmit, fact.key));
    if prior == [] {
      KeyIsFresh(records, EvidenceAdmit, fact.key);
      if Select(records, byId) == [] {
        forall g | g in records ensures !Hits(byId, g) {
          if Hits(byId, g) { SelectFinds(records, byId, g); }
        }
      }
    } else {
      KeyedIn(records, prior[0]);
      SameBodySameFact(prior[0], fact);
    }
  }

  lemma AdmittedInOrder(records: seq<Fact>, r: Request, t: Fact, p: Fact, s: Fact, x: Fact)
    requires Valid(records) && Enveloped(r) && r.operation == EvidenceAdmit && r.body.EvidenceBody?
    requires t in records && p in records && s in records && x in records
    requires Hits(TaskNamed(r.body.evidence.taskBindingDigest), t)
    requires Hits(ProducerNamed(r.body.evidence.producerBindingDigest), p)
    requires Hits(SuiteNamed(r.body.evidence.suiteDigest), s)
    requires Hits(ExecutionNamed(r.body.evidence.checkExecutionDigest), x)
    requires EvidenceAgrees(r.body.evidence, p, s, x)
    requires r.body.evidenceDigest == EvidenceD(r.body.evidence)
    requires r.body.evidence.subjectStateDigest == SubjectD(r.body.evidenceSubject)
    ensures var fact := EvidenceFact(r.key, r.bodyDigest, EvidenceD(r.body.evidence), r.body.evidence);
            InOrder(records, r, PlanEvidenceFact(records, fact))
  {
    hide Valid, Select, PlanEvidenceFact, Sound, Hits, EvidenceAgrees, InOrder;
    assert EvidenceGrounded(records, r.body.evidence);
    EvidenceFactInOrder(records, r, EvidenceFact(r.key, r.bodyDigest, EvidenceD(r.body.evidence), r.body.evidence));
  }

  lemma AdmitInOrder(records: seq<Fact>, r: Request, env: Env)
    requires Valid(records) && Enveloped(r) && r.operation == EvidenceAdmit
    ensures InOrder(records, r, PlanAdmit(records, r, env))
  {
    hide Valid, Select, PlanEvidenceFact, Sound, ProjectionOf;
    if r.body.EvidenceBody? && records != [] {
      var v := r.body.evidence;
      AtMostOne(records, TaskNamed(v.taskBindingDigest));
      AtMostOne(records, ProducerNamed(v.producerBindingDigest));
      AtMostOne(records, SuiteNamed(v.suiteDigest));
      AtMostOne(records, ExecutionNamed(v.checkExecutionDigest));
      var tasks := Select(records, TaskNamed(v.taskBindingDigest));
      var producers := Select(records, ProducerNamed(v.producerBindingDigest));
      var suites := Select(records, SuiteNamed(v.suiteDigest));
      var executions := Select(records, ExecutionNamed(v.checkExecutionDigest));
      if |tasks| == 1 && |producers| == 1 && |suites| == 1 && |executions| == 1 {
        if EvidenceAgrees(v, producers[0], suites[0], executions[0])
           && r.body.evidenceDigest == EvidenceD(v) && v.subjectStateDigest == SubjectD(r.body.evidenceSubject)
        {
          AdmittedInOrder(records, r, tasks[0], producers[0], suites[0], executions[0]);
        }
      }
    }
  }

  lemma EvaluateInOrder(records: seq<Fact>, r: Request, env: Env)
    requires Valid(records) && Enveloped(r) && r.operation == GateEvaluate
    ensures InOrder(records, r, PlanEvaluate(records, r, env))
  {
    hide Valid, Select, PlanVerdict, Sound, VerdictFactOf, GateWellFormed, CheckCount, RowsFor, Chain;
    AtMostOne(records, OfKey(GateEvaluate, r.key));
    if r.body.GateBody? {
      AtMostOne(records, TaskNamed(r.body.gate.taskBindingDigest));
      AtMostOne(records, SuiteNamed(r.body.gate.suiteDigest));
    }
    if GatePreflight(records, r, env).None? {
      var rows := RowsFor(records, r.body.gate);
      var fact := VerdictFactOf(records, r, rows);
      GateCommitSound(records, r, env);
    }
  }

  lemma GateCommitSound(records: seq<Fact>, r: Request, env: Env)
    requires Valid(records) && Enveloped(r) && r.operation == GateEvaluate
    requires GatePreflight(records, r, env).None?
    ensures var fact := VerdictFactOf(records, r, RowsFor(records, r.body.gate));
            InOrder(records, r, PlanVerdict(records, fact))
  {
    hide Valid, Select, RowsFor, SelectedEvidence, DecisionOf, Chain, GateWellFormed;
    var gate := r.body.gate;
    var fact := VerdictFactOf(records, r, RowsFor(records, gate));
    var byId := VerdictWithId(fact.verdict.verdictId);
    KeyIsFresh(records, GateEvaluate, r.key);
    var s := Select(records, SuiteNamed(gate.suiteDigest))[0];
    assert s in records && Hits(SuiteNamed(gate.suiteDigest), s);
    assert VerdictGrounded(records, fact, gate);
    if Select(records, byId) == [] {
      forall g | g in records ensures !Hits(byId, g) {
        if Hits(byId, g) { SelectFinds(records, byId, g); }
      }
    }
  }

  lemma RecoveryInOrder(records: seq<Fact>, r: Request, fact: Fact)
    requires Valid(records) && Enveloped(r)
    requires fact.key == r.key && OperationOf(fact) == r.operation && (fact.ReconcileFact? || fact.CancelFact?)
    requires Keyed(fact) && Grounds(records, fact)
    ensures InOrder(records, r, PlanRecovery(records, fact))
  {
    hide Valid, Select, Grounds;
    AtMostOne(records, OfKey(OperationOf(fact), fact.key));
    if Select(records, OfKey(OperationOf(fact), fact.key)) == [] { KeyIsFresh(records, OperationOf(fact), fact.key); }
  }

  /** The record under a reconciled key carries the target body: the key contains it. */
  lemma TargetMatches(records: seq<Fact>, x: ReconcileExpectation)
    requires Valid(records)
    requires x.targetIdempotencyKey == IdempotencyD(x.targetBodyDigest, x.targetOperation, VersionOf(x.targetOperation))
    ensures var same := Select(records, AnyKey(x.targetIdempotencyKey));
            |same| <= 1 && WithBody(same, x.targetBodyDigest) == same
  {
    AtMostOne(records, AnyKey(x.targetIdempotencyKey));
    var same := Select(records, AnyKey(x.targetIdempotencyKey));
    if same != [] { KeyedIn(records, same[0]); }
  }

  lemma ReconcileInOrder(records: seq<Fact>, r: Request, env: Env)
    requires Valid(records) && Enveloped(r) && r.operation == OperationReconcile
    ensures InOrder(records, r, PlanReconcile(records, r, env))
  {
    hide Valid, Select, PlanRecovery, Sound, WithBody, ProjectionOf;
    if r.body.ReconcileBody? && Reconcilable(r.body.reconcile.targetOperation)
       && r.body.reconcileDigest == ReconcileD(r.body.reconcile)
    {
      var x := r.body.reconcile;
      if x.targetIdempotencyKey == IdempotencyD(x.targetBodyDigest, x.targetOperation, VersionOf(x.targetOperation)) {
        TargetMatches(records, x);
        var same := Select(records, AnyKey(x.targetIdempotencyKey));
        var fact := ReconcileFactOf(r, same);
        if same == [] {
          forall g | g in records ensures g.key != x.targetIdempotencyKey {
            if g.key == x.targetIdempotencyKey { SelectFinds(records, AnyKey(x.targetIdempotencyKey), g); }
          }
        } else {
          assert same[0] in records && same[0].key == x.targetIdempotencyKey;
        }
        assert ReconcileGrounded(records, fact, x.targetIdempotencyKey);
        RecoveryInOrder(records, r, fact);
      }
    }
  }

  lemma CancelInOrder(records: seq<Fact>, r: Request, env: Env)
    requires Valid(records) && Enveloped(r) && r.operation == OperationCancel
    ensures InOrder(records, r, PlanCancel(records, r, env))
  {
    hide Valid, Select, PlanRecovery, Sound;
    if r.body.CancelBody? && r.body.cleanupStatus == "cleaned" {
      RecoveryInOrder(records, r, CancelFact(r.key, r.bodyDigest, r.body.cancellationRequestId,
                                             r.body.targetOperationId));
    }
  }

  lemma ReadInOrder(records: seq<Fact>, r: Request, env: Env)
    requires Valid(records)
    ensures InOrder(records, r, PlanRead(records, r, env))
  {
    hide Valid, Select, IsCurrent, RowsWellFormed, Chain;
    if r.body.ReadBody? {
      AtMostOne(records, VerdictWithId(r.body.read.verdictId));
      var matches := Select(records, VerdictWithId(r.body.read.verdictId));
      if |matches| == 1 { AtMostOne(records, TaskNamed(matches[0].verdict.taskBindingDigest)); }
    }
  }

  /** Every operation's plan is in order. */
  lemma PlanInOrder(records: seq<Fact>, r: Request, env: Env)
    requires Valid(records) && EnvelopeRefusal(r, env).None?
    ensures InOrder(records, r, PlanOf(records, r, env))
  {
    hide Valid, Sound, PlanBind, PlanDispatch, PlanFreeze, PlanExecute, PlanAdmit, PlanEvaluate, PlanRead,
      PlanReconcile, PlanCancel;
    match r.operation
    case TaskBind => BindInOrder(records, r, env);
    case ProducerDispatch => DispatchInOrder(records, r, env);
    case SuiteFreeze => FreezeInOrder(records, r, env);
    case SuiteExecute => ExecuteInOrder(records, r, env);
    case EvidenceAdmit => AdmitInOrder(records, r, env);
    case GateEvaluate => EvaluateInOrder(records, r, env);
    case VerdictRead => ReadInOrder(records, r, env);
    case OperationReconcile => ReconcileInOrder(records, r, env);
    case OperationCancel => CancelInOrder(records, r, env);
    case _ =>
  }

  lemma ValidAppend(records: seq<Fact>, fact: Fact)
    requires Valid(records) && Sound(records, fact)
    ensures Valid(records + [fact])
  {
    assert (records + [fact])[..|records|] == records;
  }

  /** A request keeps the journal valid, only ever extends it, and by at most one fact. */
  lemma {:induction false} HandleKeepsValid(records: seq<Fact>, r: Request, env: Env)
    requires Valid(records)
    ensures var after := Handle(records, r, env).records;
            Valid(after) && records <= after && |after| <= |records| + 1
  {
    if EnvelopeRefusal(r, env).None? {
      PlanInOrder(records, r, env);
      var plan := PlanOf(records, r, env);
      if plan.Commit? { ValidAppend(records, plan.fact); }
    }
  }

  /** Every journal reachable from the empty one is valid. */
  lemma {:induction false} ReachableIsValid(inputs: seq<Input>)
    ensures Valid(Run(inputs))
  {
    if inputs != [] {
      ReachableIsValid(inputs[..|inputs| - 1]);
      HandleKeepsValid(Run(inputs[..|inputs| - 1]), inputs[|inputs| - 1].request, inputs[|inputs| - 1].env);
    }
  }

  /** A longer run extends the journal of a shorter one. */
  lemma {:induction false} RunExtends(inputs: seq<Input>, more: seq<Input>)
    ensures Run(inputs) <= Run(inputs + more)
  {
    if more == [] {
      assert inputs + more == inputs;
    } else {
      var shorter := inputs + more[..|more| - 1];
      RunExtends(inputs, more[..|more| - 1]);
      assert (inputs + more)[..|inputs + more| - 1] == shorter;
      ReachableIsValid(shorter);
      var last := (inputs + more)[|inputs + more| - 1];
      HandleKeepsValid(Run(shorter), last.request, last.env);
    }
  }
}
