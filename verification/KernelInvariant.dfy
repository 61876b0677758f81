/**
 What every fact of a reachable journal satisfies with respect to the facts before it, and
 that every request keeps it so.
 */
module KernelInvariant {
  import opened Wrappers
  import opened KernelFacts
  import opened KernelPlan

  /** The request body that committed a fact, as far as its body digest fixes it. */
  predicate Carries(body: Body, f: Fact) {
    match f
    case TaskFact(_, _, d, task) => d == TaskD(task) && body == BindBody(task, d)
    case ProducerFact(_, _, d, producer) => d == ProducerD(producer) && body == ProducerBody(producer, d)
    case SuiteFact(_, _, d, suite) => d == SuiteD(suite) && body == SuiteBody(suite, d)
    case ExecutionFact(_, _, d, execution, authority) =>
      && d == ExecutionD(execution) && body == ExecuteBody(execution, d, authority)
      && execution.cleanupProofDigest == authority.cleanupProofDigest == CleanupD(authority.proof)
    case EvidenceFact(_, _, d, evidence) =>
      && d == EvidenceD(evidence) && body.EvidenceBody?
      && body == EvidenceBody(body.evidenceSubject, evidence, d)
      && evidence.subjectStateDigest == SubjectD(body.evidenceSubject)
    case VerdictFact(_, _, x, d, verdict, _, _, subject) =>
      && d == VerdictD(verdict) && body.GateBody?
      && body == GateBody(subject, body.gate, x) && x == GateEvaluationD(body.gate)
      && body.gate.subjectStateDigest == SubjectD(subject)
    case ReconcileFact(_, _, x, _, _) =>
      body.ReconcileBody? && body.reconcileDigest == x && x == ReconcileD(body.reconcile)
    case CancelFact(_, _, id, target) => body == CancelBody(id, "cleaned", target)
  }

  /** Body digest and idempotency key are the ones the envelope test demands. */
  predicate Keyed(f: Fact) {
    && f.bodyDigest.BodyD? && Carries(f.bodyDigest.body, f)
    && f.key == IdempotencyD(f.bodyDigest, OperationOf(f), VersionOf(OperationOf(f)))
  }

  predicate HasTask(prefix: seq<Fact>, digest: Digest, authority: Digest, profile: Digest) {
    exists t :: t in prefix && Hits(TaskNamed(digest), t)
                && t.task.authorityDigest == authority && t.task.executionProfileDigest == profile
  }

  /** The suite and task an execution ran under, and the separation of its verifier. */
  predicate ExecutionGrounded(prefix: seq<Fact>, execution: CheckExecution) {
    exists s, t :: && s in prefix && t in prefix
                   && Hits(SuiteNamed(execution.suiteDigest), s)
                   && Hits(TaskNamed(s.suite.taskBindingDigest), t)
                   && CheckCount(s.suite.checks, execution.checkDefinitionDigest) == 1
                   && execution.executionProfileDigest == t.task.executionProfileDigest
                   && (forall f :: f in prefix ==> !ProducedByVerifier(f, s.suite.taskBindingDigest, execution))
  }

  /** The four earlier facts one evidence manifest rests on, and their agreement with it. */
  predicate EvidenceGrounded(prefix: seq<Fact>, v: Evidence) {
    exists t, p, s, x ::
      && t in prefix && p in prefix && s in prefix && x in prefix
      && Hits(TaskNamed(v.taskBindingDigest), t)
      && Hits(ProducerNamed(v.producerBindingDigest), p)
      && Hits(SuiteNamed(v.suiteDigest), s)
      && Hits(ExecutionNamed(v.checkExecutionDigest), x)
      && EvidenceAgrees(v, p, s, x)
  }

  predicate EvidenceAgrees(v: Evidence, p: Fact, s: Fact, x: Fact) {
    && p.ProducerFact? && s.SuiteFact? && x.ExecutionFact?
    && p.producer.taskBindingDigest == v.taskBindingDigest
    && s.suite.taskBindingDigest == v.taskBindingDigest
    && s.suite.verifierAuthorityDigest == v.authorityDigest
    && x.execution.suiteDigest == v.suiteDigest
    && x.execution.checkDefinitionDigest == v.checkDefinitionDigest
    && x.execution.resultArtifactDigest == v.resultArtifactDigest
    && SubjectD(x.execution.subjectState) == v.subjectStateDigest
    && x.execution.outcome in {OutcomePass, OutcomeFail}
    && x.execution.finishedAt <= v.createdAt
  }

  /** A verdict is what the rows over exactly the earlier records decide. */
  predicate VerdictGrounded(prefix: seq<Fact>, f: Fact, gate: GateExpectation)
    requires f.VerdictFact?
  {
    var rows := RowsFor(prefix, gate);
    && GateWellFormed(gate)
    && f.gateRows == rows
    && f.verdict == VerdictOf(prefix, gate, rows)
    && f.evidenceDigests == SelectedEvidence(rows)
    && exists s :: s in prefix && Hits(SuiteNamed(gate.suiteDigest), s)
                   && s.suite.taskBindingDigest == gate.taskBindingDigest
                   && s.suite.gateCatalogDigest == gate.gateCatalogDigest
                   && s.suite.verifierAuthorityDigest == gate.authorityDigest
                   && forall q :: q in gate.requirements ==> CheckCount(s.suite.checks, q.checkDefinitionDigest) > 0
  }

  /** What a fact claims about the facts before it. */
  predicate Grounds(prefix: seq<Fact>, f: Fact) {
    match f
    case TaskFact(_, _, _, task) => task.taskRevision >= 1
    case ProducerFact(_, _, _, p) =>
      && p.producerRole == "implementation"
      && HasTask(prefix, p.taskBindingDigest, p.authorityDigest, p.executionProfileDigest)
    case SuiteFact(_, _, _, suite) =>
      && SuiteWellFormed(suite)
      && exists t :: t in prefix && Hits(TaskNamed(suite.taskBindingDigest), t)
                     && t.task.authorityDigest != suite.verifierAuthorityDigest
    case ExecutionFact(_, _, _, execution, authority) =>
      && ExecutionMatchesAuthority(execution, authority)
      && execution.verifierRole == "verification" && execution.startedAt <= execution.finishedAt
      && !authority.proof.exitClass.ExitNone?
      && ExecutionGrounded(prefix, execution)
    case EvidenceFact(_, _, _, evidence) => EvidenceGrounded(prefix, evidence)
    case VerdictFact(_, body, _, _, _, _, _, _) =>
      body.BodyD? && body.body.GateBody? && VerdictGrounded(prefix, f, body.body.gate)
    case ReconcileFact(_, body, _, _, _) =>
      && body.BodyD? && body.body.ReconcileBody? && Reconcilable(body.body.reconcile.targetOperation)
      && body.body.reconcile.targetIdempotencyKey
         == IdempotencyD(body.body.reconcile.targetBodyDigest, body.body.reconcile.targetOperation,
                         VersionOf(body.body.reconcile.targetOperation))
      && ReconcileGrounded(prefix, f, body.body.reconcile.targetIdempotencyKey)
    case CancelFact(_, _, _, _) => true
  }

  /** Acknowledged names the recorded target; absent means that no earlier fact has its key. */
  predicate ReconcileGrounded(prefix: seq<Fact>, f: Fact, target: Digest)
    requires f.ReconcileFact?
  {
    if f.outcome.Acknowledged?
    then exists g :: g in prefix && g.key == target && f.targetFactDigest == Some(FactD(g))
    else f.targetFactDigest == None && forall g :: g in prefix ==> g.key != target
  }

  predicate KeyFresh(prefix: seq<Fact>, key: Digest) {
    forall g :: g in prefix ==> g.key != key
  }

  /** No earlier fact carries the evidence id or the verdict id. */
  predicate IdFresh(prefix: seq<Fact>, f: Fact) {
    && (f.EvidenceFact? ==> forall g :: g in prefix ==> !Hits(EvidenceWithId(f.evidence.evidenceId), g))
    && (f.VerdictFact? ==> forall g :: g in prefix ==> !Hits(VerdictWithId(f.verdict.verdictId), g))
  }

  predicate Sound(prefix: seq<Fact>, f: Fact) {
    Keyed(f) && KeyFresh(prefix, f.key) && IdFresh(prefix, f) && Grounds(prefix, f)
  }

  /** Every fact was sound when it was appended. */
  predicate Valid(records: seq<Fact>) {
    records == [] || (Valid(records[..|records| - 1]) && Sound(records[..|records| - 1], records[|records| - 1]))
  }

  lemma {:induction false} ValidAt(records: seq<Fact>, i: nat)
    requires Valid(records) && i < |records|
    ensures Valid(records[..i]) && Sound(records[..i], records[i])
  {
    if i < |records| - 1 {
      ValidAt(records[..|records| - 1], i);
      assert records[..|records| - 1][..i] == records[..i];
    }
  }

  lemma ValidPrefix(records: seq<Fact>, limit: nat)
    requires Valid(records) && limit <= |records|
    ensures Valid(records[..limit])
  {
    if limit < |records| { ValidAt(records, limit); } else { assert records[..limit] == records; }
  }

  lemma KeyedAt(records: seq<Fact>, i: nat)
    requires Valid(records) && i < |records|
    ensures Keyed(records[i]) && KeyFresh(records[..i], records[i].key) && IdFresh(records[..i], records[i])
  {
    hide Keyed, KeyFresh, IdFresh, Grounds;
    ValidAt(records, i);
  }

  lemma GroundedAt(records: seq<Fact>, i: nat)
    requires Valid(records) && i < |records|
    ensures Grounds(records[..i], records[i])
  {
    hide Keyed, KeyFresh, IdFresh, Grounds;
    ValidAt(records, i);
  }

  lemma EvidenceGroundedAt(records: seq<Fact>, i: nat)
    requires Valid(records) && i < |records| && records[i].EvidenceFact?
    ensures EvidenceGrounded(records[..i], records[i].evidence)
  {
    hide EvidenceGrounded, Valid;
    GroundedAt(records, i);
  }

  lemma ExecutionGroundedAt(records: seq<Fact>, i: nat)
    requires Valid(records) && i < |records| && records[i].ExecutionFact?
    ensures ExecutionGrounded(records[..i], records[i].execution)
    ensures ExecutionMatchesAuthority(records[i].execution, records[i].authority)
  {
    hide ExecutionGrounded, ExecutionMatchesAuthority, Valid;
    GroundedAt(records, i);
  }

  lemma VerdictGroundedAt(records: seq<Fact>, i: nat)
    requires Valid(records) && i < |records| && records[i].VerdictFact?
    ensures records[i].bodyDigest.BodyD? && records[i].bodyDigest.body.GateBody?
    ensures VerdictGrounded(records[..i], records[i], records[i].bodyDigest.body.gate)
  {
    hide VerdictGrounded, Valid;
    GroundedAt(records, i);
  }

  // Selection ---------------------------------------------------------------------------

  predicate AtMostOneHit(records: seq<Fact>, q: Query) {
    forall i, j :: 0 <= i < j < |records| ==> !(Hits(q, records[i]) && Hits(q, records[j]))
  }

  lemma {:induction false} SelectNone(records: seq<Fact>, q: Query)
    requires forall f :: f in records ==> !Hits(q, f)
    ensures Select(records, q) == []
  {
    if records != [] { SelectNone(records[..|records| - 1], q); }
  }

  /** A record a query hits is among the selected ones. */
  lemma {:induction false} SelectFinds(records: seq<Fact>, q: Query, f: Fact)
    requires f in records && Hits(q, f)
    ensures f in Select(records, q)
  {
    if f != records[|records| - 1] { SelectFinds(records[..|records| - 1], q, f); }
  }

  lemma {:induction false} SelectUnique(records: seq<Fact>, q: Query)
    requires AtMostOneHit(records, q)
    ensures |Select(records, q)| <= 1
  {
    if records != [] {
      var init := records[..|records| - 1];
      SelectUnique(init, q);
      if Hits(q, records[|records| - 1]) {
        forall f | f in init ensures !Hits(q, f) {
          var i :| 0 <= i < |init| && init[i] == f;
          assert records[i] == f;
        }
        SelectNone(init, q);
      }
    }
  }

  /** With uniqueness, finding one hit determines the whole selection. */
  lemma SelectIs(records: seq<Fact>, q: Query, f: Fact)
    requires AtMostOneHit(records, q) && f in records && Hits(q, f)
    ensures Select(records, q) == [f]
  {
    SelectUnique(records, q);
    SelectFinds(records, q, f);
  }

  lemma {:induction false} SelectConcat(a: seq<Fact>, b: seq<Fact>, q: Query)
    ensures Select(a + b, q) == Select(a, q) + Select(b, q)
  {
    if b == [] {
      assert a + b == a;
    } else {
      SelectConcat(a, b[..|b| - 1], q);
      assert (a + b)[..|a + b| - 1] == a + b[..|b| - 1];
    }
  }

  // Uniqueness --------------------------------------------------------------------------

  /** No two facts of a valid journal share an idempotency key. */
  lemma KeysDiffer(records: seq<Fact>, i: nat, j: nat)
    requires Valid(records) && i < j < |records|
    ensures records[i].key != records[j].key
  {
    KeyedAt(records, j);
    assert records[i] == records[..j][i];
  }

  /** Same kind and same subject digest, evidence id or verdict id, once each. */
  predicate SharesSubject(f: Fact, g: Fact) {
    || (f.TaskFact? && g.TaskFact? && f.bindingDigest == g.bindingDigest)
    || (f.ProducerFact? && g.ProducerFact? && f.bindingDigest == g.bindingDigest)
    || (f.SuiteFact? && g.SuiteFact? && f.suiteDigest == g.suiteDigest)
    || (f.ExecutionFact? && g.ExecutionFact? && f.executionDigest == g.executionDigest)
    || (f.EvidenceFact? && g.EvidenceFact?
        && (f.evidenceDigest == g.evidenceDigest || f.evidence.evidenceId == g.evidence.evidenceId))
    || (f.VerdictFact? && g.VerdictFact?
        && (f.verdictDigest == g.verdictDigest || f.verdict.verdictId == g.verdict.verdictId))
  }

  /**
   The subject digest determines the body, hence the idempotency key. For an execution the
   process authority is outside the digest but inside the cleanup proof digest.
   */
  lemma SubjectDeterminesKey(f: Fact, g: Fact)
    requires Keyed(f) && Keyed(g)
    requires SharesSubject(f, g)
    requires f.EvidenceFact? ==> f.evidenceDigest == g.evidenceDigest
    requires !f.VerdictFact?
    ensures f.key == g.key
  {
  }

  /** A new evidence or verdict id excludes the subject digest too, which contains the id. */
  lemma IdsClash(prefix: seq<Fact>, f: Fact, g: Fact)
    requires Keyed(f) && Keyed(g) && f in prefix && IdFresh(prefix, g)
    requires f.EvidenceFact? || f.VerdictFact?
    ensures !SharesSubject(f, g)
  {
    if f.EvidenceFact? && g.EvidenceFact? {
      assert !Hits(EvidenceWithId(g.evidence.evidenceId), f);
      hide IdFresh, Hits;
    } else if f.VerdictFact? && g.VerdictFact? {
      assert !Hits(VerdictWithId(g.verdict.verdictId), f);
      hide IdFresh, Hits;
    }
  }

  lemma {:induction false} SubjectsClash(prefix: seq<Fact>, f: Fact, g: Fact)
    requires Keyed(f) && Keyed(g) && f in prefix && KeyFresh(prefix, g.key) && IdFresh(prefix, g)
    ensures !SharesSubject(f, g)
  {
    hide Keyed, IdFresh, SharesSubject;
    if f.EvidenceFact? || f.VerdictFact? {
      IdsClash(prefix, f, g);
    } else if SharesSubject(f, g) {
      SubjectDeterminesKey(f, g);
    }
  }

  lemma SubjectsDiffer(records: seq<Fact>, i: nat, j: nat)
    requires Valid(records) && i < j < |records|
    ensures !SharesSubject(records[i], records[j])
  {
    hide Keyed, KeyFresh, IdFresh, SharesSubject, Valid;
    KeyedAt(records, i);
    KeyedAt(records, j);
    assert records[i] == records[..j][i];
    SubjectsClash(records[..j], records[i], records[j]);
  }

  /** The lookups whose answer a valid journal makes unique. */
  predicate Identifying(q: Query) {
    !q.EvidenceFor?
  }

  lemma AtMostOne(records: seq<Fact>, q: Query)
    requires Valid(records) && Identifying(q)
    ensures AtMostOneHit(records, q)
    ensures |Select(records, q)| <= 1
  {
    forall i, j | 0 <= i < j < |records| ensures !(Hits(q, records[i]) && Hits(q, records[j])) {
      KeysDiffer(records, i, j);
      SubjectsDiffer(records, i, j);
    }
    SelectUnique(records, q);
  }

  /** A unique lookup that has an answer is exactly that answer. */
  lemma Lookup(records: seq<Fact>, q: Query, f: Fact)
    requires Valid(records) && Identifying(q)
    requires f in records && Hits(q, f)
    ensures Select(records, q) == [f]
  {
    AtMostOne(records, q);
    SelectIs(records, q, f);
  }

  // Check definitions of a suite ----------------------------------------------------------

  lemma {:induction false} PrecedesTransitive(a: string, b: string, c: string)
    requires Precedes(a, b) && Precedes(b, c)
    ensures Precedes(a, c)
  {
    if a != [] && a[0] == b[0] == c[0] { PrecedesTransitive(a[1..], b[1..], c[1..]); }
  }

  lemma {:induction false} PrecedesIrreflexive(a: string)
    ensures !Precedes(a, a)
  {
    if a != [] { PrecedesIrreflexive(a[1..]); }
  }

  predicate IdsSorted(checks: seq<CheckDefinition>) {
    forall i :: 0 <= i < |checks| - 1 ==> Precedes(checks[i].checkId, checks[i + 1].checkId)
  }

  lemma {:induction false} IdsOrdered(checks: seq<CheckDefinition>, i: nat, j: nat)
    requires IdsSorted(checks) && i < j < |checks|
    ensures Precedes(checks[i].checkId, checks[j].checkId)
    decreases j
  {
    if i < j - 1 {
      IdsOrdered(checks, i, j - 1);
      PrecedesTransitive(checks[i].checkId, checks[j - 1].checkId, checks[j].checkId);
    }
  }

  lemma {:induction false} NoSuchCheck(checks: seq<CheckDefinition>, digest: Digest)
    requires forall c :: c in checks ==> CheckD(c) != digest
    ensures CheckCount(checks, digest) == 0
  {
    if checks != [] { NoSuchCheck(checks[..|checks| - 1], digest); }
  }

  /** Sorted, distinct check ids: a definition digest names at most one check. */
  lemma {:induction false} ChecksDistinct(checks: seq<CheckDefinition>, digest: Digest)
    requires IdsSorted(checks)
    ensures CheckCount(checks, digest) <= 1
  {
    if checks != [] {
      var init := checks[..|checks| - 1];
      var last := checks[|checks| - 1];
      ChecksDistinct(init, digest);
      if CheckD(last) == digest {
        forall c | c in init ensures CheckD(c) != digest {
          var i :| 0 <= i < |init| && init[i] == c;
          IdsOrdered(checks, i, |checks| - 1);
          PrecedesIrreflexive(last.checkId);
        }
        NoSuchCheck(init, digest);
      }
    }
  }
}
