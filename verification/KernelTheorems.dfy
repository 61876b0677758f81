/** What holds of every journal the kernel can reach, over whole runs. */
module KernelTheorems {
  import opened Wrappers
  import opened KernelFacts
  import opened KernelPlan
  import opened KernelInvariant
  import opened KernelSteps

  // Uniqueness --------------------------------------------------------------------------

  /** No two facts of a reachable journal share a key, nor, within a kind, a subject or an id. */
  lemma {:induction false} FactsAreUnique(inputs: seq<Input>, i: nat, j: nat)
    requires i < j < |Run(inputs)|
    ensures Run(inputs)[i].key != Run(inputs)[j].key
    ensures !SharesSubject(Run(inputs)[i], Run(inputs)[j])
  {
    ReachableIsValid(inputs);
    KeysDiffer(Run(inputs), i, j);
    SubjectsDiffer(Run(inputs), i, j);
  }

  /** No run can bring the kernel to refuse with an ambiguous journal. */
  lemma {:induction false} NeverAmbiguous(inputs: seq<Input>, r: Request, env: Env)
    ensures Handle(Run(inputs), r, env).reply != Refused(JournalAmbiguous)
  {
    ReachableIsValid(inputs);
    if EnvelopeRefusal(r, env).None? { PlanInOrder(Run(inputs), r, env); }
  }

  // Soundness of a verdict ----------------------------------------------------------------

  /** The decision is exactly the lattice of the rows. */
  lemma {:induction false} DecisionIsLattice(records: seq<Fact>, v: nat)
    requires Valid(records) && v < |records| && records[v].VerdictFact?
    ensures var f := records[v];
      && f.gateRows != []
      && (f.verdict.decision == Blocked <==> exists k :: 0 <= k < |f.gateRows| && f.gateRows[k].result == RowBlocked)
      && (f.verdict.decision == Pass <==> forall k :: 0 <= k < |f.gateRows| ==> f.gateRows[k].result == RowPass)
      && f.verdict.journalSequence == v
      && f.verdict.journalRootDigest == Chain(records[..v])
  {
    hide Valid, RowFor, SelectedEvidence, Chain, Hits, CheckCount;
    VerdictGroundedAt(records, v);
    var f := records[v];
    LatticeOf(f.gateRows);
  }

  lemma LatticeOf(rows: seq<GateRow>)
    ensures DecisionOf(rows) == Blocked <==> exists k :: 0 <= k < |rows| && rows[k].result == RowBlocked
    ensures DecisionOf(rows) == Pass <==> forall k :: 0 <= k < |rows| ==> rows[k].result == RowPass
  {
    if AnyRow(rows, RowBlocked) {
      var row :| row in rows && row.result == RowBlocked;
      var k :| 0 <= k < |rows| && rows[k] == row;
    } else if AnyRow(rows, RowFail) {
      var row :| row in rows && row.result == RowFail;
      var k :| 0 <= k < |rows| && rows[k] == row;
    } else {
      forall k | 0 <= k < |rows| ensures rows[k].result == RowPass { assert rows[k] in rows; }
    }
  }

  /** The execution an evidence fact rests on is recorded before it, and is the only one of its digest. */
  lemma {:induction false} EvidenceRestsOnExecution(records: seq<Fact>, i: nat) returns (j: nat)
    requires Valid(records) && i < |records| && records[i].EvidenceFact?
    ensures j < i && records[j].ExecutionFact?
    ensures records[j].executionDigest == records[i].evidence.checkExecutionDigest
    ensures records[j].execution.resultArtifactDigest == records[i].evidence.resultArtifactDigest
    ensures records[j].execution.outcome in {OutcomePass, OutcomeFail}
    ensures records[j].execution.suiteDigest == records[i].evidence.suiteDigest
    ensures records[j].execution.checkDefinitionDigest == records[i].evidence.checkDefinitionDigest
    ensures SubjectD(records[j].execution.subjectState) == records[i].evidence.subjectStateDigest
    ensures Select(records, ExecutionNamed(records[i].evidence.checkExecutionDigest)) == [records[j]]
  {
    hide Valid;
    var prefix, v := records[..i], records[i].evidence;
    EvidenceGroundedAt(records, i);
    var t, p, s, x :| && t in prefix && p in prefix && s in prefix && x in prefix
                      && Hits(TaskNamed(v.taskBindingDigest), t) && Hits(ProducerNamed(v.producerBindingDigest), p)
                      && Hits(SuiteNamed(v.suiteDigest), s) && Hits(ExecutionNamed(v.checkExecutionDigest), x)
                      && EvidenceAgrees(v, p, s, x);
    j :| 0 <= j < i && prefix[j] == x;
    Lookup(records, ExecutionNamed(v.checkExecutionDigest), records[j]);
  }

  /** The gate expectation a verdict fact was computed for. */
  function GateOf(f: Fact): GateExpectation
    requires f.bodyDigest.BodyD? && f.bodyDigest.body.GateBody?
  {
    f.bodyDigest.body.gate
  }

  /**
   In a valid journal a row is blocked only because the requirement does not have exactly one
   evidence fact; the execution and artifact tests of the adapter never block it.
   */
  lemma {:induction false} RowIsDecided(records: seq<Fact>, gate: GateExpectation, q: Requirement)
    requires Valid(records)
    ensures var matches := Select(records, EvidenceFor(gate, q));
            RowFor(records, gate, q).result == RowBlocked <==> |matches| != 1
  {
    hide Valid;
    var matches := Select(records, EvidenceFor(gate, q));
    if |matches| == 1 {
      var i :| 0 <= i < |records| && records[i] == matches[0];
      var j := EvidenceRestsOnExecution(records, i);
    }
  }

  /** One selected record: exactly one index hits. */
  lemma {:induction false} SelectedIndex(records: seq<Fact>, q: Query) returns (i: nat)
    requires |Select(records, q)| == 1
    ensures i < |records| && records[i] == Select(records, q)[0] && Hits(q, records[i])
    ensures forall k :: 0 <= k < |records| && k != i ==> !Hits(q, records[k])
  {
    var n := |records| - 1;
    var init := records[..n];
    if Hits(q, records[n]) {
      i := n;
      forall k | 0 <= k < n ensures !Hits(q, records[k]) {
        assert records[k] == init[k];
        if Hits(q, init[k]) { SelectFinds(init, q, init[k]); }
      }
    } else {
      i := SelectedIndex(init, q);
      forall k | 0 <= k < |records| && k != i ensures !Hits(q, records[k]) {
        if k < n { assert records[k] == init[k]; }
      }
    }
  }

  /** The one evidence fact, at index `i`, behind row `k` of the verdict at index `v`. */
  predicate RowEvidence(records: seq<Fact>, v: nat, k: nat, i: nat)
    requires i < v < |records| && records[v].VerdictFact? && k < |records[v].gateRows|
    requires records[v].bodyDigest.BodyD? && records[v].bodyDigest.body.GateBody?
  {
    var row := records[v].gateRows[k];
    var q := EvidenceFor(GateOf(records[v]), row.requirement);
    && Hits(q, records[i])
    && (forall other :: 0 <= other < v && other != i ==> !Hits(q, records[other]))
    && row.evidenceDigest == Some(records[i].evidenceDigest)
    && row.producerBindingDigest == Some(records[i].evidence.producerBindingDigest)
  }

  /** The execution, at index `j`, that evidence rests on, and everything a pass says about it. */
  predicate PassingExecution(records: seq<Fact>, verdict: Verdict, gate: GateExpectation, v: Evidence, j: nat)
    requires j < |records|
  {
    var x := records[j];
    && x.ExecutionFact? && x.executionDigest == v.checkExecutionDigest
    && (forall other :: 0 <= other < |records| && other != j ==>
          !Hits(ExecutionNamed(x.executionDigest), records[other]))
    && x.execution.outcome == OutcomePass
    && x.authority.proof.exitClass == ExitZero && x.authority.proof.operationState == Completed
    && SubjectD(x.execution.subjectState) == verdict.subjectStateDigest
    && x.execution.suiteDigest == gate.suiteDigest
    && x.execution.checkDefinitionDigest == v.checkDefinitionDigest
    && x.execution.resultArtifactDigest == v.resultArtifactDigest
    && SeparatelyVerified(records[..j], x.execution, verdict.taskBindingDigest, verdict.authorityDigest)
  }

  /**
   The check is one check of a frozen suite of the task and verifier authority, and the
   verifier is none of the producers dispatched for the task before the execution.
   */
  predicate SeparatelyVerified(prefix: seq<Fact>, x: CheckExecution, task: Digest, authority: Digest) {
    exists s :: && s in prefix && Hits(SuiteNamed(x.suiteDigest), s)
                && s.suite.taskBindingDigest == task && s.suite.verifierAuthorityDigest == authority
                && CheckCount(s.suite.checks, x.checkDefinitionDigest) == 1
                && forall p :: p in prefix && p.ProducerFact? && p.producer.taskBindingDigest == task ==>
                     p.producer.producerId != x.verifierId
                       && p.producer.adapterArtifactDigest != x.verifierArtifactDigest
  }

  lemma {:induction false} VerifierIsSeparate(records: seq<Fact>, i: nat, j: nat)
    requires Valid(records) && j < i < |records|
    requires records[i].EvidenceFact? && records[j].ExecutionFact?
    requires records[j].execution.suiteDigest == records[i].evidence.suiteDigest
    ensures SeparatelyVerified(records[..j], records[j].execution, records[i].evidence.taskBindingDigest,
                               records[i].evidence.authorityDigest)
  {
    hide Valid;
    EvidenceGroundedAt(records, i);
    ExecutionGroundedAt(records, j);
    var v, x := records[i].evidence, records[j].execution;
    var s, t :| && s in records[..j] && t in records[..j] && Hits(SuiteNamed(x.suiteDigest), s)
                && Hits(TaskNamed(s.suite.taskBindingDigest), t)
                && CheckCount(s.suite.checks, x.checkDefinitionDigest) == 1
                && x.executionProfileDigest == t.task.executionProfileDigest
                && (forall f :: f in records[..j] ==> !ProducedByVerifier(f, s.suite.taskBindingDigest, x));
    var t', p', s', x' :| && t' in records[..i] && p' in records[..i] && s' in records[..i] && x' in records[..i]
                      && Hits(TaskNamed(v.taskBindingDigest), t') && Hits(ProducerNamed(v.producerBindingDigest), p')
                      && Hits(SuiteNamed(v.suiteDigest), s') && Hits(ExecutionNamed(v.checkExecutionDigest), x')
                      && EvidenceAgrees(v, p', s', x');
    assert s in records && s' in records;
    Lookup(records, SuiteNamed(x.suiteDigest), s);
    Lookup(records, SuiteNamed(x.suiteDigest), s');
    assert s == s';
  }

  /** The evidence and the execution behind a passing row. */
  lemma PassingRow(records: seq<Fact>, gate: GateExpectation, q: Requirement) returns (i: nat, j: nat)
    requires Valid(records) && RowFor(records, gate, q).result == RowPass
    ensures j < i < |records| && Hits(EvidenceFor(gate, q), records[i])
    ensures forall other :: 0 <= other < |records| && other != i ==> !Hits(EvidenceFor(gate, q), records[other])
    ensures RowFor(records, gate, q).evidenceDigest == Some(records[i].evidenceDigest)
    ensures RowFor(records, gate, q).producerBindingDigest == Some(records[i].evidence.producerBindingDigest)
    ensures records[j].ExecutionFact? && records[j].executionDigest == records[i].evidence.checkExecutionDigest
    ensures records[j].execution.outcome == OutcomePass
    ensures records[j].execution.suiteDigest == gate.suiteDigest
    ensures records[j].execution.checkDefinitionDigest == records[i].evidence.checkDefinitionDigest
    ensures records[j].execution.resultArtifactDigest == records[i].evidence.resultArtifactDigest
    ensures SubjectD(records[j].execution.subjectState) == gate.subjectStateDigest
  {
    hide Valid;
    i := SelectedIndex(records, EvidenceFor(gate, q));
    j := EvidenceRestsOnExecution(records, i);
  }

  /** A completed execution whose outcome is pass is one whose process exited with status zero. */
  lemma PassingProcess(records: seq<Fact>, j: nat)
    requires Valid(records) && j < |records| && records[j].ExecutionFact?
    requires records[j].execution.outcome == OutcomePass
    ensures records[j].authority.proof.exitClass == ExitZero
    ensures records[j].authority.proof.operationState == Completed
    ensures forall other :: 0 <= other < |records| && other != j
              ==> !Hits(ExecutionNamed(records[j].executionDigest), records[other])
  {
    hide Valid, ExecutionGrounded;
    ExecutionGroundedAt(records, j);
    AtMostOne(records, ExecutionNamed(records[j].executionDigest));
    assert Hits(ExecutionNamed(records[j].executionDigest), records[j]);
  }

  /**
   A passing verdict is backed, row by row, by exactly one earlier evidence fact and by a
   still earlier, unique execution that completed with exit status zero.
   */
  lemma {:induction false} PassIsBacked(records: seq<Fact>, v: nat, k: nat) returns (i: nat, j: nat)
    requires Valid(records) && v < |records| && records[v].VerdictFact?
    requires records[v].verdict.decision == Pass && k < |records[v].gateRows|
    ensures records[v].bodyDigest.BodyD? && records[v].bodyDigest.body.GateBody?
    ensures j < i < v && RowEvidence(records, v, k, i)
    ensures PassingExecution(records, records[v].verdict, GateOf(records[v]), records[i].evidence, j)
  {
    hide Valid, SeparatelyVerified, Chain, SelectedEvidence, CheckCount, RowFor, DecisionOf, Hits, GateWellFormed;
    VerdictGroundedAt(records, v);
    DecisionIsLattice(records, v);
    var prefix, gate := records[..v], GateOf(records[v]);
    var q := gate.requirements[k];
    assert records[v].gateRows[k] == RowFor(prefix, gate, q);
    RowRequirement(prefix, gate, q);
    ValidPrefix(records, v);
    i, j := PassingRow(prefix, gate, q);
    assert prefix[i] == records[i] && prefix[j] == records[j];
    forall other | 0 <= other < v && other != i ensures !Hits(EvidenceFor(gate, q), records[other]) {
      assert prefix[other] == records[other];
    }
    EvidenceHit(gate, q, records[i]);
    PassingProcess(records, j);
    VerifierIsSeparate(records, i, j);
  }

  lemma RowRequirement(records: seq<Fact>, gate: GateExpectation, q: Requirement)
    ensures RowFor(records, gate, q).requirement == q
  {
  }

  lemma EvidenceHit(gate: GateExpectation, q: Requirement, f: Fact)
    requires Hits(EvidenceFor(gate, q), f)
    ensures f.EvidenceFact? && f.evidence.suiteDigest == gate.suiteDigest
    ensures f.evidence.taskBindingDigest == gate.taskBindingDigest && f.evidence.authorityDigest == gate.authorityDigest
  {
  }
}
