/**
 How the evidence kernel decides one request against the journal.

 Each operation of the adapter validates the request against every earlier fact and then
 appends at most one fact. The decision is a pure `Plan`; `Settle` is what carrying it out does
 to the journal. Refusals are tested in the order the adapter tests them. An empty journal
 stands for a journal file that does not exist yet.
 */
module KernelPlan {
  import opened Wrappers
  import opened KernelFacts

  datatype Plan =
    | Refuse(code: Code)
    | Answer(projection: Projection)
    | Replay(prior: Fact, projection: Projection)
    | Commit(fact: Fact, projection: Projection)

  /** A replay answers from a record that is in the journal. */
  predicate Grounded(records: seq<Fact>, plan: Plan) {
    plan.Replay? ==> plan.prior in records
  }

  datatype Step = Step(reply: Reply, records: seq<Fact>)

  /** The journal lookups, one constructor for each list comprehension over the records. */
  datatype Query =
    | OfKey(operation: Operation, key: Digest)
    | AnyKey(key: Digest)
    | TaskNamed(digest: Digest)
    | ProducerNamed(digest: Digest)
    | SuiteNamed(digest: Digest)
    | ExecutionNamed(digest: Digest)
    | EvidenceWithId(id: Id)
    | VerdictWithId(id: Id)
    | EvidenceFor(gate: GateExpectation, requirement: Requirement)

  predicate Hits(q: Query, f: Fact) {
    match q
    case OfKey(operation, key) => OperationOf(f) == operation && f.key == key
    case AnyKey(key) => f.key == key
    case TaskNamed(digest) => f.TaskFact? && f.bindingDigest == digest
    case ProducerNamed(digest) => f.ProducerFact? && f.bindingDigest == digest
    case SuiteNamed(digest) => f.SuiteFact? && f.suiteDigest == digest
    case ExecutionNamed(digest) => f.ExecutionFact? && f.executionDigest == digest
    case EvidenceWithId(id) => f.EvidenceFact? && f.evidence.evidenceId == id
    case VerdictWithId(id) => f.VerdictFact? && f.verdict.verdictId == id
    case EvidenceFor(gate, requirement) =>
      && f.EvidenceFact?
      && f.evidence.claimType == requirement.claimType
      && f.evidence.checkDefinitionDigest == requirement.checkDefinitionDigest
      && f.evidence.taskBindingDigest == gate.taskBindingDigest
      && f.evidence.suiteDigest == gate.suiteDigest
      && f.evidence.subjectStateDigest == gate.subjectStateDigest
      && f.evidence.authorityDigest == gate.authorityDigest
      && f.evidence.ranexProvenanceDigest == gate.ranexProvenanceDigest
  }

  /** The records a query hits, in journal order. */
  function Select(records: seq<Fact>, q: Query): (hits: seq<Fact>)
    ensures forall i :: 0 <= i < |hits| ==> Hits(q, hits[i]) && hits[i] in records
  {
    if records == [] then []
    else Select(records[..|records| - 1], q)
         + if Hits(q, records[|records| - 1]) then [records[|records| - 1]] else []
  }

  /** The hash chain over the records, from the all-zero root. */
  function Chain(records: seq<Fact>): Digest {
    if records == [] then Genesis
    else Link(Chain(records[..|records| - 1]), records[|records| - 1])
  }

  /** The index `list.index` finds: the first record equal to `f`. */
  function FirstIndex(records: seq<Fact>, f: Fact): (i: nat)
    requires f in records
    ensures i < |records| && records[i] == f
    ensures forall j :: 0 <= j < i ==> records[j] != f
  {
    if records[0] == f then 0 else
      assert f in records[1..];
      1 + FirstIndex(records[1..], f)
  }

  function PositionAt(records: seq<Fact>, limit: nat): Position
    requires limit <= |records|
  {
    Position(limit, Chain(records[..limit]))
  }

  /** Carrying out a plan: append and answer, answer from the record, or refuse. */
  function Settle(records: seq<Fact>, plan: Plan): Step
    requires Grounded(records, plan)
  {
    match plan
    case Refuse(code) => Step(Refused(code), records)
    case Answer(projection) => Step(Done(projection, None), records)
    case Replay(prior, projection) =>
      Step(Done(projection, Some(PositionAt(records, FirstIndex(records, prior) + 1))), records)
    case Commit(fact, projection) =>
      Step(Done(projection, Some(PositionAt(records + [fact], |records| + 1))), records + [fact])
  }

  /** The idempotency rule every journaling operation but the gate and recovery ones share. */
  function ReplayOrCommit(records: seq<Fact>, fact: Fact): (plan: Plan)
    ensures Grounded(records, plan) && !plan.Answer?
  {
    var prior := Select(records, OfKey(OperationOf(fact), fact.key));
    if |prior| > 1 then Refuse(JournalAmbiguous)
    else if |prior| == 1 then
      if prior[0].bodyDigest != fact.bodyDigest || !SameSubject(prior[0], fact) then Refuse(IdempotencyConflict)
      else Replay(prior[0], ProjectionOf(fact))
    else Commit(fact, ProjectionOf(fact))
  }

  /** Both facts name the same subject digest. */
  predicate SameSubject(prior: Fact, fact: Fact) {
    match fact
    case TaskFact(_, _, d, _) => prior.TaskFact? && prior.bindingDigest == d
    case ProducerFact(_, _, d, _) => prior.ProducerFact? && prior.bindingDigest == d
    case SuiteFact(_, _, d, _) => prior.SuiteFact? && prior.suiteDigest == d
    case ExecutionFact(_, _, d, _, _) => prior.ExecutionFact? && prior.executionDigest == d
    case EvidenceFact(_, _, d, _) => prior.EvidenceFact? && prior.evidenceDigest == d
    case _ => prior == fact
  }

  // task.bind ---------------------------------------------------------------------------

  function PlanBind(records: seq<Fact>, r: Request, env: Env): (plan: Plan)
    ensures Grounded(records, plan)
  {
    if !r.body.BindBody? then Refuse(TaskBindingMismatch)
    else
      var task := r.body.task;
      if task.taskRevision < 1 then Refuse(TaskBindingMismatch)
      else if task.expiresAt <= env.now then Refuse(AuthorityInvalid)
      else if r.body.taskDigest != TaskD(task) then Refuse(TaskBindingMismatch)
      else ReplayOrCommit(records, TaskFact(r.key, r.bodyDigest, TaskD(task), task))
  }

  // producer.dispatch -------------------------------------------------------------------

  function PlanDispatch(records: seq<Fact>, r: Request, env: Env): (plan: Plan)
    ensures Grounded(records, plan)
  {
    if !r.body.ProducerBody? || r.body.producer.producerRole != "implementation" then Refuse(ProducerInvalid)
    else
      var producer := r.body.producer;
      if r.body.producerDigest != ProducerD(producer) then Refuse(ProducerInvalid)
      else if records == [] then Refuse(JournalIntegrity)
      else
        var tasks := Select(records, TaskNamed(producer.taskBindingDigest));
        if |tasks| != 1 then Refuse(if tasks == [] then TaskBindingMismatch else JournalAmbiguous)
        else if tasks[0].task.authorityDigest != producer.authorityDigest
                || tasks[0].task.executionProfileDigest != producer.executionProfileDigest
        then Refuse(AuthorityInvalid)
        else ReplayOrCommit(records, ProducerFact(r.key, r.bodyDigest, ProducerD(producer), producer))
  }

  // suite.freeze ------------------------------------------------------------------------

  /** Lexicographic order on check identifiers. */
  predicate Precedes(a: string, b: string) {
    b != [] && (a == [] || a[0] < b[0] || (a[0] == b[0] && Precedes(a[1..], b[1..])))
  }

  predicate SuiteWellFormed(suite: FrozenSuite) {
    && suite.suiteRevision >= 1
    && suite.subjectPolicy == "exact-commit"
    && 1 <= |suite.checks| <= 64
    && (forall c :: c in suite.checks ==> 1 <= c.timeoutMs <= 900000)
    && (forall i :: 0 <= i < |suite.checks| - 1 ==> Precedes(suite.checks[i].checkId, suite.checks[i + 1].checkId))
    && suite.manifestDigest == SuiteManifestD(suite.checks, suite.gateCatalogDigest, suite.subjectPolicy,
                                              suite.taskBindingDigest, suite.verifierAuthorityDigest)
  }

  function PlanFreeze(records: seq<Fact>, r: Request, env: Env): (plan: Plan)
    ensures Grounded(records, plan)
  {
    if !r.body.SuiteBody? || !SuiteWellFormed(r.body.suite) then Refuse(SuiteMismatch)
    else
      var suite := r.body.suite;
      if r.body.suiteDigest != SuiteD(suite) then Refuse(SuiteMismatch)
      else if records == [] then Refuse(JournalIntegrity)
      else
        var tasks := Select(records, TaskNamed(suite.taskBindingDigest));
        if |tasks| != 1 then Refuse(if tasks == [] then TaskBindingMismatch else JournalAmbiguous)
        else if tasks[0].task.authorityDigest == suite.verifierAuthorityDigest
        then Refuse(RoleSeparationFailed)
        else ReplayOrCommit(records, SuiteFact(r.key, r.bodyDigest, SuiteD(suite), suite))
  }

  // suite.execute -----------------------------------------------------------------------

  /** The outcome a process end state stands for. */
  function ExpectedOutcome(proof: ProcessProof): CheckOutcome {
    if proof.operationState == TimedOut then OutcomeTimeout
    else if proof.operationState == Cancelled then OutcomeCancelled
    else if proof.exitClass == ExitZero && proof.operationState == Completed then OutcomePass
    else if proof.exitClass == ExitNonzero then OutcomeFail
    else OutcomeInfrastructure
  }

  /** The execution says about the process exactly what its authority says. */
  predicate ExecutionMatchesAuthority(e: CheckExecution, a: ProcessAuthority) {
    var p := a.proof;
    && e.processRegistrationId == p.processRegistrationId
    && e.startedAt == p.startedAt && e.finishedAt == p.finishedAt
    && e.exitClass == p.exitClass && e.outcome == ExpectedOutcome(p)
    && e.cleanupProofDigest == a.cleanupProofDigest && e.suiteDigest == p.suiteDigest
    && e.checkDefinitionDigest == p.checkDefinitionDigest
    && SubjectD(e.subjectState) == p.subjectStateDigest
    && e.verifierId == p.verifierId && e.verifierArtifactDigest == p.verifierArtifactDigest
    && e.executionProfileDigest == p.executionProfileDigest
    && e.resultArtifactDigest == p.resultArtifactDigest
  }

  /** How many checks of a suite carry this definition digest. */
  function CheckCount(checks: seq<CheckDefinition>, digest: Digest): nat {
    if checks == [] then 0
    else CheckCount(checks[..|checks| - 1], digest)
         + if CheckD(checks[|checks| - 1]) == digest then 1 else 0
  }

  /** A producer of the task that is the verifier, by identity or by artifact. */
  predicate ProducedByVerifier(f: Fact, taskDigest: Digest, e: CheckExecution) {
    && f.ProducerFact? && f.producer.taskBindingDigest == taskDigest
    && (f.producer.producerId == e.verifierId || f.producer.adapterArtifactDigest == e.verifierArtifactDigest)
  }

  function PlanExecute(records: seq<Fact>, r: Request, env: Env): (plan: Plan)
    ensures Grounded(records, plan)
  {
    if !r.body.ExecuteBody? then Refuse(CheckInfrastructure)
    else
      var e := r.body.execution;
      var a := r.body.authority;
      if e.verifierRole != "verification" || e.finishedAt < e.startedAt then Refuse(CheckInfrastructure)
      else if a.cleanupProofDigest != CleanupD(a.proof) || a.proof.exitClass.ExitNone? then Refuse(AuthorityInvalid)
      else if r.body.executionDigest != ExecutionD(e) then Refuse(CheckInfrastructure)
      else if !ExecutionMatchesAuthority(e, a) then Refuse(AuthorityInvalid)
      else if records == [] then Refuse(JournalIntegrity)
      else
        var suites := Select(records, SuiteNamed(e.suiteDigest));
        if |suites| != 1 then Refuse(if suites == [] then SuiteMismatch else JournalAmbiguous)
        else
          var suite := suites[0].suite;
          var checks := CheckCount(suite.checks, e.checkDefinitionDigest);
          if checks != 1 then Refuse(if checks == 0 then SuiteMismatch else JournalAmbiguous)
          else
            var tasks := Select(records, TaskNamed(suite.taskBindingDigest));
            if |tasks| != 1 then Refuse(if tasks == [] then TaskBindingMismatch else JournalAmbiguous)
            else if e.executionProfileDigest != tasks[0].task.executionProfileDigest then Refuse(AuthorityInvalid)
            else if exists f :: f in records && ProducedByVerifier(f, suite.taskBindingDigest, e)
            then Refuse(RoleSeparationFailed)
            else ReplayOrCommit(records, ExecutionFact(r.key, r.bodyDigest, ExecutionD(e), e, a))
  }

  // evidence.admit ----------------------------------------------------------------------

  function PlanAdmit(records: seq<Fact>, r: Request, env: Env): (plan: Plan)
    ensures Grounded(records, plan)
  {
    if !r.body.EvidenceBody? then Refuse(EvidenceInvalid)
    else
      var v := r.body.evidence;
      if r.body.evidenceDigest != EvidenceD(v) || v.subjectStateDigest != SubjectD(r.body.evidenceSubject)
      then Refuse(SubjectStale)
      else if v.ranexProvenanceDigest != Provenance(env) then Refuse(ProvenanceMismatch)
      else if records == [] then Refuse(JournalIntegrity)
      else
        var tasks := Select(records, TaskNamed(v.taskBindingDigest));
        var producers := Select(records, ProducerNamed(v.producerBindingDigest));
        var suites := Select(records, SuiteNamed(v.suiteDigest));
        var executions := Select(records, ExecutionNamed(v.checkExecutionDigest));
        if |tasks| > 1 || |producers| > 1 || |suites| > 1 || |executions| > 1 then Refuse(JournalAmbiguous)
        else if |tasks| != 1 || |producers| != 1 || |suites| != 1 || |executions| != 1 then Refuse(EvidenceMissing)
        else
          var producer := producers[0].producer;
          var suite := suites[0].suite;
          var execution := executions[0].execution;
          if producer.taskBindingDigest != v.taskBindingDigest || suite.taskBindingDigest != v.taskBindingDigest
          then Refuse(EvidenceConflict)
          else if execution.suiteDigest != v.suiteDigest || execution.checkDefinitionDigest != v.checkDefinitionDigest
          then Refuse(EvidenceConflict)
          else if execution.resultArtifactDigest != v.resultArtifactDigest
                  || SubjectD(execution.subjectState) != v.subjectStateDigest
          then Refuse(EvidenceStale)
          else if suite.verifierAuthorityDigest != v.authorityDigest
                  || (execution.outcome != OutcomePass && execution.outcome != OutcomeFail)
          then Refuse(EvidenceInvalid)
          else if v.createdAt < execution.finishedAt || v.createdAt > env.now + 5000 then Refuse(EvidenceStale)
          else PlanEvidenceFact(records, EvidenceFact(r.key, r.bodyDigest, EvidenceD(v), v))
  }

  /** The identity and replay tests of an evidence fact whose references already hold. */
  function PlanEvidenceFact(records: seq<Fact>, fact: Fact): (plan: Plan)
    requires fact.EvidenceFact?
    ensures Grounded(records, plan) && !plan.Answer?
  {
    var sameId := Select(records, EvidenceWithId(fact.evidence.evidenceId));
    var prior := Select(records, OfKey(EvidenceAdmit, fact.key));
    if exists i :: 0 <= i < |sameId| && sameId[i].evidenceDigest != fact.evidenceDigest
    then Refuse(EvidenceConflict)
    else if |prior| > 1 || |sameId| > 1 then Refuse(JournalAmbiguous)
    else if |prior| == 1 then ReplayOrCommit(records, fact)
    else if |sameId| == 1 then Refuse(EvidenceDuplicate)
    else Commit(fact, ProjectionOf(fact))
  }

  // gate.evaluate -----------------------------------------------------------------------

  predicate GateWellFormed(gate: GateExpectation) {
    && 1 <= |gate.requirements| <= 64
    && (forall q :: q in gate.requirements ==> q.requiredOutcome == OutcomePass)
    && (forall i, j :: 0 <= i < j < |gate.requirements| ==> gate.requirements[i] != gate.requirements[j])
    && gate.gateCatalogDigest == GateCatalogD(gate.requirements)
  }

  function BlockedRow(requirement: Requirement): GateRow {
    GateRow(requirement, RowBlocked, None, None)
  }

  /** The row one requirement gets from the records. */
  function RowFor(records: seq<Fact>, gate: GateExpectation, requirement: Requirement): GateRow {
    var matches := Select(records, EvidenceFor(gate, requirement));
    if |matches| != 1 then BlockedRow(requirement)
    else
      var executions := Select(records, ExecutionNamed(matches[0].evidence.checkExecutionDigest));
      if |executions| != 1 then BlockedRow(requirement)
      else
        var execution := executions[0].execution;
        if execution.resultArtifactDigest != matches[0].evidence.resultArtifactDigest
           || (execution.outcome != OutcomePass && execution.outcome != OutcomeFail)
        then BlockedRow(requirement)
        else GateRow(requirement, if execution.outcome == OutcomePass then RowPass else RowFail,
                     Some(matches[0].evidenceDigest), Some(matches[0].evidence.producerBindingDigest))
  }

  function RowsFor(records: seq<Fact>, gate: GateExpectation): (rows: seq<GateRow>)
    ensures |rows| == |gate.requirements|
    ensures forall i :: 0 <= i < |rows| ==> rows[i] == RowFor(records, gate, gate.requirements[i])
  {
    seq(|gate.requirements|, i requires 0 <= i < |gate.requirements| => RowFor(records, gate, gate.requirements[i]))
  }

  predicate AnyRow(rows: seq<GateRow>, result: RowResult) {
    exists row :: row in rows && row.result == result
  }

  /** A blocked row outweighs a failed one, a failed row outweighs the passing ones. */
  function DecisionOf(rows: seq<GateRow>): Decision {
    if AnyRow(rows, RowBlocked) then Blocked else if AnyRow(rows, RowFail) then Fail else Pass
  }

  /** The evidence the rows selected; the adapter keeps it as a sorted list. */
  function SelectedEvidence(rows: seq<GateRow>): multiset<Digest> {
    if rows == [] then multiset{}
    else
      var last := rows[|rows| - 1];
      SelectedEvidence(rows[..|rows| - 1])
      + if last.evidenceDigest.Some? then multiset{last.evidenceDigest.value} else multiset{}
  }

  function VerdictOf(records: seq<Fact>, gate: GateExpectation, rows: seq<GateRow>): Verdict {
    Verdict(gate.verdictId, gate.taskBindingDigest, gate.subjectStateDigest, gate.gateCatalogDigest,
            EvidenceSetD(SelectedEvidence(rows)), gate.authorityDigest, gate.ranexProvenanceDigest,
            Chain(records), |records|, DecisionOf(rows), gate.evaluatedAt)
  }

  function VerdictFactOf(records: seq<Fact>, r: Request, rows: seq<GateRow>): Fact
    requires r.body.GateBody?
  {
    var verdict := VerdictOf(records, r.body.gate, rows);
    VerdictFact(r.key, r.bodyDigest, GateEvaluationD(r.body.gate), VerdictD(verdict), verdict,
                SelectedEvidence(rows), rows, r.body.gateSubject)
  }

  /** Every test of `gate.evaluate` that comes before the rows are computed. */
  function GatePreflight(records: seq<Fact>, r: Request, env: Env): (early: Option<Plan>)
    ensures early.Some? ==> Grounded(records, early.value)
    ensures early.None? ==> r.body.GateBody?
  {
    if !r.body.GateBody? || !GateWellFormed(r.body.gate) then Some(Refuse(GateIncomplete))
    else
      var gate := r.body.gate;
      if r.body.gateDigest != GateEvaluationD(gate) || gate.subjectStateDigest != SubjectD(r.body.gateSubject)
      then Some(Refuse(SubjectStale))
      else if gate.ranexProvenanceDigest != Provenance(env) then Some(Refuse(ProvenanceMismatch))
      else if gate.evaluatedAt > env.now + 5000 then Some(Refuse(VerdictStale))
      else if records == [] then Some(Refuse(JournalIntegrity))
      else
        var prior := Select(records, OfKey(GateEvaluate, r.key));
        if |prior| > 1 then Some(Refuse(JournalAmbiguous))
        else if |prior| == 1 then
          if prior[0].bodyDigest != r.bodyDigest || prior[0].expectationDigest != GateEvaluationD(gate)
          then Some(Refuse(IdempotencyConflict))
          else Some(Replay(prior[0], ProjectionOf(prior[0])))
        else
          var tasks := Select(records, TaskNamed(gate.taskBindingDigest));
          var suites := Select(records, SuiteNamed(gate.suiteDigest));
          if |tasks| > 1 || |suites| > 1 then Some(Refuse(JournalAmbiguous))
          else if |tasks| != 1 || |suites| != 1 then Some(Refuse(GateIncomplete))
          else
            var suite := suites[0].suite;
            if suite.taskBindingDigest != gate.taskBindingDigest || suite.gateCatalogDigest != gate.gateCatalogDigest
               || suite.verifierAuthorityDigest != gate.authorityDigest
            then Some(Refuse(GateIncomplete))
            else if exists q :: q in gate.requirements && CheckCount(suite.checks, q.checkDefinitionDigest) == 0
            then Some(Refuse(GateIncomplete))
            else None
  }

  /** The verdict id must be new. */
  function PlanVerdict(records: seq<Fact>, fact: Fact): (plan: Plan)
    requires fact.VerdictFact?
    ensures Grounded(records, plan)
  {
    if Select(records, VerdictWithId(fact.verdict.verdictId)) != [] then Refuse(IdempotencyConflict)
    else Commit(fact, ProjectionOf(fact))
  }

  function PlanEvaluate(records: seq<Fact>, r: Request, env: Env): (plan: Plan)
    ensures Grounded(records, plan)
  {
    var early := GatePreflight(records, r, env);
    if early.Some? then early.value
    else PlanVerdict(records, VerdictFactOf(records, r, RowsFor(records, r.body.gate)))
  }

  // verdict.read ------------------------------------------------------------------------

  predicate RowsWellFormed(rows: seq<GateRow>) {
    && rows != []
    && forall row :: row in rows ==>
         && row.requirement.requiredOutcome == OutcomePass
         && (row.result == RowBlocked <==> (row.evidenceDigest.None? || row.producerBindingDigest.None?))
  }

  /** The verdict is the journal's last word on a clean, unchanged subject of a live task. */
  predicate IsCurrent(records: seq<Fact>, record: Fact, tasks: seq<Fact>, read: ReadExpectation,
                      subject: RepositoryState, env: Env)
    requires record.VerdictFact? && record in records
    requires forall i :: 0 <= i < |tasks| ==> tasks[i].TaskFact?
  {
    var verdict := record.verdict;
    var index := FirstIndex(records, record);
    && read.taskBindingDigest == verdict.taskBindingDigest
    && read.subjectStateDigest == verdict.subjectStateDigest
    && read.gateCatalogDigest == verdict.gateCatalogDigest
    && read.authorityDigest == verdict.authorityDigest
    && read.ranexProvenanceDigest == verdict.ranexProvenanceDigest
    && verdict.subjectStateDigest == SubjectD(subject)
    && subject.isClean
    && verdict.ranexProvenanceDigest == Provenance(env)
    && index == |records| - 1
    && verdict.journalSequence == index
    && verdict.journalRootDigest == Chain(records[..index])
    && |tasks| == 1 && tasks[0].task.expiresAt > env.now
  }

  function PlanRead(records: seq<Fact>, r: Request, env: Env): (plan: Plan)
    ensures Grounded(records, plan)
  {
    if !r.body.ReadBody? || r.body.readDigest != VerdictReadD(r.body.read) then Refuse(VerdictStale)
    else if records == [] then Refuse(JournalIntegrity)
    else
      var read := r.body.read;
      var matches := Select(records, VerdictWithId(read.verdictId));
      if |matches| > 1 then Refuse(JournalAmbiguous)
      else if |matches| != 1 then Refuse(VerdictStale)
      else
        var record := matches[0];
        var verdict := record.verdict;
        if verdict.journalSequence < 0 then Refuse(JournalIntegrity)
        else if record.verdictDigest != VerdictD(verdict) || read.verdictDigest != VerdictD(verdict)
        then Refuse(VerdictStale)
        else
          var tasks := Select(records, TaskNamed(verdict.taskBindingDigest));
          if |tasks| > 1 then Refuse(JournalAmbiguous)
          else if !RowsWellFormed(record.gateRows) then Refuse(JournalIntegrity)
          else if SubjectD(record.subjectState) != verdict.subjectStateDigest then Refuse(JournalIntegrity)
          else
            var current := IsCurrent(records, record, tasks, read, r.body.readSubject, env);
            Answer(VerdictProjection(verdict.verdictId, VerdictD(verdict), verdict.decision, current,
                                     if current then Some(verdict.decision) else None, verdict,
                                     record.gateRows, record.subjectState))
  }

  // operation.reconcile and operation.cancel ----------------------------------------------

  /** A recovery fact replays only when it is equal to the recorded one in full. */
  function PlanRecovery(records: seq<Fact>, fact: Fact): (plan: Plan)
    ensures Grounded(records, plan) && !plan.Answer?
  {
    var prior := Select(records, OfKey(OperationOf(fact), fact.key));
    if |prior| > 1 then Refuse(JournalAmbiguous)
    else if |prior| == 1 then
      if prior[0] != fact then Refuse(IdempotencyConflict) else Replay(prior[0], ProjectionOf(fact))
    else Commit(fact, ProjectionOf(fact))
  }

  predicate Reconcilable(operation: Operation) {
    operation in {TaskBind, ProducerDispatch, SuiteFreeze, SuiteExecute, EvidenceAdmit, GateEvaluate}
  }

  function ReconcileFactOf(r: Request, matches: seq<Fact>): (fact: Fact)
    requires r.body.ReconcileBody?
    ensures fact.ReconcileFact? && fact.key == r.key
  {
    if |matches| == 1
    then ReconcileFact(r.key, r.bodyDigest, r.body.reconcileDigest, Acknowledged, Some(FactD(matches[0])))
    else ReconcileFact(r.key, r.bodyDigest, r.body.reconcileDigest, Absent, None)
  }

  /** The records under the target key whose body is the target body. */
  function WithBody(records: seq<Fact>, body: Digest): (hits: seq<Fact>)
    ensures forall i :: 0 <= i < |hits| ==> hits[i] in records && hits[i].bodyDigest == body
    ensures |hits| <= |records|
  {
    if records == [] then []
    else WithBody(records[..|records| - 1], body)
         + if records[|records| - 1].bodyDigest == body then [records[|records| - 1]] else []
  }

  function PlanReconcile(records: seq<Fact>, r: Request, env: Env): (plan: Plan)
    ensures Grounded(records, plan)
  {
    if !r.body.ReconcileBody? || !Reconcilable(r.body.reconcile.targetOperation) then Refuse(OutcomeUnknown)
    else
      var x := r.body.reconcile;
      if x.targetIdempotencyKey
         != IdempotencyD(x.targetBodyDigest, x.targetOperation, VersionOf(x.targetOperation))
      then Refuse(OutcomeUnknown)
      else if r.body.reconcileDigest != ReconcileD(x) then Refuse(OutcomeUnknown)
      else if x.ranexProvenanceDigest != Provenance(env) then Refuse(ProvenanceMismatch)
      else if records == [] then Refuse(JournalIntegrity)
      else
        var sameKey := Select(records, AnyKey(x.targetIdempotencyKey));
        var matches := WithBody(sameKey, x.targetBodyDigest);
        if |sameKey| > 1 || |matches| > 1 then Refuse(JournalAmbiguous)
        else PlanRecovery(records, ReconcileFactOf(r, matches))
  }

  function PlanCancel(records: seq<Fact>, r: Request, env: Env): (plan: Plan)
    ensures Grounded(records, plan)
  {
    if !r.body.CancelBody? then Refuse(TaskBindingMismatch)
    else if r.body.cleanupStatus != "cleaned" then Refuse(CleanupFailed)
    else if records == [] then Refuse(JournalIntegrity)
    else PlanRecovery(records, CancelFact(r.key, r.bodyDigest, r.body.cancellationRequestId, r.body.targetOperationId))
  }

  // Envelope and dispatch ---------------------------------------------------------------

  /** `_validate_envelope`: the refusal, if any. */
  function EnvelopeRefusal(r: Request, env: Env): Option<Code> {
    if r.protocol != "kogg.ranex/v2" then Some(ProtocolMismatch)
    else if r.commit != env.commit || r.schemaSet != env.schemaSet then Some(ProvenanceMismatch)
    else if r.operation.Unimplemented? then Some(CapabilityUnavailable)
    else if r.version != VersionOf(r.operation) then Some(ProtocolMismatch)
    else if r.bodyDigest != BodyD(r.body) || r.key != IdempotencyD(BodyD(r.body), r.operation, r.version)
    then Some(ProtocolInvalid)
    else None
  }

  function PlanOf(records: seq<Fact>, r: Request, env: Env): (plan: Plan)
    ensures Grounded(records, plan)
  {
    match r.operation
    case TaskBind => PlanBind(records, r, env)
    case ProducerDispatch => PlanDispatch(records, r, env)
    case SuiteFreeze => PlanFreeze(records, r, env)
    case SuiteExecute => PlanExecute(records, r, env)
    case EvidenceAdmit => PlanAdmit(records, r, env)
    case GateEvaluate => PlanEvaluate(records, r, env)
    case VerdictRead => PlanRead(records, r, env)
    case OperationReconcile => PlanReconcile(records, r, env)
    case OperationCancel => PlanCancel(records, r, env)
    case Unimplemented(_) => Refuse(CapabilityUnavailable)
    case _ => Answer(Information(r.operation))
  }

  /** One framed request, from envelope to reply. */
  function Handle(records: seq<Fact>, r: Request, env: Env): Step {
    var refusal := EnvelopeRefusal(r, env);
    if refusal.Some? then Step(Refused(refusal.value), records)
    else Settle(records, PlanOf(records, r, env))
  }

  datatype Input = Input(request: Request, env: Env)

  /** The journal after a run of requests from an empty journal. */
  function Run(inputs: seq<Input>): seq<Fact> {
    if inputs == [] then []
    else
      var last := inputs[|inputs| - 1];
      Handle(Run(inputs[..|inputs| - 1]), last.request, last.env).records
  }
}
