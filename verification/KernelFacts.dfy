/**
 The records the evidence kernel exchanges and journals, and the digests that name them.

 A digest is a free constructor over the value it was computed from, one constructor for
 each (domain, record shape) pair of `_domain_digest`; `External` stands for text that this
 kernel did not compute. Two digests are equal exactly when domain and value are equal, which
 rests on the injectivity of the canonical encoding (module CanonicalJson) and on SHA-256.
 */
module KernelFacts {
  import opened Wrappers

  type Id = string
  type Time = int

  datatype Operation =
    | Handshake | Health | Qualify
    | TaskBind | ProducerDispatch | SuiteFreeze | SuiteExecute | EvidenceAdmit | GateEvaluate
    | VerdictRead | OperationReconcile | OperationCancel
    | Unimplemented(name: string)

  datatype RepositoryState = RepositoryState(
    objectFormat: string, commitObjectId: Id, treeObjectId: Id, gitCommonDirectoryIdentity: Digest,
    worktreeIdentity: Digest, indexDigest: Digest, trackedContentDigest: Digest,
    untrackedPolicyDigest: Digest, isClean: bool)

  datatype TaskBinding = TaskBinding(
    taskId: Id, runId: Id, taskRevision: int, specificationDigest: Digest, approvalId: Id,
    approvalDigest: Digest, authorityDigest: Digest, projectId: Id, repositoryId: Id,
    repositoryIdentityDigest: Digest, protectedSource: RepositoryState, worktreeId: Id,
    worktreeIdentityDigest: Digest, baseState: RepositoryState, executionProfileDigest: Digest,
    expiresAt: Time)

  datatype ProducerBinding = ProducerBinding(
    producerId: Id, producerRole: string, adapterId: Id, adapterArtifactDigest: Digest,
    provider: string, model: string, attemptId: Id, taskBindingDigest: Digest,
    authorityDigest: Digest, executionProfileDigest: Digest)

  datatype CheckDefinition = CheckDefinition(
    checkId: string, kind: string, executableArtifactDigest: Digest, argvTemplateDigest: Digest,
    environmentProfileDigest: Digest, timeoutMs: int, outputPolicyDigest: Digest,
    requiredProducerSeparation: bool)

  datatype FrozenSuite = FrozenSuite(
    suiteId: Id, suiteRevision: int, manifestDigest: Digest, taskBindingDigest: Digest,
    subjectPolicy: string, checks: seq<CheckDefinition>, gateCatalogDigest: Digest,
    verifierAuthorityDigest: Digest)

  datatype OperationState = Completed | Failed | TimedOut | Cancelled
  datatype ExitClass = ExitZero | ExitNonzero | ExitSignal | ExitNone
  datatype CheckOutcome = OutcomePass | OutcomeFail | OutcomeCancelled | OutcomeTimeout | OutcomeInfrastructure

  /** Every field of a process authority that its cleanup proof covers. */
  datatype ProcessProof = ProcessProof(
    operationId: Id, processRegistrationId: Id, processKind: string, processOwner: string,
    operationState: OperationState, exitClass: ExitClass, startedAt: Time, finishedAt: Time,
    cleanupAt: Time, suiteDigest: Digest, checkDefinitionDigest: Digest, subjectStateDigest: Digest,
    verifierId: Id, verifierArtifactDigest: Digest, executionProfileDigest: Digest,
    resultArtifactDigest: Digest)

  datatype ProcessAuthority = ProcessAuthority(proof: ProcessProof, cleanupProofDigest: Digest)

  datatype CheckExecution = CheckExecution(
    executionId: Id, suiteDigest: Digest, checkDefinitionDigest: Digest, subjectState: RepositoryState,
    verifierId: Id, verifierRole: string, verifierArtifactDigest: Digest, processRegistrationId: Id,
    executionProfileDigest: Digest, startedAt: Time, finishedAt: Time, outcome: CheckOutcome,
    exitClass: ExitClass, resultArtifactDigest: Digest, cleanupProofDigest: Digest)

  datatype Evidence = Evidence(
    evidenceId: Id, claimType: string, subjectStateDigest: Digest, taskBindingDigest: Digest,
    producerBindingDigest: Digest, suiteDigest: Digest, checkDefinitionDigest: Digest,
    checkExecutionDigest: Digest, resultArtifactDigest: Digest, authorityDigest: Digest,
    ranexProvenanceDigest: Digest, createdAt: Time)

  datatype Requirement = Requirement(
    claimType: string, checkDefinitionDigest: Digest, requiredOutcome: CheckOutcome)

  datatype GateExpectation = GateExpectation(
    verdictId: Id, taskBindingDigest: Digest, suiteDigest: Digest, subjectStateDigest: Digest,
    gateCatalogDigest: Digest, requirements: seq<Requirement>, authorityDigest: Digest,
    ranexProvenanceDigest: Digest, evaluatedAt: Time)

  datatype RowResult = RowPass | RowFail | RowBlocked

  datatype GateRow = GateRow(
    requirement: Requirement, result: RowResult, evidenceDigest: Option<Digest>,
    producerBindingDigest: Option<Digest>)

  datatype Decision = Pass | Fail | Blocked

  datatype Verdict = Verdict(
    verdictId: Id, taskBindingDigest: Digest, subjectStateDigest: Digest, gateCatalogDigest: Digest,
    evidenceSetDigest: Digest, authorityDigest: Digest, ranexProvenanceDigest: Digest,
    journalRootDigest: Digest, journalSequence: int, decision: Decision, evaluatedAt: Time)

  datatype ReadExpectation = ReadExpectation(
    verdictId: Id, verdictDigest: Digest, taskBindingDigest: Digest, subjectStateDigest: Digest,
    gateCatalogDigest: Digest, authorityDigest: Digest, ranexProvenanceDigest: Digest)

  datatype ReconcileExpectation = ReconcileExpectation(
    targetOperation: Operation, targetIdempotencyKey: Digest, targetBodyDigest: Digest,
    ranexProvenanceDigest: Digest)

  datatype ReconcileOutcome = Acknowledged | Absent

  datatype Body =
    | BindBody(task: TaskBinding, taskDigest: Digest)
    | ProducerBody(producer: ProducerBinding, producerDigest: Digest)
    | SuiteBody(suite: FrozenSuite, suiteDigest: Digest)
    | ExecuteBody(execution: CheckExecution, executionDigest: Digest, authority: ProcessAuthority)
    | EvidenceBody(evidenceSubject: RepositoryState, evidence: Evidence, evidenceDigest: Digest)
    | GateBody(gateSubject: RepositoryState, gate: GateExpectation, gateDigest: Digest)
    | ReadBody(readSubject: RepositoryState, read: ReadExpectation, readDigest: Digest)
    | ReconcileBody(reconcile: ReconcileExpectation, reconcileDigest: Digest)
    | CancelBody(cancellationRequestId: Id, cleanupStatus: string, targetOperationId: Id)
    | OtherBody(text: string)

  datatype Digest =
    | External(text: string)
    | Genesis
    | Link(previous: Digest, record: Fact)
    | BodyD(body: Body)
    | IdempotencyD(keyBody: Digest, operation: Operation, version: int)
    | TaskD(task: TaskBinding)
    | ProducerD(producer: ProducerBinding)
    | SuiteManifestD(checks: seq<CheckDefinition>, gateCatalogDigest: Digest, subjectPolicy: string,
                     taskBindingDigest: Digest, verifierAuthorityDigest: Digest)
    | SuiteD(suite: FrozenSuite)
    | CheckD(check: CheckDefinition)
    | CleanupD(proof: ProcessProof)
    | ExecutionD(execution: CheckExecution)
    | SubjectD(subject: RepositoryState)
    | EvidenceD(evidence: Evidence)
    | GateCatalogD(requirements: seq<Requirement>)
    | GateEvaluationD(gate: GateExpectation)
    | EvidenceSetD(members: multiset<Digest>)
    | VerdictD(verdict: Verdict)
    | VerdictReadD(read: ReadExpectation)
    | ReconcileD(reconcile: ReconcileExpectation)
    | FactD(fact: Fact)
    | ProvenanceD(commit: string, schemaSet: Digest, tree: string)

  /** One journal entry. The fields common to every kind come first. */
  datatype Fact =
    | TaskFact(key: Digest, bodyDigest: Digest, bindingDigest: Digest, task: TaskBinding)
    | ProducerFact(key: Digest, bodyDigest: Digest, bindingDigest: Digest, producer: ProducerBinding)
    | SuiteFact(key: Digest, bodyDigest: Digest, suiteDigest: Digest, suite: FrozenSuite)
    | ExecutionFact(key: Digest, bodyDigest: Digest, executionDigest: Digest, execution: CheckExecution,
                    authority: ProcessAuthority)
    | EvidenceFact(key: Digest, bodyDigest: Digest, evidenceDigest: Digest, evidence: Evidence)
    | VerdictFact(key: Digest, bodyDigest: Digest, expectationDigest: Digest, verdictDigest: Digest,
                  verdict: Verdict, evidenceDigests: multiset<Digest>, gateRows: seq<GateRow>,
                  subjectState: RepositoryState)
    | ReconcileFact(key: Digest, bodyDigest: Digest, expectationDigest: Digest,
                    outcome: ReconcileOutcome, targetFactDigest: Option<Digest>)
    | CancelFact(key: Digest, bodyDigest: Digest, cancellationRequestId: Id, targetOperationId: Id)

  /** The request envelope; the request and operation identifiers only label the reply. */
  datatype Request = Request(
    protocol: string, commit: string, schemaSet: Digest, operation: Operation, version: int,
    key: Digest, bodyDigest: Digest, body: Body)

  /** What one call reads from outside: the clock and the pinned runtime provenance. */
  datatype Env = Env(now: Time, commit: string, schemaSet: Digest, tree: string)

  datatype Code =
    | ProtocolMismatch | ProtocolInvalid | ProvenanceMismatch | CapabilityUnavailable
    | TaskBindingMismatch | AuthorityInvalid | JournalIntegrity | JournalAmbiguous
    | IdempotencyConflict | ProducerInvalid | SuiteMismatch | RoleSeparationFailed
    | CheckInfrastructure | EvidenceInvalid | SubjectStale | EvidenceMissing | EvidenceConflict
    | EvidenceStale | EvidenceDuplicate | GateIncomplete | VerdictStale | OutcomeUnknown
    | CleanupFailed

  datatype Position = Position(sequence: nat, rootDigest: Digest)

  datatype Projection =
    | TaskProjection(taskBindingDigest: Digest, taskId: Id, taskRevision: int)
    | ProducerProjection(producerBindingDigest: Digest, producerId: Id, attemptId: Id)
    | SuiteProjection(suiteDigest: Digest, suiteId: Id, suiteRevision: int)
    | ExecutionProjection(checkExecutionDigest: Digest, executionId: Id, outcome: CheckOutcome)
    | EvidenceProjection(claimType: string, evidenceDigest: Digest, evidenceId: Id)
    | GateProjection(decision: Decision, evidenceCount: nat, gateVerdictDigest: Digest, gateVerdictId: Id)
    | VerdictProjection(verdictId: Id, verdictDigest: Digest, historicalDecision: Decision, current: bool,
                        currentDecision: Option<Decision>, verdict: Verdict, gateRows: seq<GateRow>,
                        subjectState: RepositoryState)
    | ReconcileProjection(reconcileOutcome: ReconcileOutcome, targetFactDigest: Option<Digest>)
    | CancelProjection(cancellationRequestId: Id, targetOperationId: Id)
    | Information(operation: Operation)

  datatype Reply = Refused(code: Code) | Done(projection: Projection, position: Option<Position>)

  /** The version table of `IMPLEMENTED_OPERATIONS`. */
  function VersionOf(operation: Operation): int {
    if operation.Handshake? then 2 else 1
  }

  /** The operation that appends facts of this kind. */
  function OperationOf(fact: Fact): Operation {
    match fact
    case TaskFact(_, _, _, _) => TaskBind
    case ProducerFact(_, _, _, _) => ProducerDispatch
    case SuiteFact(_, _, _, _) => SuiteFreeze
    case ExecutionFact(_, _, _, _, _) => SuiteExecute
    case EvidenceFact(_, _, _, _) => EvidenceAdmit
    case VerdictFact(_, _, _, _, _, _, _, _) => GateEvaluate
    case ReconcileFact(_, _, _, _, _) => OperationReconcile
    case CancelFact(_, _, _, _) => OperationCancel
  }

  /** `ranex-provenance` of the running kernel. */
  function Provenance(env: Env): Digest {
    ProvenanceD(env.commit, env.schemaSet, env.tree)
  }

  /** The projection a committed fact was, and on replay is, answered with. */
  function ProjectionOf(fact: Fact): Projection {
    match fact
    case TaskFact(_, _, d, t) => TaskProjection(d, t.taskId, t.taskRevision)
    case ProducerFact(_, _, d, p) => ProducerProjection(d, p.producerId, p.attemptId)
    case SuiteFact(_, _, d, s) => SuiteProjection(d, s.suiteId, s.suiteRevision)
    case ExecutionFact(_, _, d, e, _) => ExecutionProjection(d, e.executionId, e.outcome)
    case EvidenceFact(_, _, d, e) => EvidenceProjection(e.claimType, d, e.evidenceId)
    case VerdictFact(_, _, _, d, v, members, _, _) => GateProjection(v.decision, |members|, d, v.verdictId)
    case ReconcileFact(_, _, _, outcome, target) => ReconcileProjection(outcome, target)
    case CancelFact(_, _, id, target) => CancelProjection(id, target)
  }
}
