/**
 The tables of the execution allocation registry, the state machine they store, and the
 integrity predicates the registry itself evaluates at every start.
 */
module ExecutionTables {
  import opened Wrappers

  type Id = string
  type Time = int

  datatype State =
    | Requested | Refused | Admitted | Allocated | Seeding | Verified | Ready | Leased | Executing | Stopping
    | Sealed | CandidateImported | Retained | Cleaning | Cleaned | Failed | TimedOut | Cancelled | CleanupFailed
    | Quarantined | RecoveryRequired | Reconciling

  /** `LEGAL_TRANSITIONS`. */
  function Legal(s: State): set<State> {
    match s
    case Requested => {Refused, Admitted}
    case Refused => {}
    case Admitted => {Failed}
    case Allocated => {Seeding, Cleaning, Quarantined}
    case Seeding => {Verified, Failed, TimedOut, RecoveryRequired}
    case Verified => {Ready, Cleaning, Quarantined}
    case Ready => {Leased, Cleaning, Quarantined}
    case Leased => {Executing, Cancelled, RecoveryRequired}
    case Executing => {Stopping, TimedOut, Failed, RecoveryRequired}
    case Stopping => {Sealed, Cleaning, Cancelled, TimedOut, Failed, CleanupFailed}
    case Sealed => {CandidateImported, RecoveryRequired}
    case CandidateImported => {RecoveryRequired}
    case Retained => {Cleaning}
    case Cleaning => {Cleaned, CleanupFailed, Quarantined}
    case CleanupFailed => {Cleaning, Quarantined}
    case RecoveryRequired => {Reconciling}
    case Reconciling => {Refused, Admitted, Allocated, Seeding, Verified, Ready, Leased, Executing, Stopping, Sealed,
                         CandidateImported, Retained, Cleaning, Cleaned, Failed, TimedOut, Cancelled, CleanupFailed,
                         Quarantined}
    case Cleaned => {}
    case Failed => {Cleaning}
    case TimedOut => {Cleaning}
    case Cancelled => {Cleaning}
    case Quarantined => {}
  }

  datatype CleanupState = Required | InCleanup | CleanedUp | CleanupFault

  datatype Mode = Build | Kogg | Unknown

  /**
   One row of `allocations`. `details` stands for the name, nonce and quota sizes, `tools` for
   the helper and mount digests, `identity` for the recorded filesystem identity.
   */
  datatype Allocation = Allocation(
    run: Id, repository: Id, binding: Id, details: Id, mode: Mode, authority: nat, state: State, cleanup: CleanupState,
    revision: nat, identity: Option<Id>, project: Option<nat>, tools: Option<Id>)

  datatype IntentKind = ForAllocation | ForCleanup
  datatype IntentPhase = IntentRequested | IntentCompleted | IntentFailed | IntentQuarantined

  datatype Intent = Intent(worktree: Id, kind: IntentKind, phase: IntentPhase, token: Id, identity: Option<Id>,
                           tools: Option<Id>)

  datatype LeasePhase = LeaseActive | LeaseAllocated | LeaseReleased | LeaseQuarantined

  /** One row of `quota_project_leases`, under its worktree; project and intent are unique too. */
  datatype QuotaLease = QuotaLease(project: nat, intent: Id, phase: LeasePhase)

  datatype Retention = PendingEvidence | Rejected | Incident | Completed

  datatype Candidate = Candidate(worktree: Id, commit: Id, retention: Retention, until: Time, quarantineRef: Option<Id>)

  datatype ImportIntent = ImportIntent(worktree: Id, candidate: Id, token: Id, phase: IntentPhase)

  datatype RepositoryPhase = RepositoryActive | RepositoryReleased | RepositoryQuarantined

  /** One row of `repository_mutation_leases`; every lease belongs to one import intent, its key here. */
  datatype RepositoryLease = RepositoryLease(repository: Id, worktree: Id, token: Id, phase: RepositoryPhase)

  datatype EventName =
    | AllocationRequested | AllocationIntentRecorded | AllocationProofRecorded | AllocationQuarantined
    | StateAdvanced | SealCompleted | ImportRequested | ImportCompleted | ImportQuarantined | RetentionCommitted
    | CleanupRequested | CleanupCompleted | CleanupFailedEvent | CleanupQuarantined
    | RecoveryStarted | RecoveryClassified | ResourceQuarantined

  /** `ownerHash` of an event's source fields, as a free constructor. */
  datatype EventDigest =
    | Zero
    | OwnerHash(id: Id, worktree: Id, name: EventName, state: State, code: Id, at: Time, previous: EventDigest,
                mode: Mode, authority: nat)

  datatype Event = Event(
    id: Id, worktree: Id, name: EventName, state: State, code: Id, at: Time, mode: Mode, authority: nat,
    previous: EventDigest, digest: EventDigest)

  /** The result tables; a request id is unique within each. */
  datatype Ledger = OfReserve | OfPrepare | OfRecord | OfAllocationFailure | OfLifecycle | OfRetention | OfCleanup
  datatype ResultKind =
    | KindOnly | KindState | KindSeal | KindImportIntent | KindImportComplete | KindPrepare | KindComplete | KindFailure

  /** A stored result: the digest of the request it answered and the resource it produced. */
  datatype Result = Result(digest: Id, kind: ResultKind, resource: Id)

  datatype Admission = Enabled | Recovering | Blocked

  datatype Db = Db(
    allocations: map<Id, Allocation>, intents: map<Id, Intent>, leases: map<Id, QuotaLease>,
    candidates: map<Id, Candidate>, imports: map<Id, ImportIntent>, repositories: map<Id, RepositoryLease>,
    results: map<(Ledger, Id), Result>, events: seq<Event>, admission: Admission, next: nat)

  const FIRST_PROJECT: nat := 10000
  const LAST_PROJECT: nat := 4294967295

  /** A migrated, empty database. */
  function Fresh(): Db {
    Db(map[], map[], map[], map[], map[], map[], map[], [], Recovering, FIRST_PROJECT)
  }

  // What every start checks ------------------------------------------------------------------

  /** One row of the join in `quotaProjectLeasesValid`, with the conditions it counts as invalid negated. */
  predicate LeaseRowValid(w: Id, q: QuotaLease, i: Intent, a: Allocation) {
    && i.kind == ForAllocation && i.worktree == w
    && (q.phase == LeaseActive ==> i.phase == IntentRequested && a.state == Admitted)
    && (q.phase == LeaseAllocated ==>
          i.phase == IntentCompleted && a.project == Some(q.project) && a.state !in {Admitted, Cleaned, Quarantined})
    && (q.phase == LeaseReleased ==> a.state == Cleaned)
    && (q.phase == LeaseQuarantined ==> a.state == Quarantined)
  }

  /** `quotaProjectLeasesValid`. */
  predicate QuotaProjectLeasesValid(db: Db) {
    && (forall w :: w in db.leases && db.leases[w].intent in db.intents && w in db.allocations ==>
          LeaseRowValid(w, db.leases[w], db.intents[db.leases[w].intent], db.allocations[w]))
    && (forall i :: i in db.intents && db.intents[i].kind == ForAllocation ==>
          exists w :: w in db.leases && db.leases[w].intent == i)
    && FIRST_PROJECT <= db.next <= LAST_PROJECT + 1
  }

  function SourceDigest(e: Event): EventDigest {
    OwnerHash(e.id, e.worktree, e.name, e.state, e.code, e.at, e.previous, e.mode, e.authority)
  }

  function LastDigest(events: seq<Event>): EventDigest {
    if events == [] then Zero else events[|events| - 1].digest
  }

  /** `ownerEventsValid`. */
  predicate OwnerEventsValid(events: seq<Event>) {
    events == []
    || (var init, e := events[..|events| - 1], events[|events| - 1];
        OwnerEventsValid(init) && e.previous == LastDigest(init) && e.digest == SourceDigest(e))
  }

  /** The first event of a worktree. */
  function FirstEvent(events: seq<Event>, w: Id): Option<Event> {
    if events == [] then None
    else
      var earlier := FirstEvent(events[..|events| - 1], w);
      if earlier.Some? then earlier
      else if events[|events| - 1].worktree == w then Some(events[|events| - 1]) else None
  }

  /** `executionModeBindingsValid`, on rows and events of schema version 2. */
  predicate ExecutionModeBindingsValid(db: Db) {
    forall w :: w in db.allocations ==>
      var a := db.allocations[w];
      if a.mode == Unknown then a.authority == 0
      else
        var first := FirstEvent(db.events, w);
        first.Some? && first.value.name == AllocationRequested && first.value.mode == a.mode
          && first.value.authority == a.authority
  }

  /** `assertIntegrity`, on a database whose file and foreign keys are sound. */
  predicate IntegrityHolds(db: Db) {
    && OwnerEventsValid(db.events) && ExecutionModeBindingsValid(db)
    && (forall w :: w in db.allocations && db.allocations[w].identity.Some? ==>
          PhysicalIdentityValid(db.allocations[w]))
    && QuotaProjectLeasesValid(db)
  }

  predicate PhysicalIdentityValid(a: Allocation) {
    a.identity.Some? && a.project.Some? && a.tools.Some?
  }

  /** The rows `retentionViolationCount` counts. */
  predicate RetentionViolation(db: Db, c: Id, now: Time)
    requires c in db.candidates && db.candidates[c].worktree in db.allocations
  {
    var x := db.candidates[c];
    var s := db.allocations[x.worktree].state;
    || (s == Retained && (x.retention == PendingEvidence || !HasRetentionResult(db, c)))
    || (s in {Sealed, CandidateImported} && x.retention != PendingEvidence)
    || (s in {Cleaning, Cleaned} && x.until > now)
  }

  predicate HasRetentionResult(db: Db, c: Id) {
    exists k :: k in db.results && k.0 == OfRetention && db.results[k].resource == c
  }
}
