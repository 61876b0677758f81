/** What every reachable registry database satisfies, part by part, each over the tables it reads. */
module ExecutionInvariant {
  import opened Wrappers
  import opened ExecutionTables
  import opened ExecutionTransactions

  // Quota project leases -------------------------------------------------------------------

  /** States of an allocation whose directory exists and whose lease is allocated. */
  predicate Live(s: State) {
    s in {Allocated, Seeding, Verified, Ready, State.Leased, Executing, Stopping, Sealed, CandidateImported, Retained,
          Cleaning, Failed, TimedOut, Cancelled, CleanupFailed}
  }

  /** The worktrees whose candidate import was failed: the rows that keep an allocated lease. */
  function FailedImports(events: seq<Event>): set<Id> {
    if events == [] then {}
    else
      var e := events[|events| - 1];
      FailedImports(events[..|events| - 1]) + if e.name == ImportQuarantined then {e.worktree} else {}
  }

  /** `LeaseRowValid`, but for the rows of failed imports, which are the reverse of it. */
  predicate LeaseRule(w: Id, q: QuotaLease, i: Intent, a: Allocation, failed: bool) {
    && i.kind == ForAllocation && i.worktree == w
    && (q.phase == LeaseActive ==> i.phase == IntentRequested && a.state == Admitted)
    && (q.phase == LeaseAllocated ==>
          && i.phase == IntentCompleted && a.project == Some(q.project)
          && if failed then a.state == Quarantined else Live(a.state))
    && (q.phase == LeaseReleased ==> a.state == Cleaned)
    && (q.phase == LeaseQuarantined ==> a.state == Quarantined)
    && (failed ==> q.phase == LeaseAllocated)
  }

  predicate LeaseKeys(allocations: map<Id, Allocation>, intents: map<Id, Intent>, leases: map<Id, QuotaLease>) {
    && (forall w :: w in leases ==> w in allocations && leases[w].intent in intents)
    && (forall i :: i in intents ==> intents[i].worktree in allocations)
    && (forall i :: i in intents && intents[i].kind == ForAllocation ==>
          intents[i].worktree in leases && leases[intents[i].worktree].intent == i)
  }

  predicate LeaseRules(allocations: map<Id, Allocation>, intents: map<Id, Intent>, leases: map<Id, QuotaLease>,
      failed: set<Id>)
    requires LeaseKeys(allocations, intents, leases)
  {
    && (forall w :: w in leases ==> LeaseRule(w, leases[w], intents[leases[w].intent], allocations[w], w in failed))
    && (forall w :: w in allocations && (Live(allocations[w].state) || allocations[w].state == Cleaned) ==> w in leases)
    && (forall w :: w in failed ==> w in leases)
  }

  predicate Issued(leases: map<Id, QuotaLease>, p: nat) {
    exists w :: w in leases && leases[w].project == p
  }

  /** Project ids are issued from 10000 on without a gap, each once. */
  predicate ProjectsIssued(leases: map<Id, QuotaLease>, next: nat) {
    && FIRST_PROJECT <= next <= LAST_PROJECT + 1
    && (forall w :: w in leases ==> FIRST_PROJECT <= leases[w].project < next)
    && (forall v, w :: v in leases && w in leases && v != w ==> leases[v].project != leases[w].project)
    && (forall p :: FIRST_PROJECT <= p < next ==> Issued(leases, p))
  }

  predicate LeasesOk(db: Db) {
    && LeaseKeys(db.allocations, db.intents, db.leases)
    && LeaseRules(db.allocations, db.intents, db.leases, FailedImports(db.events))
    && ProjectsIssued(db.leases, db.next)
  }

  // Rows ---------------------------------------------------------------------------------------

  /** The cleanup column as the state implies it, and a complete identity. */
  predicate RowOk(a: Allocation, failed: bool) {
    && (a.identity.Some? ==> PhysicalIdentityValid(a))
    && a.mode != Unknown
    && match a.state
       case Cleaning => a.cleanup == InCleanup
       case Cleaned => a.cleanup == CleanedUp
       case CleanupFailed => a.cleanup == CleanupFault
       case Quarantined => if failed then a.cleanup == Required else a.cleanup == CleanupFault
       case Requested => false
       case Refused => false
       case RecoveryRequired => false
       case Reconciling => false
       case _ => a.cleanup == Required
  }

  predicate RowsOk(allocations: map<Id, Allocation>, failed: set<Id>) {
    && (forall w :: w in allocations ==> RowOk(allocations[w], w in failed))
    && forall w :: w in failed ==> w in allocations && allocations[w].state == Quarantined
  }

  // Events -------------------------------------------------------------------------------------

  /** The edges `AgentWorkspaceController` requests of `advance` and the table allows. */
  predicate ControllerEdge(s: State, t: State) {
    match s
    case Allocated => t == Seeding
    case Seeding => t == Verified || t == Failed
    case Verified => t == Ready
    case Ready => t == State.Leased
    case Leased => t == Executing || t == Cancelled
    case Executing => t == Stopping || t == TimedOut || t == Failed
    case Stopping => t == Failed
    case _ => false
  }

  /** What one event may do to the state of its worktree. */
  predicate EdgeOk(s: State, name: EventName, t: State) {
    match name
    case AllocationRequested => false
    case AllocationIntentRecorded => s == Admitted && t == Admitted
    case AllocationProofRecorded => s == Admitted && t == Allocated
    case AllocationQuarantined => s == Admitted && t == Quarantined
    case StateAdvanced => ControllerEdge(s, t)
    case SealCompleted => s == Stopping && t == Sealed
    case ImportRequested => s == Sealed && t == Sealed
    case ImportCompleted => s == Sealed && t == CandidateImported
    case ImportQuarantined => s == Sealed && t == Quarantined
    case RetentionCommitted => s in {Sealed, CandidateImported} && t == Retained
    case CleanupRequested => Cleaning in Legal(s) && t == Cleaning
    case CleanupCompleted => s == Cleaning && t == Cleaned
    case CleanupFailedEvent => s == Cleaning && t == CleanupFailed
    case CleanupQuarantined => s == Cleaning && t == Quarantined
    case RecoveryStarted => t == RecoveryRequired
    case RecoveryClassified => s == RecoveryRequired && t == Reconciling
    case ResourceQuarantined => s == Reconciling && t == Quarantined
  }

  /** The state the latest event of a worktree reports. */
  function LastState(events: seq<Event>, w: Id): Option<State> {
    if events == [] then None
    else if events[|events| - 1].worktree == w then Some(events[|events| - 1].state)
    else LastState(events[..|events| - 1], w)
  }

  /** Every event continues the history of its worktree, which starts with its admission. */
  predicate PathsOk(events: seq<Event>) {
    events == []
    || (var init, e := events[..|events| - 1], events[|events| - 1];
        && PathsOk(init)
        && match LastState(init, e.worktree)
           case None => e.name == AllocationRequested && e.state == Admitted
           case Some(s) => EdgeOk(s, e.name, e.state))
  }

  /** The table agrees with the log: state by the last event, mode by the first. */
  predicate RowTraced(events: seq<Event>, w: Id, a: Allocation) {
    && LastState(events, w) == Some(a.state)
    && FirstEvent(events, w).Some?
    && FirstEvent(events, w).value.name == AllocationRequested
    && FirstEvent(events, w).value.mode == a.mode && FirstEvent(events, w).value.authority == a.authority
  }

  predicate Traced(allocations: map<Id, Allocation>, events: seq<Event>) {
    && OwnerEventsValid(events) && PathsOk(events)
    && (forall w :: w in allocations ==> RowTraced(events, w, allocations[w]))
    && (forall k :: 0 <= k < |events| ==> events[k].worktree in allocations)
  }

  // Imports and repository leases ---------------------------------------------------------------

  /** States of an allocation whose candidate was sealed. */
  predicate PastSeal(s: State) {
    s in {Sealed, CandidateImported, Retained, Cleaning, Cleaned, CleanupFailed, Quarantined}
  }

  predicate ImportKeys(allocations: map<Id, Allocation>, imports: map<Id, ImportIntent>,
      repositories: map<Id, RepositoryLease>)
  {
    && imports.Keys == repositories.Keys
    && (forall i :: i in imports ==>
          && imports[i].worktree in allocations && repositories[i].worktree == imports[i].worktree
          && repositories[i].repository == allocations[imports[i].worktree].repository)
  }

  /** One import intent per worktree, one holder per repository, and a sealed row's lease still active. */
  predicate ImportsOk(allocations: map<Id, Allocation>, imports: map<Id, ImportIntent>,
      repositories: map<Id, RepositoryLease>)
  {
    && ImportKeys(allocations, imports, repositories)
    && (forall i :: i in imports ==>
          PastSeal(allocations[imports[i].worktree].state)
          && (allocations[imports[i].worktree].state == Sealed ==> repositories[i].phase == RepositoryActive))
    && (forall i, j :: i in imports && j in imports && i != j ==> imports[i].worktree != imports[j].worktree)
    && (forall i, j :: i in repositories && j in repositories && i != j && Holds(repositories[i])
                       && Holds(repositories[j]) ==>
          repositories[i].repository != repositories[j].repository)
  }

  // Candidates -----------------------------------------------------------------------------------

  /** How far a candidate's retention has come, given the state of its allocation. */
  predicate CandidateRule(c: Candidate, s: State, recorded: bool, now: Time) {
    && (if c.retention == PendingEvidence then s in {Sealed, CandidateImported, Quarantined}
        else recorded && s in {Retained, Cleaning, Cleaned, CleanupFailed, Quarantined})
    && (s in {Cleaning, Cleaned, CleanupFailed} ==> c.until <= now)
  }

  predicate CandidatesOk(db: Db, now: Time) {
    && (forall c :: c in db.candidates ==>
          && db.candidates[c].worktree in db.allocations
          && CandidateRule(db.candidates[c], db.allocations[db.candidates[c].worktree].state, HasRetentionResult(db, c),
                           now))
    && (forall c, d :: c in db.candidates && d in db.candidates && c != d ==>
          db.candidates[c].worktree != db.candidates[d].worktree)
  }

  // Everything -----------------------------------------------------------------------------------

  predicate Inv(db: Db, now: Time) {
    && LeasesOk(db)
    && RowsOk(db.allocations, FailedImports(db.events))
    && Traced(db.allocations, db.events)
    && ImportsOk(db.allocations, db.imports, db.repositories)
    && CandidatesOk(db, now)
  }

  /** Something that has blocked admission: a failed cleanup or allocation, or a failed import. */
  predicate Faulted(db: Db) {
    FailedImports(db.events) != {} || exists w :: w in db.allocations && db.allocations[w].cleanup == CleanupFault
  }
}
