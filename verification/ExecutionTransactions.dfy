/**
 The registry's operations. An operation that awaits an authority between its checks and its
 transaction is two functions here: the check, on the database the request finds, and the commit,
 on the database the continuation finds, with what was captured in between. A transaction that
 fails rolls back, so a refusal carries no database.
 */
module ExecutionTransactions {
  import opened Wrappers
  import opened ExecutionTables

  datatype Code =
    | AdmissionBlocked | ReplayMismatch | RunExists | Integrity | BindingMismatch | RevisionConflict | StateInvalid
    | QualificationInvalid | RepositoryConflict | RetentionActive | IdentityMismatch | Constraint

  datatype Outcome = Refuse(code: Code) | Replayed(resource: Id) | Committed(db: Db)

  /** A check either answers at once or lets the request go on to its authority. */
  datatype Check = Answer(outcome: Outcome) | Proceed

  // Shared pieces ------------------------------------------------------------------------------

  /** The lookup every operation starts with. */
  function Prior(db: Db, ledger: Ledger, kind: ResultKind, request: Id, digest: Id): (prior: Option<Outcome>)
    ensures prior.Some? ==> !prior.value.Committed?
  {
    if (ledger, request) in db.results && db.results[(ledger, request)].kind == kind then
      if db.results[(ledger, request)].digest != digest then Some(Refuse(ReplayMismatch))
      else Some(Replayed(db.results[(ledger, request)].resource))
    else None
  }

  /** `event`: the row's state and mode, chained to the latest digest. */
  function EventFor(events: seq<Event>, w: Id, a: Allocation, name: EventName, stamp: Stamp): Event {
    var draft := Event(stamp.event, w, name, a.state, stamp.code, stamp.at, a.mode, a.authority, LastDigest(events),
                       Zero);
    draft.(digest := SourceDigest(draft))
  }

  /** What a transaction draws from outside: the event id, its safe code and the time. */
  datatype Stamp = Stamp(event: Id, code: Id, at: Time)

  function Record(events: seq<Event>, w: Id, a: Allocation, name: EventName, stamp: Stamp): seq<Event> {
    events + [EventFor(events, w, a, name, stamp)]
  }

  /** The row a guarded `UPDATE allocations` changes. */
  predicate Guard(db: Db, w: Id, revision: nat, state: State, binding: Id) {
    && w in db.allocations && db.allocations[w].revision == revision && db.allocations[w].state == state
    && db.allocations[w].binding == binding
  }

  /** The row after a state change. */
  function Moved(a: Allocation, state: State, cleanup: CleanupState): Allocation {
    a.(state := state, cleanup := cleanup, revision := a.revision + 1)
  }

  // reserve --------------------------------------------------------------------------------------

  datatype ReserveRequest = ReserveRequest(request: Id, digest: Id, run: Id, repository: Id, binding: Id, details: Id)

  function CheckReserve(db: Db, r: ReserveRequest): Check {
    var prior := Prior(db, OfReserve, KindOnly, r.request, r.digest);
    if prior.Some? then Answer(prior.value)
    else if db.admission != Enabled then Answer(Refuse(AdmissionBlocked))
    else Proceed
  }

  /** `mode` and `authority` are what the mode owner answered; it must name a real mode. */
  function CommitReserve(db: Db, r: ReserveRequest, mode: Mode, authority: nat, w: Id, stamp: Stamp): Outcome {
    if mode == Unknown then Refuse(AdmissionBlocked)
    else if exists x :: x in db.allocations && db.allocations[x].run == r.run then Refuse(RunExists)
    else if w in db.allocations || (OfReserve, r.request) in db.results then Refuse(Constraint)
    else
      var a := Allocation(r.run, r.repository, r.binding, r.details, mode, authority, Admitted, Required, 1, None, None,
                          None);
      Committed(db.(allocations := db.allocations[w := a],
                    results := db.results[(OfReserve, r.request) := Result(r.digest, KindOnly, w)],
                    events := Record(db.events, w, a, AllocationRequested, stamp)))
  }

  // advance ----------------------------------------------------------------------------------------

  datatype AdvanceRequest = AdvanceRequest(request: Id, digest: Id, worktree: Id, revision: nat, binding: Id,
                                           next: State)

  function Advance(db: Db, r: AdvanceRequest, stamp: Stamp): Outcome {
    var prior := Prior(db, OfLifecycle, KindState, r.request, r.digest);
    if prior.Some? then prior.value
    else if db.admission != Enabled then Refuse(AdmissionBlocked)
    else if r.worktree !in db.allocations then Refuse(Integrity)
    else
      var a := db.allocations[r.worktree];
      if a.binding != r.binding then Refuse(BindingMismatch)
      else if a.revision != r.revision then Refuse(RevisionConflict)
      else if r.next in {Cleaning, Cleaned, CleanupFailed} || r.next !in Legal(a.state) then Refuse(StateInvalid)
      else if (OfLifecycle, r.request) in db.results then Refuse(Constraint)
      else
        var b := Moved(a, r.next, a.cleanup);
        Committed(db.(allocations := db.allocations[r.worktree := b],
                      results := db.results[(OfLifecycle, r.request) := Result(r.digest, KindState, r.worktree)],
                      events := Record(db.events, r.worktree, b, StateAdvanced, stamp)))
  }

  // preparePhysicalAllocation -------------------------------------------------------------------

  datatype PrepareRequest = PrepareRequest(request: Id, digest: Id, worktree: Id, revision: nat, binding: Id, tools: Id)

  function CheckPrepare(db: Db, r: PrepareRequest): Check {
    var prior := Prior(db, OfPrepare, KindOnly, r.request, r.digest);
    if prior.Some? then Answer(prior.value)
    else if db.admission != Enabled then Answer(Refuse(AdmissionBlocked))
    else if r.worktree !in db.allocations then Answer(Refuse(Integrity))
    else
      var a := db.allocations[r.worktree];
      if a.binding != r.binding then Answer(Refuse(BindingMismatch))
      else if a.revision != r.revision then Answer(Refuse(RevisionConflict))
      else if a.state != Admitted then Answer(Refuse(StateInvalid))
      else if exists i :: i in db.intents && db.intents[i].worktree == r.worktree && db.intents[i].kind == ForAllocation
                          && db.intents[i].phase == IntentRequested
      then Answer(Refuse(StateInvalid))
      else Proceed
  }

  /** The transaction tests no allocation state; its guards are the keys of the tables it inserts into. */
  function CommitPrepare(db: Db, r: PrepareRequest, intent: Id, token: Id, stamp: Stamp): Outcome {
    if db.next < FIRST_PROJECT || db.next > LAST_PROJECT then Refuse(Integrity)
    else if intent in db.intents || r.worktree !in db.allocations then Refuse(Constraint)
    else if r.worktree in db.leases || (OfPrepare, r.request) in db.results then Refuse(Constraint)
    else if exists w :: w in db.leases && (db.leases[w].project == db.next || db.leases[w].intent == intent)
    then Refuse(Constraint)
    else
      Committed(db.(intents := db.intents[intent := Intent(r.worktree, ForAllocation, IntentRequested, token, None,
                                                           Some(r.tools))],
                    leases := db.leases[r.worktree := QuotaLease(db.next, intent, LeaseActive)],
                    results := db.results[(OfPrepare, r.request) := Result(r.digest, KindOnly, intent)],
                    events := Record(db.events, r.worktree, db.allocations[r.worktree], AllocationIntentRecorded,
                                     stamp),
                    next := db.next + 1))
  }

  // recordPhysicalAllocation ---------------------------------------------------------------------

  datatype RecordRequest = RecordRequest(
    request: Id, digest: Id, intent: Id, worktree: Id, revision: nat, binding: Id, details: Id, token: Id, tools: Id,
    project: nat, identity: Id)

  /** The quota lease of an allocation intent is the one of its worktree. */
  predicate LeaseHeldFor(db: Db, w: Id, intent: Id) { w in db.leases && db.leases[w].intent == intent }

  function CheckRecord(db: Db, r: RecordRequest): Check {
    var prior := Prior(db, OfRecord, KindOnly, r.request, r.digest);
    if prior.Some? then Answer(prior.value)
    else if db.admission != Enabled then Answer(Refuse(AdmissionBlocked))
    else if r.worktree !in db.allocations || r.intent !in db.intents || db.intents[r.intent].kind != ForAllocation
            || !LeaseHeldFor(db, db.intents[r.intent].worktree, r.intent)
    then Answer(Refuse(Integrity))
    else
      var a, i := db.allocations[r.worktree], db.intents[r.intent];
      if a.binding != r.binding || a.details != r.details || i.worktree != r.worktree || i.token != r.token
         || i.tools != Some(r.tools) || db.leases[i.worktree].project != r.project
      then Answer(Refuse(BindingMismatch))
      else if a.revision != r.revision then Answer(Refuse(RevisionConflict))
      else if a.state != Admitted || i.phase != IntentRequested || db.leases[r.worktree].phase != LeaseActive
      then Answer(Refuse(StateInvalid))
      else Proceed
  }

  function CommitRecord(db: Db, r: RecordRequest, stamp: Stamp): Outcome {
    if !(&& r.intent in db.intents && db.intents[r.intent].kind == ForAllocation
         && db.intents[r.intent].phase == IntentRequested && db.intents[r.intent].token == r.token)
       || !Guard(db, r.worktree, r.revision, Admitted, r.binding)
       || !(LeaseHeldFor(db, r.worktree, r.intent) && db.leases[r.worktree].project == r.project
            && db.leases[r.worktree].phase == LeaseActive)
    then Refuse(RevisionConflict)
    else if (OfRecord, r.request) in db.results then Refuse(Constraint)
    else
      var a := db.allocations[r.worktree];
      var b := Moved(a, Allocated, a.cleanup).(identity := Some(r.identity), project := Some(r.project),
                                               tools := Some(r.tools));
      Committed(db.(allocations := db.allocations[r.worktree := b],
                    intents := db.intents[r.intent := db.intents[r.intent].(phase := IntentCompleted)],
                    leases := db.leases[r.worktree := db.leases[r.worktree].(phase := LeaseAllocated)],
                    results := db.results[(OfRecord, r.request) := Result(r.digest, KindOnly, r.worktree)],
                    events := Record(db.events, r.worktree, b, AllocationProofRecorded, stamp)))
  }

  // failPhysicalAllocation -----------------------------------------------------------------------

  datatype FailAllocationRequest = FailAllocationRequest(
    request: Id, digest: Id, intent: Id, worktree: Id, revision: nat, binding: Id, token: Id)

  function FailAllocation(db: Db, r: FailAllocationRequest, stamp: Stamp): Outcome {
    var prior := Prior(db, OfAllocationFailure, KindOnly, r.request, r.digest);
    if prior.Some? then prior.value
    else if r.worktree !in db.allocations || r.intent !in db.intents || db.intents[r.intent].kind != ForAllocation
    then Refuse(Integrity)
    else
      var a, i := db.allocations[r.worktree], db.intents[r.intent];
      if a.binding != r.binding || i.worktree != r.worktree || i.token != r.token then Refuse(BindingMismatch)
      else if a.revision != r.revision then Refuse(RevisionConflict)
      else if a.state != Admitted || i.phase != IntentRequested then Refuse(StateInvalid)
      else if (OfAllocationFailure, r.request) in db.results then Refuse(Constraint)
      else if !LeaseHeldFor(db, r.worktree, r.intent) || db.leases[r.worktree].phase != LeaseActive
        then Refuse(RevisionConflict)
      else
        var b := Moved(a, Quarantined, CleanupFault);
        Committed(db.(allocations := db.allocations[r.worktree := b],
                      intents := db.intents[r.intent := i.(phase := IntentQuarantined)],
                      leases := db.leases[r.worktree := db.leases[r.worktree].(phase := LeaseQuarantined)],
                      results := db.results[(OfAllocationFailure, r.request) := Result(r.digest, KindOnly, r.worktree)],
                      events := Record(db.events, r.worktree, b, AllocationQuarantined, stamp),
                      admission := Blocked))
  }

  // recordSeal -----------------------------------------------------------------------------------

  /** The sealed candidate carries `pending-evidence` and the far-future retention date. */
  datatype SealRequest = SealRequest(
    request: Id, digest: Id, worktree: Id, revision: nat, binding: Id, candidate: Id, commit: Id, matchesBinding: bool,
      until: Time)

  function RecordSeal(db: Db, r: SealRequest, stamp: Stamp): Outcome {
    var prior := Prior(db, OfLifecycle, KindSeal, r.request, r.digest);
    if prior.Some? then prior.value
    else if db.admission != Enabled then Refuse(AdmissionBlocked)
    else if r.worktree !in db.allocations then Refuse(Integrity)
    else
      var a := db.allocations[r.worktree];
      if a.binding != r.binding then Refuse(BindingMismatch)
      else if a.revision != r.revision then Refuse(RevisionConflict)
      else if a.state != Stopping then Refuse(StateInvalid)
      else if !r.matchesBinding then Refuse(BindingMismatch)
      else if r.candidate in db.candidates || (exists c :: c in db.candidates && db.candidates[c].worktree ==
                                                 r.worktree)
              || (OfLifecycle, r.request) in db.results
      then Refuse(Constraint)
      else
        var b := Moved(a, Sealed, a.cleanup);
        Committed(db.(allocations := db.allocations[r.worktree := b],
                      candidates := db.candidates[r.candidate := Candidate(r.worktree, r.commit, PendingEvidence,
                          r.until, None)],
                      results := db.results[(OfLifecycle, r.request) := Result(r.digest, KindSeal, r.candidate)],
                      events := Record(db.events, r.worktree, b, SealCompleted, stamp)))
  }

  // prepareCandidateImport -----------------------------------------------------------------------

  datatype ImportRequest = ImportRequest(request: Id, digest: Id, worktree: Id, revision: nat, binding: Id,
                                         candidate: Id)

  /** A lease that still holds its repository. */
  predicate Holds(l: RepositoryLease) { l.phase in {RepositoryActive, RepositoryQuarantined} }

  function PrepareImport(db: Db, r: ImportRequest, intent: Id, token: Id, stamp: Stamp): Outcome {
    var prior := Prior(db, OfLifecycle, KindImportIntent, r.request, r.digest);
    if prior.Some? then
      if prior.value.Replayed? && (prior.value.resource !in db.imports
                                   || db.imports[prior.value.resource].phase != IntentRequested)
      then Refuse(Integrity) else prior.value
    else if db.admission != Enabled then Refuse(AdmissionBlocked)
    else if r.worktree !in db.allocations then Refuse(Integrity)
    else
      var a := db.allocations[r.worktree];
      if a.binding != r.binding then Refuse(BindingMismatch)
      else if a.revision != r.revision then Refuse(RevisionConflict)
      else if a.state != Sealed then Refuse(StateInvalid)
      else if r.candidate !in db.candidates || db.candidates[r.candidate].worktree != r.worktree
        then Refuse(BindingMismatch)
      else if exists i :: i in db.repositories && db.repositories[i].repository == a.repository
                          && Holds(db.repositories[i])
      then Refuse(RepositoryConflict)
      else if intent in db.imports || intent in db.repositories || (OfLifecycle, r.request) in db.results
      then Refuse(Constraint)
      else
        Committed(db.(imports := db.imports[intent := ImportIntent(r.worktree, r.candidate, token, IntentRequested)],
                      repositories := db.repositories[intent := RepositoryLease(a.repository, r.worktree, token,
                          RepositoryActive)],
                      results := db.results[(OfLifecycle, r.request) := Result(r.digest, KindImportIntent, intent)],
                      events := Record(db.events, r.worktree, a, ImportRequested, stamp)))
  }

  // completeCandidateImport and failCandidateImport -----------------------------------------------

  datatype ImportEndRequest = ImportEndRequest(
    request: Id, digest: Id, intent: Id, worktree: Id, revision: nat, binding: Id, candidate: Id, token: Id, commit: Id,
      ref: Id)

  /** The guarded updates of both: intent requested, lease active, row sealed at the expected revision. */
  predicate ImportOpen(db: Db, r: ImportEndRequest) {
    && r.intent in db.imports && db.imports[r.intent].phase == IntentRequested && db.imports[r.intent].token == r.token
    && r.intent in db.repositories && db.repositories[r.intent].worktree == r.worktree
    && db.repositories[r.intent].phase == RepositoryActive && db.repositories[r.intent].token == r.token
    && Guard(db, r.worktree, r.revision, Sealed, r.binding)
  }

  function CompleteImport(db: Db, r: ImportEndRequest, stamp: Stamp): Outcome {
    var prior := Prior(db, OfLifecycle, KindImportComplete, r.request, r.digest);
    if prior.Some? then prior.value
    else if r.worktree !in db.allocations || r.intent !in db.imports || r.candidate !in db.candidates
      then Refuse(Integrity)
    else
      var a, i, c := db.allocations[r.worktree], db.imports[r.intent], db.candidates[r.candidate];
      if a.binding != r.binding || i.worktree != r.worktree || i.candidate != r.candidate || c.worktree != r.worktree
      then Refuse(BindingMismatch)
      else if a.revision != r.revision then Refuse(RevisionConflict)
      else if a.state != Sealed || i.phase != IntentRequested then Refuse(StateInvalid)
      else if i.token != r.token || c.commit != r.commit then Refuse(BindingMismatch)
      else if !ImportOpen(db, r) then Refuse(RevisionConflict)
      else if (OfLifecycle, r.request) in db.results then Refuse(Constraint)
      else
        var b := Moved(a, CandidateImported, a.cleanup);
        var marked := if c.quarantineRef.None? then c.(quarantineRef := Some(r.ref)) else c;
        Committed(db.(allocations := db.allocations[r.worktree := b],
                      candidates := db.candidates[r.candidate := marked],
                      imports := db.imports[r.intent := i.(phase := IntentCompleted)],
                      repositories :=
                        db.repositories[r.intent := db.repositories[r.intent].(phase := RepositoryReleased)],
                      results := db.results[(OfLifecycle, r.request) := Result(r.digest, KindImportComplete,
                          r.candidate)],
                      events := Record(db.events, r.worktree, b, ImportCompleted, stamp)))
  }

  /** The quota lease and the cleanup state of the row stay as they are. */
  function FailImport(db: Db, r: ImportEndRequest, stamp: Stamp): Outcome {
    var prior := Prior(db, OfLifecycle, KindState, r.request, r.digest);
    if prior.Some? then prior.value
    else if r.worktree !in db.allocations || r.intent !in db.imports then Refuse(Integrity)
    else
      var a, i := db.allocations[r.worktree], db.imports[r.intent];
      if a.binding != r.binding || i.worktree != r.worktree || i.candidate != r.candidate || i.token != r.token
      then Refuse(BindingMismatch)
      else if a.revision != r.revision then Refuse(RevisionConflict)
      else if a.state != Sealed || i.phase != IntentRequested then Refuse(StateInvalid)
      else if !ImportOpen(db, r) then Refuse(RevisionConflict)
      else if (OfLifecycle, r.request) in db.results then Refuse(Constraint)
      else
        var b := Moved(a, Quarantined, a.cleanup);
        Committed(db.(allocations := db.allocations[r.worktree := b],
                      imports := db.imports[r.intent := i.(phase := IntentQuarantined)],
                      repositories :=
                        db.repositories[r.intent := db.repositories[r.intent].(phase := RepositoryQuarantined)],
                      results := db.results[(OfLifecycle, r.request) := Result(r.digest, KindState, r.worktree)],
                      events := Record(db.events, r.worktree, b, ImportQuarantined, stamp),
                      admission := Blocked))
  }

  // recordRetention -------------------------------------------------------------------------------

  datatype RetentionRequest = RetentionRequest(
    request: Id, digest: Id, worktree: Id, revision: nat, binding: Id, candidate: Id, chosen: Retention)

  function RetentionMilliseconds(chosen: Retention): int {
    if chosen == Incident then 2592000000 else 86400000
  }

  function RecordRetention(db: Db, r: RetentionRequest, stamp: Stamp): Outcome {
    var prior := Prior(db, OfRetention, KindOnly, r.request, r.digest);
    if prior.Some? then prior.value
    else if db.admission != Enabled then Refuse(AdmissionBlocked)
    else if r.worktree !in db.allocations || r.candidate !in db.candidates
      || db.candidates[r.candidate].worktree != r.worktree
    then Refuse(Integrity)
    else
      var a, c := db.allocations[r.worktree], db.candidates[r.candidate];
      if a.binding != r.binding then Refuse(BindingMismatch)
      else if a.revision != r.revision then Refuse(RevisionConflict)
      else if a.state !in {Sealed, CandidateImported} || c.retention != PendingEvidence || r.chosen == PendingEvidence
      then Refuse(StateInvalid)
      else if (OfRetention, r.request) in db.results then Refuse(Constraint)
      else
        var b := Moved(a, Retained, a.cleanup);
        var kept := c.(retention := r.chosen, until := stamp.at + RetentionMilliseconds(r.chosen));
        Committed(db.(allocations := db.allocations[r.worktree := b],
                      candidates := db.candidates[r.candidate := kept],
                      results := db.results[(OfRetention, r.request) := Result(r.digest, KindOnly, r.candidate)],
                      events := Record(db.events, r.worktree, b, RetentionCommitted, stamp)))
  }

  // preparePhysicalCleanup ------------------------------------------------------------------------

  datatype CleanupRequest = CleanupRequest(request: Id, digest: Id, worktree: Id, revision: nat, binding: Id)

  function CheckCleanup(db: Db, r: CleanupRequest): Check {
    var prior := Prior(db, OfCleanup, KindPrepare, r.request, r.digest);
    if prior.Some? then Answer(prior.value)
    else if db.admission != Enabled then Answer(Refuse(AdmissionBlocked))
    else if r.worktree !in db.allocations || !PhysicalIdentityValid(db.allocations[r.worktree])
      then Answer(Refuse(Integrity))
    else
      var a := db.allocations[r.worktree];
      if a.binding != r.binding then Answer(Refuse(BindingMismatch))
      else if a.revision != r.revision then Answer(Refuse(RevisionConflict))
      else if Cleaning !in Legal(a.state) then Answer(Refuse(StateInvalid))
      else Proceed
  }

  /** A candidate of the worktree whose retention was decided. */
  predicate RetentionDecided(db: Db, w: Id) {
    exists c :: c in db.candidates && db.candidates[c].worktree == w && db.candidates[c].retention != PendingEvidence
  }

  predicate StillKept(db: Db, w: Id, now: Time) {
    exists c :: c in db.candidates && db.candidates[c].worktree == w && db.candidates[c].until > now
  }

  /** `state` and `identity` are those of the row the check read; retention is read again here. */
  function CommitCleanup(db: Db, r: CleanupRequest, state: State, identity: Option<Id>, intent: Id, token: Id,
      stamp: Stamp): Outcome
  {
    if state == Retained && !RetentionDecided(db, r.worktree) then Refuse(Integrity)
    else if state == Retained && StillKept(db, r.worktree, stamp.at) then Refuse(RetentionActive)
    else if !Guard(db, r.worktree, r.revision, state, r.binding) then Refuse(RevisionConflict)
    else if intent in db.intents || (OfCleanup, r.request) in db.results then Refuse(Constraint)
    else
      var b := Moved(db.allocations[r.worktree], Cleaning, InCleanup);
      Committed(db.(allocations := db.allocations[r.worktree := b],
                    intents := db.intents[intent := Intent(r.worktree, ForCleanup, IntentRequested, token, identity,
                                                           None)],
                    results := db.results[(OfCleanup, r.request) := Result(r.digest, KindPrepare, intent)],
                    events := Record(db.events, r.worktree, b, CleanupRequested, stamp)))
  }

  // completePhysicalCleanup -----------------------------------------------------------------------

  datatype CleanupEndRequest = CleanupEndRequest(
    request: Id, digest: Id, intent: Id, worktree: Id, revision: nat, binding: Id, token: Id, expected: Id,
      observed: Id,
    tools: Id, proofHolds: bool, mismatch: bool)

  predicate CleanupIntentOpen(db: Db, r: CleanupEndRequest) {
    && r.intent in db.intents && db.intents[r.intent].kind == ForCleanup
    && db.intents[r.intent].phase == IntentRequested && db.intents[r.intent].token == r.token
  }

  function CheckComplete(db: Db, r: CleanupEndRequest): Check {
    var prior := Prior(db, OfCleanup, KindComplete, r.request, r.digest);
    if prior.Some? then Answer(prior.value)
    else if r.worktree !in db.allocations || r.intent !in db.intents || db.intents[r.intent].kind != ForCleanup
            || !PhysicalIdentityValid(db.allocations[r.worktree])
    then Answer(Refuse(Integrity))
    else
      var a, i := db.allocations[r.worktree], db.intents[r.intent];
      if a.binding != r.binding || i.worktree != r.worktree || i.token != r.token || i.identity != Some(r.expected)
      then Answer(Refuse(BindingMismatch))
      else if a.revision != r.revision then Answer(Refuse(RevisionConflict))
      else if a.state != Cleaning || i.phase != IntentRequested then Answer(Refuse(StateInvalid))
      else if r.observed != r.expected || a.identity != Some(r.expected) then Answer(Refuse(IdentityMismatch))
      else if a.tools != Some(r.tools) then Answer(Refuse(QualificationInvalid))
      else if !r.proofHolds then Answer(Refuse(IdentityMismatch))
      else Proceed
  }

  /** `project` is the one of the row the check read. */
  function CommitComplete(db: Db, r: CleanupEndRequest, project: nat, stamp: Stamp): Outcome {
    if !CleanupIntentOpen(db, r) || !Guard(db, r.worktree, r.revision, Cleaning, r.binding)
       || !(r.worktree in db.leases && db.leases[r.worktree].project == project
            && db.leases[r.worktree].phase == LeaseAllocated)
    then Refuse(RevisionConflict)
    else if (OfCleanup, r.request) in db.results then Refuse(Constraint)
    else
      var b := Moved(db.allocations[r.worktree], Cleaned, CleanedUp);
      Committed(db.(allocations := db.allocations[r.worktree := b],
                    intents := db.intents[r.intent := db.intents[r.intent].(phase := IntentCompleted)],
                    leases := db.leases[r.worktree := db.leases[r.worktree].(phase := LeaseReleased)],
                    results := db.results[(OfCleanup, r.request) := Result(r.digest, KindComplete, r.worktree)],
                    events := Record(db.events, r.worktree, b, CleanupCompleted, stamp)))
  }

  // failPhysicalCleanup ---------------------------------------------------------------------------

  function FailCleanup(db: Db, r: CleanupEndRequest, stamp: Stamp): Outcome {
    var prior := Prior(db, OfCleanup, KindFailure, r.request, r.digest);
    if prior.Some? then prior.value
    else if r.worktree !in db.allocations || r.intent !in db.intents || db.intents[r.intent].kind != ForCleanup
    then Refuse(Integrity)
    else
      var a, i := db.allocations[r.worktree], db.intents[r.intent];
      if a.binding != r.binding || i.worktree != r.worktree || i.token != r.token || i.identity != Some(r.expected)
      then Refuse(BindingMismatch)
      else if a.revision != r.revision then Refuse(RevisionConflict)
      else if a.state != Cleaning || i.phase != IntentRequested then Refuse(StateInvalid)
      else if (OfCleanup, r.request) in db.results then Refuse(Constraint)
      else if r.mismatch || r.observed != r.expected then
        if !(r.worktree in db.leases && db.leases[r.worktree].phase == LeaseAllocated) then Refuse(RevisionConflict)
        else
          var b := Moved(a, Quarantined, CleanupFault);
          Committed(db.(allocations := db.allocations[r.worktree := b],
                        intents := db.intents[r.intent := i.(phase := IntentQuarantined)],
                        leases := db.leases[r.worktree := db.leases[r.worktree].(phase := LeaseQuarantined)],
                        results := db.results[(OfCleanup, r.request) := Result(r.digest, KindFailure, r.worktree)],
                        events := Record(db.events, r.worktree, b, CleanupQuarantined, stamp),
                        admission := Blocked))
      else
        var b := Moved(a, CleanupFailed, CleanupFault);
        Committed(db.(allocations := db.allocations[r.worktree := b],
                      intents := db.intents[r.intent := i.(phase := IntentFailed)],
                      results := db.results[(OfCleanup, r.request) := Result(r.digest, KindFailure, r.worktree)],
                      events := Record(db.events, r.worktree, b, CleanupFailedEvent, stamp),
                      admission := Blocked))
  }

  // Startup ----------------------------------------------------------------------------------------

  /** The rows `recover` selects. */
  predicate NeedsRecovery(a: Allocation) {
    a.state !in {Refused, Cleaned, Quarantined} || a.cleanup in {InCleanup, CleanupFault}
  }

  function Selected(db: Db): set<Id> {
    set w | w in db.allocations && NeedsRecovery(db.allocations[w])
  }

  /** A repository lease after its worktree was recovered. */
  function RecoveredLease(l: RepositoryLease, w: Id): RepositoryLease {
    if l.worktree == w && l.phase == RepositoryActive then l.(phase := RepositoryQuarantined) else l
  }

  /** One row's recovery transaction: three state changes, three events, its leases quarantined. */
  function RecoverRow(db: Db, w: Id, first: Stamp, second: Stamp, third: Stamp): Db
    requires w in db.allocations
  {
    var a := Moved(db.allocations[w], RecoveryRequired, db.allocations[w].cleanup);
    var b := Moved(a, Reconciling, a.cleanup);
    var c := Moved(b, Quarantined, CleanupFault);
    var events := Record(Record(Record(db.events, w, a, RecoveryStarted, first), w, b, RecoveryClassified, second),
                         w, c, ResourceQuarantined, third);
    var leases := if w in db.leases && db.leases[w].phase in {LeaseActive, LeaseAllocated}
                  then db.leases[w := db.leases[w].(phase := LeaseQuarantined)] else db.leases;
    db.(allocations := db.allocations[w := c], leases := leases, events := events,
        repositories := map i | i in db.repositories :: RecoveredLease(db.repositories[i], w))
  }

  /** The admission `recover` ends with. */
  function FinishRecovery(db: Db, anySelected: bool): Db {
    db.(admission := if anySelected then Blocked else Enabled)
  }
}
