/** What each transaction promises a caller who finds the registry in order. */
module ExecutionPromises {
  import opened Wrappers
  import opened ExecutionTables
  import opened ExecutionTransactions
  import opened ExecutionInvariant
  import opened ExecutionMoves
  import opened ExecutionSteps
  import opened ExecutionCandidateSteps
  import opened ExecutionCleanupSteps
  import opened ExecutionProgress
  import opened ExecutionSystem

  /**
   The database is in order again; nothing went backward; one row at most changed, and one event
   was logged, which reports that row; and a start would accept the database if it accepted the
   one before, unless an import was failed.
   */
  predicate Promised(db: Db, after: Db, w: Id, now: Time, failed: bool) {
    && Inv(after, now) && Onward(db, after) && OneRow(db, after, w)
    && |after.events| == |db.events| + 1
    && after.events[|db.events|].worktree == w && after.events[|db.events|].state == after.allocations[w].state
    && (IntegrityHolds(after) <==> IntegrityHolds(db) && !failed)
  }

  /** A row that no start has quarantined since the request was checked. */
  predicate StillAdmitted(db: Db, w: Id) {
    w in db.allocations ==> db.allocations[w].state == Admitted
  }

  /** A state `preparePhysicalCleanup` finds in a registry without a fault. */
  predicate MayClean(s: State) {
    Cleaning in Legal(s) && s != CleanupFailed
  }

  lemma Promise(db: Db, after: Db, w: Id, name: EventName, stamp: Stamp, now: Time)
    requires Inv(db, now) && Inv(after, stamp.at) && Onward(db, after) && OneRow(db, after, w)
    requires after.events == Record(db.events, w, after.allocations[w], name, stamp)
    ensures Promised(db, after, w, stamp.at, name == ImportQuarantined)
  {
    hide Inv, Onward, IntegrityHolds;
    IntegrityIff(db, now);
    IntegrityIff(after, stamp.at);
    FailedAfterEvent(db, after, w, name, stamp);
  }

  lemma FailedAfterEvent(db: Db, after: Db, w: Id, name: EventName, stamp: Stamp)
    requires OneRow(db, after, w) && after.events == Record(db.events, w, after.allocations[w], name, stamp)
    ensures FailedImports(after.events) == {} <==> FailedImports(db.events) == {} && name != ImportQuarantined
  {
    hide FailedImports;
    FailedAfter(db.events, w, after.allocations[w], name, stamp);
    if name == ImportQuarantined { assert w in FailedImports(after.events); }
  }

  lemma ReservePromised(db: Db, r: ReserveRequest, mode: Mode, authority: nat, w: Id, stamp: Stamp, now: Time)
    requires Inv(db, now) && now <= stamp.at
    requires CommitReserve(db, r, mode, authority, w, stamp).Committed?
    ensures Promised(db, CommitReserve(db, r, mode, authority, w, stamp).db, w, stamp.at, false)
  {
    ReserveLogs(db, r, mode, authority, w, stamp);
    hide CommitReserve, Inv, Promised, Onward, OneRow, Record;
    ReserveKeeps(db, r, mode, authority, w, stamp, now);
    ReserveFine(db, r, mode, authority, w, stamp);
    Promise(db, CommitReserve(db, r, mode, authority, w, stamp).db, w, AllocationRequested, stamp, now);
  }

  lemma ReserveLogs(db: Db, r: ReserveRequest, mode: Mode, authority: nat, w: Id, stamp: Stamp)
    requires CommitReserve(db, r, mode, authority, w, stamp).Committed?
    ensures var after := CommitReserve(db, r, mode, authority, w, stamp).db;
            OneRow(db, after, w) && after.events == Record(db.events, w, after.allocations[w], AllocationRequested,
                                                           stamp)
  {
    hide EventFor, Prior;
  }

  lemma AdvancePromised(db: Db, r: AdvanceRequest, stamp: Stamp, now: Time)
    requires Inv(db, now) && now <= stamp.at && FromController(db, r)
    requires Advance(db, r, stamp).Committed?
    ensures Promised(db, Advance(db, r, stamp).db, r.worktree, stamp.at, false)
  {
    AdvanceLogs(db, r, stamp);
    hide Advance, Inv, Promised, Onward, OneRow, Record;
    AdvanceKeeps(db, r, stamp, now);
    AdvanceFine(db, r, stamp);
    Promise(db, Advance(db, r, stamp).db, r.worktree, StateAdvanced, stamp, now);
  }

  lemma AdvanceLogs(db: Db, r: AdvanceRequest, stamp: Stamp)
    requires Advance(db, r, stamp).Committed?
    ensures var after := Advance(db, r, stamp).db;
            OneRow(db, after, r.worktree) && after.events
              == Record(db.events, r.worktree, after.allocations[r.worktree], StateAdvanced, stamp)
  {
    hide EventFor, Prior;
  }

  lemma PreparePromised(db: Db, r: PrepareRequest, intent: Id, token: Id, stamp: Stamp, now: Time)
    requires Inv(db, now) && now <= stamp.at && StillAdmitted(db, r.worktree)
    requires CommitPrepare(db, r, intent, token, stamp).Committed?
    ensures Promised(db, CommitPrepare(db, r, intent, token, stamp).db, r.worktree, stamp.at, false)
  {
    PrepareLogs(db, r, intent, token, stamp);
    hide CommitPrepare, Inv, Promised, Onward, OneRow, Record;
    assert r.worktree in db.allocations;
    PrepareKeeps(db, r, intent, token, stamp, now);
    PrepareFine(db, r, intent, token, stamp);
    Promise(db, CommitPrepare(db, r, intent, token, stamp).db, r.worktree, AllocationIntentRecorded, stamp, now);
  }

  lemma PrepareLogs(db: Db, r: PrepareRequest, intent: Id, token: Id, stamp: Stamp)
    requires CommitPrepare(db, r, intent, token, stamp).Committed?
    ensures var after := CommitPrepare(db, r, intent, token, stamp).db;
            OneRow(db, after, r.worktree) && after.events
              == Record(db.events, r.worktree, after.allocations[r.worktree], AllocationIntentRecorded, stamp)
    ensures r.worktree in db.allocations
  {
    hide EventFor, Prior;
  }

  lemma RecordPromised(db: Db, r: RecordRequest, stamp: Stamp, now: Time)
    requires Inv(db, now) && now <= stamp.at
    requires CommitRecord(db, r, stamp).Committed?
    ensures Promised(db, CommitRecord(db, r, stamp).db, r.worktree, stamp.at, false)
  {
    RecordLogs(db, r, stamp);
    hide CommitRecord, Inv, Promised, Onward, OneRow, Record;
    RecordKeeps(db, r, stamp, now);
    RecordFine(db, r, stamp);
    Promise(db, CommitRecord(db, r, stamp).db, r.worktree, AllocationProofRecorded, stamp, now);
  }

  lemma RecordLogs(db: Db, r: RecordRequest, stamp: Stamp)
    requires CommitRecord(db, r, stamp).Committed?
    ensures var after := CommitRecord(db, r, stamp).db;
            OneRow(db, after, r.worktree) && after.events
              == Record(db.events, r.worktree, after.allocations[r.worktree], AllocationProofRecorded, stamp)
  {
    hide EventFor, Prior;
  }

  lemma FailAllocationPromised(db: Db, r: FailAllocationRequest, stamp: Stamp, now: Time)
    requires Inv(db, now) && now <= stamp.at
    requires FailAllocation(db, r, stamp).Committed?
    ensures Promised(db, FailAllocation(db, r, stamp).db, r.worktree, stamp.at, false)
  {
    FailAllocationLogs(db, r, stamp);
    hide FailAllocation, Inv, Promised, Onward, OneRow, Record;
    FailAllocationKeeps(db, r, stamp, now);
    FailAllocationFine(db, r, stamp);
    Promise(db, FailAllocation(db, r, stamp).db, r.worktree, AllocationQuarantined, stamp, now);
  }

  lemma FailAllocationLogs(db: Db, r: FailAllocationRequest, stamp: Stamp)
    requires FailAllocation(db, r, stamp).Committed?
    ensures var after := FailAllocation(db, r, stamp).db;
            OneRow(db, after, r.worktree) && after.events
              == Record(db.events, r.worktree, after.allocations[r.worktree], AllocationQuarantined, stamp)
  {
    hide EventFor, Prior;
  }

  lemma SealPromised(db: Db, r: SealRequest, stamp: Stamp, now: Time)
    requires Inv(db, now) && now <= stamp.at
    requires RecordSeal(db, r, stamp).Committed?
    ensures Promised(db, RecordSeal(db, r, stamp).db, r.worktree, stamp.at, false)
  {
    SealLogs(db, r, stamp);
    hide RecordSeal, Inv, Promised, Onward, OneRow, Record;
    SealKeeps(db, r, stamp, now);
    SealFine(db, r, stamp);
    Promise(db, RecordSeal(db, r, stamp).db, r.worktree, SealCompleted, stamp, now);
  }

  lemma SealLogs(db: Db, r: SealRequest, stamp: Stamp)
    requires RecordSeal(db, r, stamp).Committed?
    ensures var after := RecordSeal(db, r, stamp).db;
            OneRow(db, after, r.worktree) && after.events
              == Record(db.events, r.worktree, after.allocations[r.worktree], SealCompleted, stamp)
  {
    hide EventFor, Prior;
  }

  lemma PrepareImportPromised(db: Db, r: ImportRequest, intent: Id, token: Id, stamp: Stamp, now: Time)
    requires Inv(db, now) && now <= stamp.at
    requires PrepareImport(db, r, intent, token, stamp).Committed?
    ensures Promised(db, PrepareImport(db, r, intent, token, stamp).db, r.worktree, stamp.at, false)
  {
    PrepareImportLogs(db, r, intent, token, stamp);
    hide PrepareImport, Inv, Promised, Onward, OneRow, Record;
    PrepareImportKeeps(db, r, intent, token, stamp, now);
    PrepareImportFine(db, r, intent, token, stamp);
    Promise(db, PrepareImport(db, r, intent, token, stamp).db, r.worktree, ImportRequested, stamp, now);
  }

  lemma PrepareImportLogs(db: Db, r: ImportRequest, intent: Id, token: Id, stamp: Stamp)
    requires PrepareImport(db, r, intent, token, stamp).Committed?
    ensures var after := PrepareImport(db, r, intent, token, stamp).db;
            OneRow(db, after, r.worktree) && after.events
              == Record(db.events, r.worktree, after.allocations[r.worktree], ImportRequested, stamp)
  {
    hide EventFor, Prior;
  }

  lemma CompleteImportPromised(db: Db, r: ImportEndRequest, stamp: Stamp, now: Time)
    requires Inv(db, now) && now <= stamp.at
    requires CompleteImport(db, r, stamp).Committed?
    ensures Promised(db, CompleteImport(db, r, stamp).db, r.worktree, stamp.at, false)
  {
    CompleteImportLogs(db, r, stamp);
    hide CompleteImport, Inv, Promised, Onward, OneRow, Record;
    CompleteImportKeeps(db, r, stamp, now);
    CompleteImportFine(db, r, stamp);
    Promise(db, CompleteImport(db, r, stamp).db, r.worktree, ImportCompleted, stamp, now);
  }

  lemma CompleteImportLogs(db: Db, r: ImportEndRequest, stamp: Stamp)
    requires CompleteImport(db, r, stamp).Committed?
    ensures var after := CompleteImport(db, r, stamp).db;
            OneRow(db, after, r.worktree) && after.events
              == Record(db.events, r.worktree, after.allocations[r.worktree], ImportCompleted, stamp)
  {
    hide EventFor, Prior;
  }

  lemma FailImportPromised(db: Db, r: ImportEndRequest, stamp: Stamp, now: Time)
    requires Inv(db, now) && now <= stamp.at
    requires FailImport(db, r, stamp).Committed?
    ensures Promised(db, FailImport(db, r, stamp).db, r.worktree, stamp.at, true)
  {
    FailImportLogs(db, r, stamp);
    hide FailImport, Inv, Promised, Onward, OneRow, Record;
    FailImportKeeps(db, r, stamp, now);
    FailImportFine(db, r, stamp);
    Promise(db, FailImport(db, r, stamp).db, r.worktree, ImportQuarantined, stamp, now);
  }

  lemma FailImportLogs(db: Db, r: ImportEndRequest, stamp: Stamp)
    requires FailImport(db, r, stamp).Committed?
    ensures var after := FailImport(db, r, stamp).db;
            OneRow(db, after, r.worktree) && after.events
              == Record(db.events, r.worktree, after.allocations[r.worktree], ImportQuarantined, stamp)
  {
    hide EventFor, Prior;
  }

  lemma RetentionPromised(db: Db, r: RetentionRequest, stamp: Stamp, now: Time)
    requires Inv(db, now) && now <= stamp.at
    requires RecordRetention(db, r, stamp).Committed?
    ensures Promised(db, RecordRetention(db, r, stamp).db, r.worktree, stamp.at, false)
  {
    RetentionLogs(db, r, stamp);
    hide RecordRetention, Inv, Promised, Onward, OneRow, Record;
    RetentionKeeps(db, r, stamp, now);
    RetentionFine(db, r, stamp);
    Promise(db, RecordRetention(db, r, stamp).db, r.worktree, RetentionCommitted, stamp, now);
  }

  lemma RetentionLogs(db: Db, r: RetentionRequest, stamp: Stamp)
    requires RecordRetention(db, r, stamp).Committed?
    ensures var after := RecordRetention(db, r, stamp).db;
            OneRow(db, after, r.worktree) && after.events
              == Record(db.events, r.worktree, after.allocations[r.worktree], RetentionCommitted, stamp)
  {
    hide EventFor, Prior;
  }

  lemma CleanupPromised(db: Db, r: CleanupRequest, state: State, identity: Option<Id>, intent: Id, token: Id,
      stamp: Stamp, now: Time)
    requires Inv(db, now) && now <= stamp.at && MayClean(state)
    requires CommitCleanup(db, r, state, identity, intent, token, stamp).Committed?
    ensures Promised(db, CommitCleanup(db, r, state, identity, intent, token, stamp).db, r.worktree, stamp.at, false)
  {
    CleanupLogs(db, r, state, identity, intent, token, stamp);
    hide CommitCleanup, Inv, Promised, Onward, OneRow, Record;
    RowsHold(db, now);
    CleanupKeeps(db, r, state, identity, intent, token, stamp, now);
    CleanupFine(db, r, state, identity, intent, token, stamp);
    Promise(db, CommitCleanup(db, r, state, identity, intent, token, stamp).db, r.worktree, CleanupRequested, stamp,
            now);
  }

  lemma CleanupLogs(db: Db, r: CleanupRequest, state: State, identity: Option<Id>, intent: Id, token: Id, stamp: Stamp)
    requires CommitCleanup(db, r, state, identity, intent, token, stamp).Committed?
    ensures var after := CommitCleanup(db, r, state, identity, intent, token, stamp).db;
            OneRow(db, after, r.worktree) && after.events
              == Record(db.events, r.worktree, after.allocations[r.worktree], CleanupRequested, stamp)
  {
    hide EventFor, Prior;
  }

  lemma CompletePromised(db: Db, r: CleanupEndRequest, project: nat, stamp: Stamp, now: Time)
    requires Inv(db, now) && now <= stamp.at
    requires CommitComplete(db, r, project, stamp).Committed?
    ensures Promised(db, CommitComplete(db, r, project, stamp).db, r.worktree, stamp.at, false)
  {
    CompleteLogs(db, r, project, stamp);
    hide CommitComplete, Inv, Promised, Onward, OneRow, Record;
    RowsHold(db, now);
    CompleteKeeps(db, r, project, stamp, now);
    CompleteFine(db, r, project, stamp);
    Promise(db, CommitComplete(db, r, project, stamp).db, r.worktree, CleanupCompleted, stamp, now);
  }

  lemma CompleteLogs(db: Db, r: CleanupEndRequest, project: nat, stamp: Stamp)
    requires CommitComplete(db, r, project, stamp).Committed?
    ensures var after := CommitComplete(db, r, project, stamp).db;
            OneRow(db, after, r.worktree) && after.events
              == Record(db.events, r.worktree, after.allocations[r.worktree], CleanupCompleted, stamp)
  {
    hide EventFor, Prior;
  }

  lemma RowsHold(db: Db, now: Time)
    requires Inv(db, now)
    ensures RowsOk(db.allocations, FailedImports(db.events))
  {
  }

  lemma FailCleanupPromised(db: Db, r: CleanupEndRequest, stamp: Stamp, now: Time)
    requires Inv(db, now) && now <= stamp.at
    requires FailCleanup(db, r, stamp).Committed?
    ensures Promised(db, FailCleanup(db, r, stamp).db, r.worktree, stamp.at, false)
  {
    FailCleanupLogs(db, r, stamp);
    hide FailCleanup, Inv, Promised, Onward, OneRow, Record;
    FailCleanupKeeps(db, r, stamp, now);
    FailCleanupFine(db, r, stamp);
    var name := if r.mismatch || r.observed != r.expected then CleanupQuarantined else CleanupFailedEvent;
    Promise(db, FailCleanup(db, r, stamp).db, r.worktree, name, stamp, now);
  }

  lemma FailCleanupLogs(db: Db, r: CleanupEndRequest, stamp: Stamp)
    requires FailCleanup(db, r, stamp).Committed?
    ensures var after := FailCleanup(db, r, stamp).db;
            var name := if r.mismatch || r.observed != r.expected then CleanupQuarantined else CleanupFailedEvent;
            OneRow(db, after, r.worktree)
            && after.events == Record(db.events, r.worktree, after.allocations[r.worktree], name, stamp)
  {
    hide EventFor, Prior;
  }
}
