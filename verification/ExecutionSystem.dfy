/**
 The registry as a process over its database: requests interleave at every await, the process
 can crash between any two transactions, and each start checks the database and then recovers
 it row by row. A continuation that has passed its checks may commit at any later moment, or
 never; a crash forgets it.
 */
module ExecutionSystem {
  import opened Wrappers
  import opened ExecutionTables
  import opened ExecutionTransactions
  import opened ExecutionInvariant
  import opened ExecutionMoves
  import opened ExecutionSteps
  import opened ExecutionCandidateSteps
  import opened ExecutionCleanupSteps
  import opened ExecutionProgress

  /** `Recovery` is the loop of `recover`: the rows still to do, and whether there were any. */
  datatype Status = Down | Recovery(todo: set<Id>, any: bool) | Up

  /** A request that has passed its checks, with what it captured. */
  datatype Pending =
    | AwaitReserve(reserve: ReserveRequest)
    | AwaitPrepare(prepare: PrepareRequest)
    | AwaitRecord(record: RecordRequest)
    | AwaitCleanup(cleanup: CleanupRequest, state: State, identity: Option<Id>)
    | AwaitComplete(complete: CleanupEndRequest, project: nat)

  /**
   `ready` holds the import intents whose caller is about to run the external importer, `called`
   the intents it was run for, in order. Both belong to the import controller.
   */
  datatype System = System(
    db: Db, status: Status, pending: set<Pending>, ready: set<Id>, called: seq<Id>, now: Time)

  datatype Action =
    | Start | RecoverOne(row: Id, first: Stamp, second: Stamp, third: Stamp) | FinishStart | Crash | Tick(to: Time)
    | Ask(request: Pending)
    | CommitReserveOf(reserve: ReserveRequest, mode: Mode, authority: nat, chosen: Id, stamp: Stamp)
    | CommitPrepareOf(prepare: PrepareRequest, chosen: Id, token: Id, stamp: Stamp)
    | CommitRecordOf(record: RecordRequest, stamp: Stamp)
    | CommitCleanupOf(cleanup: CleanupRequest, state: State, identity: Option<Id>, chosen: Id, token: Id, stamp: Stamp)
    | CommitCompleteOf(complete: CleanupEndRequest, project: nat, stamp: Stamp)
    | DoAdvance(advance: AdvanceRequest, stamp: Stamp)
    | DoFailAllocation(failure: FailAllocationRequest, stamp: Stamp)
    | DoSeal(seal: SealRequest, stamp: Stamp)
    | DoPrepareImport(candidateImport: ImportRequest, chosen: Id, token: Id, stamp: Stamp)
    | CallImporter(intent: Id)
    | DoCompleteImport(end: ImportEndRequest, stamp: Stamp)
    | DoFailImport(end: ImportEndRequest, stamp: Stamp)
    | DoRetention(retention: RetentionRequest, stamp: Stamp)
    | DoFailCleanup(cleanupEnd: CleanupEndRequest, stamp: Stamp)

  /** A stamp taken from the clock now. */
  function At(s: System, stamp: Stamp): Stamp { stamp.(at := s.now) }

  function Settle(s: System, o: Outcome): System {
    if o.Committed? then s.(db := o.db) else s
  }

  /** The check that lets this request wait for its authority, on the row it captures. */
  predicate MayWait(db: Db, p: Pending) {
    match p
    case AwaitReserve(r) => CheckReserve(db, r).Proceed?
    case AwaitPrepare(r) => CheckPrepare(db, r).Proceed?
    case AwaitRecord(r) => CheckRecord(db, r).Proceed?
    case AwaitCleanup(r, state, identity) =>
      && CheckCleanup(db, r).Proceed?
      && db.allocations[r.worktree].state == state && db.allocations[r.worktree].identity == identity
    case AwaitComplete(r, project) =>
      CheckComplete(db, r).Proceed? && db.allocations[r.worktree].project == Some(project)
  }

  /** Running operations; a request of `advance` off the controller's edges is never made. */
  function Serve(s: System, a: Action): System {
    match a
    case Ask(p) => if MayWait(s.db, p) then s.(pending := s.pending + {p}) else s
    case CommitReserveOf(r, mode, authority, w, stamp) =>
      if AwaitReserve(r) in s.pending then Settle(s, CommitReserve(s.db, r, mode, authority, w, At(s, stamp))) else s
    case CommitPrepareOf(r, intent, token, stamp) =>
      if AwaitPrepare(r) in s.pending then Settle(s, CommitPrepare(s.db, r, intent, token, At(s, stamp))) else s
    case CommitRecordOf(r, stamp) =>
      if AwaitRecord(r) in s.pending then Settle(s, CommitRecord(s.db, r, At(s, stamp))) else s
    case CommitCleanupOf(r, state, identity, intent, token, stamp) =>
      if AwaitCleanup(r, state, identity) in s.pending
      then Settle(s, CommitCleanup(s.db, r, state, identity, intent, token, At(s, stamp))) else s
    case CommitCompleteOf(r, project, stamp) =>
      if AwaitComplete(r, project) in s.pending then Settle(s, CommitComplete(s.db, r, project, At(s, stamp))) else s
    case DoAdvance(r, stamp) => if FromController(s.db, r) then Settle(s, Advance(s.db, r, At(s, stamp))) else s
    case DoFailAllocation(r, stamp) => Settle(s, FailAllocation(s.db, r, At(s, stamp)))
    case DoSeal(r, stamp) => Settle(s, RecordSeal(s.db, r, At(s, stamp)))
    case DoPrepareImport(r, intent, token, stamp) =>
      var o := PrepareImport(s.db, r, intent, token, At(s, stamp));
      if o.Committed? then s.(db := o.db, ready := s.ready + {intent}) else s
    case CallImporter(intent) =>
      if intent in s.ready then s.(ready := s.ready - {intent}, called := s.called + [intent]) else s
    case DoCompleteImport(r, stamp) => Settle(s, CompleteImport(s.db, r, At(s, stamp)))
    case DoFailImport(r, stamp) => Settle(s, FailImport(s.db, r, At(s, stamp)))
    case DoRetention(r, stamp) => Settle(s, RecordRetention(s.db, r, At(s, stamp)))
    case DoFailCleanup(r, stamp) => Settle(s, FailCleanup(s.db, r, At(s, stamp)))
    case _ => s
  }

  function Step(s: System, a: Action): System {
    match a
    case Tick(to) => if to >= s.now then s.(now := to) else s
    case Crash => s.(status := Down, pending := {}, ready := {})
    case Start =>
      if s.status.Down? && IntegrityHolds(s.db)
      then s.(db := s.db.(admission := Recovering), status := Recovery(Selected(s.db), Selected(s.db) != {})) else s
    case RecoverOne(w, first, second, third) =>
      if s.status.Recovery? && w in s.status.todo && w in s.db.allocations
      then s.(db := RecoverRow(s.db, w, At(s, first), At(s, second), At(s, third)),
              status := Recovery(s.status.todo - {w}, s.status.any))
      else s
    case FinishStart =>
      if s.status.Recovery? && s.status.todo == {}
      then s.(db := FinishRecovery(s.db, s.status.any), status := Up) else s
    case _ => if s.status.Up? then Serve(s, a) else s
  }

  function Boot(now: Time): System {
    System(Fresh(), Down, {}, {}, [], now)
  }

  function Run(now: Time, actions: seq<Action>): System {
    if actions == [] then Boot(now) else Step(Run(now, actions[..|actions| - 1]), actions[|actions| - 1])
  }

  // The invariant of the process --------------------------------------------------------------------

  /** What a captured request may still rely on when it commits. */
  predicate PendingOk(db: Db, p: Pending) {
    match p
    case AwaitPrepare(r) => r.worktree in db.allocations
      && (db.allocations[r.worktree].state == Admitted || r.worktree in db.leases)
    case AwaitCleanup(_, state, _) => Cleaning in Legal(state) && state != CleanupFailed
    case _ => true
  }

  /** While the process runs, admission is enabled exactly when nothing has faulted. */
  predicate AdmissionOk(db: Db) {
    db.admission == if Faulted(db) then Blocked else Enabled
  }

  predicate Settled(a: Allocation) { a.state in {Cleaned, Quarantined} }

  predicate RecoveryOk(db: Db, todo: set<Id>, any: bool) {
    && FailedImports(db.events) == {}
    && (forall w :: w in todo ==> w in db.allocations && NeedsRecovery(db.allocations[w]))
    && (forall w :: w in db.allocations && w !in todo ==> Settled(db.allocations[w]))
    && (if any then todo != {} || Faulted(db) else todo == {} && !Faulted(db))
  }

  predicate StatusOk(s: System) {
    match s.status
    case Down => s.pending == {} && s.ready == {}
    case Recovery(todo, any) => s.pending == {} && s.ready == {} && RecoveryOk(s.db, todo, any)
    case Up => AdmissionOk(s.db)
  }

  predicate ImportLogOk(s: System) {
    && (forall i :: i in s.ready ==> i in s.db.imports)
    && (forall k :: 0 <= k < |s.called| ==> s.called[k] in s.db.imports && s.called[k] !in s.ready)
    && (forall j, k :: 0 <= j < k < |s.called| ==> s.called[j] != s.called[k])
  }

  predicate SystemOk(s: System) {
    && Inv(s.db, s.now) && StatusOk(s) && ImportLogOk(s)
    && forall p :: p in s.pending ==> PendingOk(s.db, p)
  }

  // Steps ------------------------------------------------------------------------------------------------

  lemma {:induction false} InvOutlastsTime(db: Db, now: Time, later: Time)
    requires Inv(db, now) && now <= later
    ensures Inv(db, later)
  {
    hide LeasesOk, RowsOk, Traced, ImportsOk, HasRetentionResult, CandidateRule;
    forall c | c in db.candidates
      ensures CandidateRule(db.candidates[c], db.allocations[db.candidates[c].worktree].state,
                HasRetentionResult(db, c), later)
    {
      RuleOutlastsTime(db.candidates[c], db.allocations[db.candidates[c].worktree].state, HasRetentionResult(db, c),
                       now, later);
    }
  }

  /** A running operation that keeps the invariant and progress keeps the whole process in order. */
  lemma SettleKeeps(s: System, o: Outcome)
    requires SystemOk(s) && s.status.Up? && Fine(s.db, o)
    requires o.Committed? ==> Inv(o.db, s.now)
    ensures SystemOk(Settle(s, o))
  {
    hide Inv, Faulted, RowOnward;
    if o.Committed? {
      FaultsStay(s.db, o.db);
      forall p | p in s.pending ensures PendingOk(o.db, p) {
        assert PendingOk(s.db, p);
      }
    }
  }

  /** A request that proceeds may rely on what it captured. */
  lemma AskKeeps(s: System, p: Pending)
    requires SystemOk(s) && s.status.Up? && MayWait(s.db, p)
    ensures PendingOk(s.db, p)
  {
    hide Inv, ImportLogOk, Faulted, CheckReserve, CheckPrepare, CheckRecord, CheckCleanup, CheckComplete, Legal;
    match p
    case AwaitPrepare(r) => PrepareProceeds(s.db, r);
    case AwaitCleanup(r, _, _) =>
      CleanupProceeds(s.db, r);
      NoCleanupFailed(s.db, s.now, r.worktree);
    case _ =>
  }

  lemma PrepareProceeds(db: Db, r: PrepareRequest)
    requires CheckPrepare(db, r).Proceed?
    ensures r.worktree in db.allocations && db.allocations[r.worktree].state == Admitted
  {
    hide Prior;
  }

  lemma CleanupProceeds(db: Db, r: CleanupRequest)
    requires CheckCleanup(db, r).Proceed?
    ensures db.admission == Enabled && r.worktree in db.allocations
              && Cleaning in Legal(db.allocations[r.worktree].state)
  {
    hide Prior, Legal;
  }

  lemma NoCleanupFailed(db: Db, now: Time, w: Id)
    requires Inv(db, now) && !Faulted(db) && w in db.allocations
    ensures db.allocations[w].state != CleanupFailed
  {
    hide LeasesOk, Traced, ImportsOk, CandidatesOk, FailedImports;
    assert RowOk(db.allocations[w], w in FailedImports(db.events));
  }

  lemma ServeKeeps(s: System, a: Action)
    requires SystemOk(s) && s.status.Up?
    ensures SystemOk(Serve(s, a))
  {
    hide Inv, StatusOk, ImportLogOk, Fine, FromController, MayWait, Settle, PendingOk, CommitReserve, CommitPrepare,
      CommitRecord, CommitCleanup, CommitComplete, Advance, FailAllocation, RecordSeal, PrepareImport,
         CompleteImport, FailImport, RecordRetention, FailCleanup;
    match a
    case Ask(p) => ServeAsk(s, p);
    case CommitReserveOf(r, mode, authority, w, stamp) =>
      ReserveFine(s.db, r, mode, authority, w, At(s, stamp));
      if CommitReserve(s.db, r, mode, authority, w, At(s, stamp)).Committed? {
        ReserveKeeps(s.db, r, mode, authority, w, At(s, stamp), s.now);
      }
      SettleKeeps(s, CommitReserve(s.db, r, mode, authority, w, At(s, stamp)));
    case CommitPrepareOf(r, intent, token, stamp) => ServePrepare(s, r, intent, token, stamp);
    case CommitRecordOf(r, stamp) =>
      RecordFine(s.db, r, At(s, stamp));
      if CommitRecord(s.db, r, At(s, stamp)).Committed? { RecordKeeps(s.db, r, At(s, stamp), s.now); }
      SettleKeeps(s, CommitRecord(s.db, r, At(s, stamp)));
    case CommitCleanupOf(r, state, identity, intent, token, stamp) => ServeCleanup(s, r, state, identity, intent, token,
        stamp);
    case CommitCompleteOf(r, project, stamp) =>
      RowsOf(s);
      CompleteFine(s.db, r, project, At(s, stamp));
      if CommitComplete(s.db, r, project, At(s, stamp)).Committed? {
        CompleteKeeps(s.db, r, project, At(s, stamp), s.now);
      }
      SettleKeeps(s, CommitComplete(s.db, r, project, At(s, stamp)));
    case DoAdvance(r, stamp) =>
      if FromController(s.db, r) {
        AdvanceFine(s.db, r, At(s, stamp));
        if Advance(s.db, r, At(s, stamp)).Committed? { AdvanceKeeps(s.db, r, At(s, stamp), s.now); }
        SettleKeeps(s, Advance(s.db, r, At(s, stamp)));
      }
    case DoFailAllocation(r, stamp) =>
      FailAllocationFine(s.db, r, At(s, stamp));
      if FailAllocation(s.db, r, At(s, stamp)).Committed? { FailAllocationKeeps(s.db, r, At(s, stamp), s.now); }
      SettleKeeps(s, FailAllocation(s.db, r, At(s, stamp)));
    case DoSeal(r, stamp) =>
      SealFine(s.db, r, At(s, stamp));
      if RecordSeal(s.db, r, At(s, stamp)).Committed? { SealKeeps(s.db, r, At(s, stamp), s.now); }
      SettleKeeps(s, RecordSeal(s.db, r, At(s, stamp)));
    case DoPrepareImport(r, intent, token, stamp) => ServePrepareImport(s, r, intent, token, stamp);
    case CallImporter(intent) => ServeCall(s, intent);
    case DoCompleteImport(r, stamp) =>
      CompleteImportFine(s.db, r, At(s, stamp));
      if CompleteImport(s.db, r, At(s, stamp)).Committed? { CompleteImportKeeps(s.db, r, At(s, stamp), s.now); }
      SettleKeeps(s, CompleteImport(s.db, r, At(s, stamp)));
    case DoFailImport(r, stamp) =>
      FailImportFine(s.db, r, At(s, stamp));
      if FailImport(s.db, r, At(s, stamp)).Committed? { FailImportKeeps(s.db, r, At(s, stamp), s.now); }
      SettleKeeps(s, FailImport(s.db, r, At(s, stamp)));
    case DoRetention(r, stamp) =>
      RetentionFine(s.db, r, At(s, stamp));
      if RecordRetention(s.db, r, At(s, stamp)).Committed? { RetentionKeeps(s.db, r, At(s, stamp), s.now); }
      SettleKeeps(s, RecordRetention(s.db, r, At(s, stamp)));
    case DoFailCleanup(r, stamp) =>
      FailCleanupFine(s.db, r, At(s, stamp));
      if FailCleanup(s.db, r, At(s, stamp)).Committed? { FailCleanupKeeps(s.db, r, At(s, stamp), s.now); }
      SettleKeeps(s, FailCleanup(s.db, r, At(s, stamp)));
    case _ =>
  }

  lemma RowsOf(s: System)
    requires SystemOk(s)
    ensures RowsOk(s.db.allocations, FailedImports(s.db.events))
  {
  }

  lemma ServeAsk(s: System, p: Pending)
    requires SystemOk(s) && s.status.Up?
    ensures SystemOk(Serve(s, Ask(p)))
  {
    hide Inv, Faulted, MayWait;
    if MayWait(s.db, p) { AskKeeps(s, p); }
  }

  lemma ServePrepare(s: System, r: PrepareRequest, intent: Id, token: Id, stamp: Stamp)
    requires SystemOk(s) && s.status.Up?
    ensures SystemOk(Serve(s, CommitPrepareOf(r, intent, token, stamp)))
  {
    hide Inv, StatusOk, ImportLogOk, Fine;
    var o := CommitPrepare(s.db, r, intent, token, At(s, stamp));
    if AwaitPrepare(r) in s.pending {
      assert PendingOk(s.db, AwaitPrepare(r));
      PrepareFine(s.db, r, intent, token, At(s, stamp));
      if o.Committed? { PrepareKeeps(s.db, r, intent, token, At(s, stamp), s.now); }
      SettleKeeps(s, o);
    }
  }

  lemma ServeCleanup(s: System, r: CleanupRequest, state: State, identity: Option<Id>, intent: Id, token: Id,
      stamp: Stamp)
    requires SystemOk(s) && s.status.Up?
    ensures SystemOk(Serve(s, CommitCleanupOf(r, state, identity, intent, token, stamp)))
  {
    hide Inv, StatusOk, ImportLogOk, Fine, CommitCleanup, Legal;
    var o := CommitCleanup(s.db, r, state, identity, intent, token, At(s, stamp));
    if AwaitCleanup(r, state, identity) in s.pending {
      assert PendingOk(s.db, AwaitCleanup(r, state, identity));
      RowsOf(s);
      CleanupFine(s.db, r, state, identity, intent, token, At(s, stamp));
      if o.Committed? { CleanupKeeps(s.db, r, state, identity, intent, token, At(s, stamp), s.now); }
      SettleKeeps(s, o);
    }
  }

  lemma ServePrepareImport(s: System, r: ImportRequest, intent: Id, token: Id, stamp: Stamp)
    requires SystemOk(s) && s.status.Up?
    ensures SystemOk(Serve(s, DoPrepareImport(r, intent, token, stamp)))
  {
    hide Inv, StatusOk, ImportLogOk, PrepareImport, Fine, PendingOk;
    var o := PrepareImport(s.db, r, intent, token, At(s, stamp));
    PrepareImportFine(s.db, r, intent, token, At(s, stamp));
    if o.Committed? {
      PrepareImportKeeps(s.db, r, intent, token, At(s, stamp), s.now);
      IntentIsNew(s.db, r, intent, token, At(s, stamp));
    }
    SettleKeeps(s, o);
    if o.Committed? { ReadyGrows(Settle(s, o), s, intent); }
  }

  lemma IntentIsNew(db: Db, r: ImportRequest, intent: Id, token: Id, stamp: Stamp)
    requires PrepareImport(db, r, intent, token, stamp).Committed?
    ensures intent !in db.imports && intent in PrepareImport(db, r, intent, token, stamp).db.imports
  {
  }

  lemma ReadyGrows(after: System, s: System, intent: Id)
    requires SystemOk(after) && ImportLogOk(s) && after == s.(db := after.db) && after.status.Up?
    requires intent in after.db.imports && intent !in s.db.imports
    ensures SystemOk(after.(ready := s.ready + {intent}))
  {
    hide Inv, Faulted, PendingOk;
  }

  lemma ServeCall(s: System, intent: Id)
    requires SystemOk(s) && s.status.Up?
    ensures SystemOk(Serve(s, CallImporter(intent)))
  {
    hide Inv, Faulted, PendingOk;
  }

  lemma StepKeeps(s: System, a: Action)
    requires SystemOk(s)
    ensures SystemOk(Step(s, a))
  {
    hide Inv, StatusOk, ImportLogOk, PendingOk, Serve, IntegrityHolds;
    match a
    case Tick(to) => TickKeeps(s, to);
    case Crash => CrashKeeps(s);
    case Start => StartKeeps(s);
    case RecoverOne(w, first, second, third) => RecoverOneKeeps(s, w, first, second, third);
    case FinishStart => FinishKeeps(s);
    case _ => if s.status.Up? { ServeKeeps(s, a); }
  }

  lemma TickKeeps(s: System, to: Time)
    requires SystemOk(s)
    ensures SystemOk(Step(s, Tick(to)))
  {
    hide Inv, RecoveryOk, AdmissionOk, PendingOk;
    if to >= s.now { InvOutlastsTime(s.db, s.now, to); }
  }

  lemma CrashKeeps(s: System)
    requires SystemOk(s)
    ensures SystemOk(Step(s, Crash))
  {
    hide Inv, PendingOk;
  }

  /** The integrity check passes exactly when no import was ever failed. */
  lemma {:induction false} IntegrityIff(db: Db, now: Time)
    requires Inv(db, now)
    ensures QuotaProjectLeasesValid(db) <==> FailedImports(db.events) == {}
    ensures IntegrityHolds(db) <==> FailedImports(db.events) == {}
  {
    LeasesIff(db);
    OtherChecksPass(db);
    hide LeasesOk, RowsOk, Traced, FailedImports, QuotaProjectLeasesValid, OwnerEventsValid, ExecutionModeBindingsValid;
  }

  lemma OtherChecksPass(db: Db)
    requires RowsOk(db.allocations, FailedImports(db.events)) && Traced(db.allocations, db.events)
    ensures OwnerEventsValid(db.events) && ExecutionModeBindingsValid(db)
    ensures forall w :: w in db.allocations && db.allocations[w].identity.Some?
              ==> PhysicalIdentityValid(db.allocations[w])
  {
    hide FailedImports, LastState, FirstEvent, OwnerEventsValid, PathsOk;
    forall w | w in db.allocations
      ensures RowOk(db.allocations[w], w in FailedImports(db.events)) && RowTraced(db.events, w, db.allocations[w])
    {
    }
  }

  lemma LeasesIff(db: Db)
    requires LeasesOk(db)
    ensures QuotaProjectLeasesValid(db) <==> FailedImports(db.events) == {}
  {
    hide FailedImports, Issued;
    var failed := FailedImports(db.events);
    forall w | w in db.leases
      ensures LeaseRowValid(w, db.leases[w], db.intents[db.leases[w].intent], db.allocations[w]) <==> w !in failed
    {
      assert LeaseRule(w, db.leases[w], db.intents[db.leases[w].intent], db.allocations[w], w in failed);
    }
    forall i | i in db.intents && db.intents[i].kind == ForAllocation
      ensures exists w :: w in db.leases && db.leases[w].intent == i
    {
      assert db.intents[i].worktree in db.leases;
    }
    if w :| w in failed { assert w in db.leases; }
  }

  lemma StartKeeps(s: System)
    requires SystemOk(s)
    ensures SystemOk(Step(s, Start))
  {
    hide Inv, RecoveryOk, IntegrityHolds, PendingOk, Selected, FailedImports;
    if s.status.Down? {
      IntegrityIff(s.db, s.now);
      if IntegrityHolds(s.db) {
        SelectionIsRight(s.db, s.now);
        AdmissionIsFree(s.db, Recovering, s.now);
      }
    }
  }

  lemma AdmissionIsFree(db: Db, admission: Admission, now: Time)
    requires Inv(db, now)
    ensures Inv(db.(admission := admission), now) && Faulted(db.(admission := admission)) == Faulted(db)
  {
    hide LeaseKeys, LeaseRules, ProjectsIssued, RowsOk, Traced, ImportsOk, CandidateRule;
    var after := db.(admission := admission);
    forall c | c in db.candidates ensures HasRetentionResult(after, c) == HasRetentionResult(db, c) { }
  }

  lemma SelectionIsRight(db: Db, now: Time)
    requires Inv(db, now) && FailedImports(db.events) == {}
    ensures RecoveryOk(db.(admission := Recovering), Selected(db), Selected(db) != {})
  {
    hide FailedImports, LeasesOk, Traced, ImportsOk, CandidatesOk;
    forall w | w in db.allocations && w !in Selected(db) ensures Settled(db.allocations[w]) {
      assert RowOk(db.allocations[w], false);
    }
    if w :| w in db.allocations && db.allocations[w].cleanup == CleanupFault { assert w in Selected(db); }
  }

  lemma RecoverOneKeeps(s: System, w: Id, first: Stamp, second: Stamp, third: Stamp)
    requires SystemOk(s)
    ensures SystemOk(Step(s, RecoverOne(w, first, second, third)))
  {
    hide Inv, RecoverRow, Onward, Faulted, PendingOk, NeedsRecovery, Settled, FailedImports;
    if s.status.Recovery? && w in s.status.todo && w in s.db.allocations {
      RecoverKeeps(s.db, w, At(s, first), At(s, second), At(s, third), s.now);
      RecoverOnward(s.db, w, At(s, first), At(s, second), At(s, third));
      RecoverOthers(s.db, w, At(s, first), At(s, second), At(s, third));
      QuarantinedIsSettled(Step(s, RecoverOne(w, first, second, third)).db, w);
    }
  }

  lemma QuarantinedIsSettled(db: Db, w: Id)
    requires w in db.allocations && db.allocations[w].state == Quarantined
    ensures Settled(db.allocations[w])
  {
  }

  lemma RecoverOthers(db: Db, w: Id, first: Stamp, second: Stamp, third: Stamp)
    requires w in db.allocations
    ensures var after := RecoverRow(db, w, first, second, third);
            && FailedImports(after.events) == FailedImports(db.events)
            && after.allocations == db.allocations[w := after.allocations[w]] && after.imports == db.imports
  {
    var a := Moved(db.allocations[w], RecoveryRequired, db.allocations[w].cleanup);
    var b := Moved(a, Reconciling, a.cleanup);
    var c := Moved(b, Quarantined, CleanupFault);
    hide FailedImports, Record;
    var one := Record(db.events, w, a, RecoveryStarted, first);
    var two := Record(one, w, b, RecoveryClassified, second);
    FailedAfter(db.events, w, a, RecoveryStarted, first);
    FailedAfter(one, w, b, RecoveryClassified, second);
    FailedAfter(two, w, c, ResourceQuarantined, third);
  }

  lemma FinishKeeps(s: System)
    requires SystemOk(s)
    ensures SystemOk(Step(s, FinishStart))
  {
    hide Inv, Faulted, PendingOk;
    if s.status.Recovery? && s.status.todo == {} {
      AdmissionIsFree(s.db, if s.status.any then Blocked else Enabled, s.now);
    }
  }

  lemma BootIsOk(now: Time)
    ensures SystemOk(Boot(now))
  {
  }

  /** Every state the process reaches, through any interleaving, crash and restart, is in order. */
  lemma {:induction false} RunIsOk(now: Time, actions: seq<Action>)
    ensures SystemOk(Run(now, actions))
  {
    hide SystemOk, Step;
    if actions == [] {
      BootIsOk(now);
    } else {
      RunIsOk(now, actions[..|actions| - 1]);
      StepKeeps(Run(now, actions[..|actions| - 1]), actions[|actions| - 1]);
    }
  }
}
