/** What no transaction ever undoes: revisions, histories, quarantine, faults and issued projects. */
module ExecutionProgress {
  import opened Wrappers
  import opened ExecutionTables
  import opened ExecutionTransactions
  import opened ExecutionInvariant
  import opened ExecutionSteps

  /** A row as it was, against the same row later. */
  predicate RowOnward(a: Allocation, b: Allocation) {
    && a.revision <= b.revision && (a.revision == b.revision ==> a == b)
    && (a.state == Quarantined ==> b.state == Quarantined)
    && (a.state == Cleaned ==> b.state in {Cleaned, Quarantined})
    && (a.cleanup == CleanupFault ==> b.cleanup == CleanupFault)
    && a.run == b.run && a.repository == b.repository && a.binding == b.binding
  }

  predicate Onward(db: Db, after: Db) {
    && (forall w :: w in db.allocations ==>
          w in after.allocations && RowOnward(db.allocations[w], after.allocations[w]))
    && (forall w :: w in db.leases ==> w in after.leases && after.leases[w].project == db.leases[w].project)
    && (forall i :: i in db.imports ==> i in after.imports && after.imports[i].worktree == db.imports[i].worktree)
    && db.events <= after.events && db.next <= after.next
  }

  lemma OnwardChain(a: Db, b: Db, c: Db)
    requires Onward(a, b) && Onward(b, c)
    ensures Onward(a, c)
  {
    forall w | w in a.allocations ensures w in c.allocations && RowOnward(a.allocations[w], c.allocations[w]) {
      assert RowOnward(a.allocations[w], b.allocations[w]) && RowOnward(b.allocations[w], c.allocations[w]);
    }
  }

  lemma OnwardSame(db: Db, after: Db)
    requires after == db.(admission := after.admission)
    ensures Onward(db, after)
  {
  }

  lemma {:induction false} FailedImportsGrow(events: seq<Event>, more: seq<Event>)
    ensures FailedImports(events) <= FailedImports(events + more)
  {
    if more == [] {
      assert events + more == events;
    } else {
      FailedImportsGrow(events, more[..|more| - 1]);
      assert (events + more)[..|events + more| - 1] == events + more[..|more| - 1];
    }
  }

  /** A fault is never forgotten. */
  lemma FaultsStay(db: Db, after: Db)
    requires Onward(db, after)
    ensures FailedImports(db.events) <= FailedImports(after.events)
    ensures Faulted(db) ==> Faulted(after)
  {
    hide FailedImports;
    FailedImportsGrow(db.events, after.events[|db.events|..]);
    assert after.events == db.events + after.events[|db.events|..];
    if w :| w in db.allocations && db.allocations[w].cleanup == CleanupFault {
      assert RowOnward(db.allocations[w], after.allocations[w]);
    }
  }

  /** While the process runs, an admitted row only leaves that state with its lease. */
  predicate AdmittedUntilLeased(db: Db, after: Db) {
    forall w :: w in db.allocations && db.allocations[w].state == Admitted ==>
      w in after.allocations && (after.allocations[w].state == Admitted || w in after.leases)
  }

  /** What every running operation does to admission: nothing, or it blocks it with a fault. */
  predicate AdmissionStep(db: Db, after: Db) {
    if after.admission == db.admission then Faulted(db) == Faulted(after) || db.admission == Blocked
    else after.admission == Blocked && Faulted(after)
  }

  /** The outcome of a running operation. */
  predicate Fine(db: Db, o: Outcome) {
    o.Committed? ==> Onward(db, o.db) && AdmittedUntilLeased(db, o.db) && AdmissionStep(db, o.db)
  }

  /** One row changes, nothing else about rows. */
  predicate OneRow(db: Db, after: Db, w: Id) {
    && w in after.allocations && after.allocations == db.allocations[w := after.allocations[w]]
  }

  lemma SameFaults(db: Db, after: Db, w: Id)
    requires OneRow(db, after, w) && FailedImports(after.events) == FailedImports(db.events)
    requires if w in db.allocations then (db.allocations[w].cleanup == CleanupFault)
               == (after.allocations[w].cleanup == CleanupFault)
             else after.allocations[w].cleanup != CleanupFault
    ensures Faulted(db) == Faulted(after)
  {
    hide FailedImports;
    if v :| v in db.allocations && db.allocations[v].cleanup == CleanupFault {
      assert v in after.allocations && after.allocations[v].cleanup == CleanupFault;
    }
    if v :| v in after.allocations && after.allocations[v].cleanup == CleanupFault {
      assert v in db.allocations && db.allocations[v].cleanup == CleanupFault;
    }
  }

  lemma ReserveFine(db: Db, r: ReserveRequest, mode: Mode, authority: nat, w: Id, stamp: Stamp)
    ensures Fine(db, CommitReserve(db, r, mode, authority, w, stamp))
  {
    hide Faulted, FailedImports, EventFor;
    var o := CommitReserve(db, r, mode, authority, w, stamp);
    if o.Committed? {
      FailedAfterCommit(db, o.db, w, o.db.allocations[w], AllocationRequested, stamp);
      SameFaults(db, o.db, w);
    }
  }

  lemma FailedAfterCommit(db: Db, after: Db, w: Id, b: Allocation, name: EventName, stamp: Stamp)
    requires after.events == Record(db.events, w, b, name, stamp) && name != ImportQuarantined
    ensures FailedImports(after.events) == FailedImports(db.events)
  {
    assert after.events[..|db.events|] == db.events;
    assert FailedImports(db.events) + {} == FailedImports(db.events);
  }

  lemma AdvanceFine(db: Db, r: AdvanceRequest, stamp: Stamp)
    requires FromController(db, r)
    ensures Fine(db, Advance(db, r, stamp))
  {
    hide Faulted, FailedImports, EventFor, Legal, ControllerRequest;
    var o := Advance(db, r, stamp);
    if o.Committed? {
      CommittedEdge(db, r, stamp);
      FailedAfterCommit(db, o.db, r.worktree, o.db.allocations[r.worktree], StateAdvanced, stamp);
      SameFaults(db, o.db, r.worktree);
    }
  }

  lemma PrepareFine(db: Db, r: PrepareRequest, intent: Id, token: Id, stamp: Stamp)
    ensures Fine(db, CommitPrepare(db, r, intent, token, stamp))
  {
    hide Faulted, FailedImports, EventFor;
    var o := CommitPrepare(db, r, intent, token, stamp);
    if o.Committed? {
      FailedAfterCommit(db, o.db, r.worktree, db.allocations[r.worktree], AllocationIntentRecorded, stamp);
      SameFaults(db, o.db, r.worktree);
    }
  }

  lemma RecordFine(db: Db, r: RecordRequest, stamp: Stamp)
    ensures Fine(db, CommitRecord(db, r, stamp))
  {
    hide Faulted, FailedImports, EventFor;
    var o := CommitRecord(db, r, stamp);
    if o.Committed? {
      FailedAfterCommit(db, o.db, r.worktree, o.db.allocations[r.worktree], AllocationProofRecorded, stamp);
      SameFaults(db, o.db, r.worktree);
    }
  }

  lemma FaultIsSeen(db: Db, w: Id)
    requires w in db.allocations && db.allocations[w].cleanup == CleanupFault
    ensures Faulted(db)
  {
  }

  lemma FailAllocationFine(db: Db, r: FailAllocationRequest, stamp: Stamp)
    ensures Fine(db, FailAllocation(db, r, stamp))
  {
    hide Faulted, FailedImports, EventFor;
    var o := FailAllocation(db, r, stamp);
    if o.Committed? { FaultIsSeen(o.db, r.worktree); }
  }

  lemma SealFine(db: Db, r: SealRequest, stamp: Stamp)
    ensures Fine(db, RecordSeal(db, r, stamp))
  {
    hide Faulted, FailedImports, EventFor;
    var o := RecordSeal(db, r, stamp);
    if o.Committed? {
      FailedAfterCommit(db, o.db, r.worktree, o.db.allocations[r.worktree], SealCompleted, stamp);
      SameFaults(db, o.db, r.worktree);
    }
  }

  lemma PrepareImportFine(db: Db, r: ImportRequest, intent: Id, token: Id, stamp: Stamp)
    ensures Fine(db, PrepareImport(db, r, intent, token, stamp))
  {
    hide Faulted, FailedImports, EventFor;
    var o := PrepareImport(db, r, intent, token, stamp);
    if o.Committed? {
      FailedAfterCommit(db, o.db, r.worktree, db.allocations[r.worktree], ImportRequested, stamp);
      SameFaults(db, o.db, r.worktree);
    }
  }

  lemma CompleteImportFine(db: Db, r: ImportEndRequest, stamp: Stamp)
    ensures Fine(db, CompleteImport(db, r, stamp))
  {
    hide Faulted, FailedImports, EventFor;
    var o := CompleteImport(db, r, stamp);
    if o.Committed? {
      FailedAfterCommit(db, o.db, r.worktree, o.db.allocations[r.worktree], ImportCompleted, stamp);
      SameFaults(db, o.db, r.worktree);
    }
  }

  lemma FailImportFine(db: Db, r: ImportEndRequest, stamp: Stamp)
    ensures Fine(db, FailImport(db, r, stamp))
  {
    hide Faulted, EventFor;
    var o := FailImport(db, r, stamp);
    if o.Committed? { ImportFaultIsSeen(db, o.db, r.worktree, o.db.allocations[r.worktree], stamp); }
  }

  lemma ImportFaultIsSeen(db: Db, after: Db, w: Id, b: Allocation, stamp: Stamp)
    requires after.events == Record(db.events, w, b, ImportQuarantined, stamp)
    ensures Faulted(after) && w in FailedImports(after.events)
  {
    assert after.events[..|db.events|] == db.events;
    assert w in FailedImports(after.events);
  }

  lemma RetentionFine(db: Db, r: RetentionRequest, stamp: Stamp)
    ensures Fine(db, RecordRetention(db, r, stamp))
  {
    hide Faulted, FailedImports, EventFor;
    var o := RecordRetention(db, r, stamp);
    if o.Committed? {
      FailedAfterCommit(db, o.db, r.worktree, o.db.allocations[r.worktree], RetentionCommitted, stamp);
      SameFaults(db, o.db, r.worktree);
    }
  }

  lemma CleanupFine(db: Db, r: CleanupRequest, state: State, identity: Option<Id>, intent: Id, token: Id, stamp: Stamp)
    requires Cleaning in Legal(state) && state != CleanupFailed
    requires RowsOk(db.allocations, FailedImports(db.events))
    ensures Fine(db, CommitCleanup(db, r, state, identity, intent, token, stamp))
  {
    hide Faulted, FailedImports, EventFor, RowsOk, StillKept, RetentionDecided, Legal;
    CleaningIsFrom(state);
    var o := CommitCleanup(db, r, state, identity, intent, token, stamp);
    if o.Committed? {
      NoFaultBefore(db, r.worktree);
      FailedAfterCommit(db, o.db, r.worktree, o.db.allocations[r.worktree], CleanupRequested, stamp);
      SameFaults(db, o.db, r.worktree);
    }
  }

  lemma CleaningIsFrom(s: State)
    requires Cleaning in Legal(s)
    ensures s !in {Admitted, Quarantined, Cleaned, Cleaning}
  {
  }

  lemma NoFaultBefore(db: Db, w: Id)
    requires RowsOk(db.allocations, FailedImports(db.events)) && w in db.allocations
    requires db.allocations[w].state !in {Quarantined, CleanupFailed}
    ensures db.allocations[w].cleanup != CleanupFault
  {
    assert RowOk(db.allocations[w], w in FailedImports(db.events));
  }

  lemma CompleteFine(db: Db, r: CleanupEndRequest, project: nat, stamp: Stamp)
    requires RowsOk(db.allocations, FailedImports(db.events))
    ensures Fine(db, CommitComplete(db, r, project, stamp))
  {
    hide Faulted, FailedImports, EventFor, RowsOk;
    var o := CommitComplete(db, r, project, stamp);
    if o.Committed? {
      NoFaultBefore(db, r.worktree);
      FailedAfterCommit(db, o.db, r.worktree, o.db.allocations[r.worktree], CleanupCompleted, stamp);
      SameFaults(db, o.db, r.worktree);
    }
  }

  lemma FailCleanupFine(db: Db, r: CleanupEndRequest, stamp: Stamp)
    ensures Fine(db, FailCleanup(db, r, stamp))
  {
    hide Faulted, FailedImports, EventFor, Onward, AdmittedUntilLeased;
    var o := FailCleanup(db, r, stamp);
    if o.Committed? {
      FaultIsSeen(o.db, r.worktree);
      FailCleanupOnward(db, r, stamp);
    }
  }

  lemma FailCleanupOnward(db: Db, r: CleanupEndRequest, stamp: Stamp)
    requires FailCleanup(db, r, stamp).Committed?
    ensures Onward(db, FailCleanup(db, r, stamp).db) && AdmittedUntilLeased(db, FailCleanup(db, r, stamp).db)
  {
    hide EventFor;
    if r.mismatch || r.observed != r.expected { } else { }
  }

  lemma RecoverOnward(db: Db, w: Id, first: Stamp, second: Stamp, third: Stamp)
    requires w in db.allocations
    ensures Onward(db, RecoverRow(db, w, first, second, third))
    ensures RecoverRow(db, w, first, second, third).allocations[w].state == Quarantined
    ensures Faulted(RecoverRow(db, w, first, second, third))
  {
    hide Faulted, FailedImports, EventFor;
    FaultIsSeen(RecoverRow(db, w, first, second, third), w);
  }
}
