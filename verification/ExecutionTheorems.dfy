/** What holds over every run of the registry, with any interleaving, crashes and restarts. */
module ExecutionTheorems {
  import opened Wrappers
  import opened ExecutionTables
  import opened ExecutionTransactions
  import opened ExecutionInvariant
  import opened ExecutionSteps
  import opened ExecutionProgress
  import opened ExecutionSystem

  // Runs only go onward -------------------------------------------------------------------------

  lemma ServeOnward(s: System, a: Action)
    requires SystemOk(s) && s.status.Up?
    ensures Onward(s.db, Serve(s, a).db)
  {
    hide Inv, StatusOk, ImportLogOk, Onward, FromController, MayWait, AdmissionStep, AdmittedUntilLeased, CommitReserve,
      CommitPrepare, CommitRecord, CommitCleanup, CommitComplete, Advance, FailAllocation, RecordSeal, PrepareImport,
         CompleteImport, FailImport, RecordRetention, FailCleanup;
    OnwardSame(s.db, s.db);
    match a
    case CommitReserveOf(r, mode, authority, w, stamp) => ReserveFine(s.db, r, mode, authority, w, At(s, stamp));
    case CommitPrepareOf(r, intent, token, stamp) => PrepareFine(s.db, r, intent, token, At(s, stamp));
    case CommitRecordOf(r, stamp) => RecordFine(s.db, r, At(s, stamp));
    case CommitCleanupOf(r, state, identity, intent, token, stamp) =>
      if AwaitCleanup(r, state, identity) in s.pending {
        assert PendingOk(s.db, AwaitCleanup(r, state, identity));
        RowsOf(s);
        CleanupFine(s.db, r, state, identity, intent, token, At(s, stamp));
      }
    case CommitCompleteOf(r, project, stamp) =>
      RowsOf(s);
      CompleteFine(s.db, r, project, At(s, stamp));
    case DoAdvance(r, stamp) => if FromController(s.db, r) { AdvanceFine(s.db, r, At(s, stamp)); }
    case DoFailAllocation(r, stamp) => FailAllocationFine(s.db, r, At(s, stamp));
    case DoSeal(r, stamp) => SealFine(s.db, r, At(s, stamp));
    case DoPrepareImport(r, intent, token, stamp) => PrepareImportFine(s.db, r, intent, token, At(s, stamp));
    case DoCompleteImport(r, stamp) => CompleteImportFine(s.db, r, At(s, stamp));
    case DoFailImport(r, stamp) => FailImportFine(s.db, r, At(s, stamp));
    case DoRetention(r, stamp) => RetentionFine(s.db, r, At(s, stamp));
    case DoFailCleanup(r, stamp) => FailCleanupFine(s.db, r, At(s, stamp));
    case _ =>
  }

  lemma StepOnward(s: System, a: Action)
    requires SystemOk(s)
    ensures Onward(s.db, Step(s, a).db)
  {
    hide SystemOk, Onward, Serve, RecoverRow, IntegrityHolds;
    match a
    case Tick(_) => OnwardSame(s.db, s.db);
    case Crash => OnwardSame(s.db, s.db);
    case Start => OnwardSame(s.db, Step(s, a).db);
    case FinishStart => OnwardSame(s.db, Step(s, a).db);
    case RecoverOne(w, first, second, third) =>
      OnwardSame(s.db, s.db);
      if w in s.db.allocations { RecoverOnward(s.db, w, At(s, first), At(s, second), At(s, third)); }
    case _ =>
      OnwardSame(s.db, s.db);
      if s.status.Up? { ServeOnward(s, a); }
  }

  /** A longer run only goes onward from a shorter one. */
  lemma {:induction false} RunOnward(now: Time, actions: seq<Action>, more: seq<Action>)
    ensures Onward(Run(now, actions).db, Run(now, actions + more).db)
  {
    hide SystemOk, Onward, Step;
    if more == [] {
      assert actions + more == actions;
      OnwardSame(Run(now, actions).db, Run(now, actions).db);
    } else {
      var longer := actions + more[..|more| - 1];
      RunOnward(now, actions, more[..|more| - 1]);
      assert (actions + more)[..|actions + more| - 1] == longer;
      RunIsOk(now, longer);
      StepOnward(Run(now, longer), more[|more| - 1]);
      OnwardChain(Run(now, actions).db, Run(now, longer).db, Run(now, actions + more).db);
    }
  }

  /**
   At most one change commits per worktree and revision: between any two moments of a run at
   which a row has the same revision, it is the same row, and revisions never go back.
   */
  lemma OneChangePerRevision(now: Time, actions: seq<Action>, more: seq<Action>, w: Id)
    requires w in Run(now, actions).db.allocations
    ensures w in Run(now, actions + more).db.allocations
    ensures var a, b := Run(now, actions).db.allocations[w], Run(now, actions + more).db.allocations[w];
            a.revision <= b.revision && (a.revision == b.revision ==> a == b)
  {
    RunOnward(now, actions, more);
    assert RowOnward(Run(now, actions).db.allocations[w], Run(now, actions + more).db.allocations[w]);
  }

  // Quota projects -----------------------------------------------------------------------------------

  /**
   The registry's own lease check holds in every reachable database in which no candidate import
   was failed, and in no other: the failed import leaves its lease allocated to a quarantined row.
   */
  lemma {:induction false} LeasesValidIff(now: Time, actions: seq<Action>)
    ensures var db := Run(now, actions).db;
            QuotaProjectLeasesValid(db) <==> forall k :: 0 <= k < |db.events| ==> db.events[k].name != ImportQuarantined
  {
    hide QuotaProjectLeasesValid, Run, IntegrityHolds;
    RunIsOk(now, actions);
    var s := Run(now, actions);
    IntegrityIff(s.db, s.now);
    NoFailedImports(s.db.events);
  }

  lemma {:induction false} NoFailedImports(events: seq<Event>)
    ensures FailedImports(events) == {} <==> forall k :: 0 <= k < |events| ==> events[k].name != ImportQuarantined
  {
    if events != [] {
      var init, e := events[..|events| - 1], events[|events| - 1];
      NoFailedImports(init);
      if e.name == ImportQuarantined { assert e.worktree in FailedImports(events); }
      forall k | 0 <= k < |events| ensures k < |init| ==> events[k] == init[k] { }
      assert FailedImports(init) + {} == FailedImports(init);
    }
  }

  /**
   Quota project ids are issued gap-free from 10000, each to one worktree, always in range, and
   a worktree's project never changes.
   */
  lemma {:induction false} ProjectsAreIssuedOnce(now: Time, actions: seq<Action>, more: seq<Action>)
    ensures var db := Run(now, actions).db;
            && FIRST_PROJECT <= db.next <= LAST_PROJECT + 1
            && (forall p: nat :: FIRST_PROJECT <= p < db.next <==> Issued(db.leases, p))
            && (forall v, w :: v in db.leases && w in db.leases && db.leases[v].project == db.leases[w].project ==>
                  v == w)
    ensures var db, later := Run(now, actions).db, Run(now, actions + more).db;
            forall w :: w in db.leases ==> w in later.leases && later.leases[w].project == db.leases[w].project
  {
    hide Run;
    RunIsOk(now, actions);
    RunOnward(now, actions, more);
    IssuedExactly(Run(now, actions).db);
  }

  lemma IssuedExactly(db: Db)
    requires LeasesOk(db)
    ensures forall p: nat :: FIRST_PROJECT <= p < db.next <==> Issued(db.leases, p)
    ensures forall v, w :: v in db.leases && w in db.leases && db.leases[v].project == db.leases[w].project ==> v == w
    ensures FIRST_PROJECT <= db.next <= LAST_PROJECT + 1
  {
    hide LeaseRules, LeaseKeys;
  }

  // A failed import --------------------------------------------------------------------------------

  /** Once an import was failed, the registry never starts again. */
  lemma {:induction false} NeverStartsAfterFailedImport(now: Time, actions: seq<Action>, more: seq<Action>)
    requires exists k :: 0 <= k < |Run(now, actions).db.events| && Run(now, actions).db.events[k].name
               == ImportQuarantined
    ensures var s := Run(now, actions + more); s.status.Down? ==> Step(s, Start) == s
  {
    hide Run, IntegrityHolds;
    RunIsOk(now, actions + more);
    RunOnward(now, actions, more);
    FaultsStay(Run(now, actions).db, Run(now, actions + more).db);
    NoFailedImports(Run(now, actions).db.events);
    var s := Run(now, actions + more);
    IntegrityIff(s.db, s.now);
  }

  /** Without one, every start passes the check and goes on to recover. */
  lemma StartsOtherwise(now: Time, actions: seq<Action>)
    requires forall k :: 0 <= k < |Run(now, actions).db.events|
               ==> Run(now, actions).db.events[k].name != ImportQuarantined
    ensures var s := Run(now, actions); s.status.Down? ==> Step(s, Start).status.Recovery?
  {
    hide Run, IntegrityHolds;
    RunIsOk(now, actions);
    var s := Run(now, actions);
    NoFailedImports(s.db.events);
    IntegrityIff(s.db, s.now);
  }

  /** Exactly which raw requests of `advance` break the lease check: those that take the lease's row away from it. */
  lemma {:induction false} AdvanceBreaksLeasesIff(db: Db, r: AdvanceRequest, stamp: Stamp, now: Time)
    requires Inv(db, now) && FailedImports(db.events) == {}
    requires Prior(db, OfLifecycle, KindState, r.request, r.digest).None? && Advance(db, r, stamp).Committed?
    ensures QuotaProjectLeasesValid(Advance(db, r, stamp).db)
            <==> !(r.worktree in db.leases
                   && (db.leases[r.worktree].phase == LeaseActive || r.next == Quarantined || r.next == Admitted))
  {
    hide RowsOk, Traced, ImportsOk, CandidatesOk, Record, FailedImports, Legal, Issued, Prior, LeaseRule, LeaseRowValid;
    var after := Advance(db, r, stamp).db;
    var w := r.worktree;
    LegalMoves(db.allocations[w].state, r.next);
    forall i | i in after.intents && after.intents[i].kind == ForAllocation
      ensures exists v :: v in after.leases && after.leases[v].intent == i
    {
      assert db.intents[i].worktree in db.leases;
    }
    forall v | v in db.leases
      ensures LeaseRowValid(v, db.leases[v], db.intents[db.leases[v].intent], after.allocations[v])
              <==> !(v == w && (db.leases[v].phase == LeaseActive || r.next == Quarantined || r.next == Admitted))
    {
      assert LeaseRule(v, db.leases[v], db.intents[db.leases[v].intent], db.allocations[v], false);
      LeaseAfterAdvance(v, db.leases[v], db.intents[db.leases[v].intent], db.allocations[v], r.next);
    }
  }

  lemma LeaseAfterAdvance(w: Id, q: QuotaLease, i: Intent, a: Allocation, next: State)
    requires LeaseRule(w, q, i, a, false)
    ensures LeaseRowValid(w, q, i, a)
    ensures a.state != Cleaned && a.state != Quarantined && a.state != next && next != Cleaned
              && (a.state == Admitted ==> next == Failed) ==>
              (LeaseRowValid(w, q, i, Moved(a, next, a.cleanup))
               <==> !(q.phase == LeaseActive || next == Quarantined || next == Admitted))
  {
  }

  lemma LegalMoves(s: State, t: State)
    requires t in Legal(s)
    ensures s != Cleaned && s != Quarantined && s != t
    ensures s == Admitted ==> t == Failed
  {
  }

  /**
   The commit of `preparePhysicalAllocation` tests no state: it keeps the lease check exactly when
   the row is still admitted. Only a start in the same process could come between check and commit.
   */
  lemma {:induction false} PrepareKeepsLeasesIff(db: Db, r: PrepareRequest, intent: Id, token: Id, stamp: Stamp,
      now: Time)
    requires Inv(db, now) && FailedImports(db.events) == {} && CommitPrepare(db, r, intent, token, stamp).Committed?
    ensures QuotaProjectLeasesValid(CommitPrepare(db, r, intent, token, stamp).db) <==>
              db.allocations[r.worktree].state == Admitted
  {
    hide RowsOk, Traced, ImportsOk, CandidatesOk, Record, FailedImports, Issued, LeaseRowValid;
    var after, w := CommitPrepare(db, r, intent, token, stamp).db, r.worktree;
    forall i | i in after.intents && after.intents[i].kind == ForAllocation
      ensures exists v :: v in after.leases && after.leases[v].intent == i
    {
      if i == intent { assert after.leases[w].intent == i; }
        else { assert after.leases[db.intents[i].worktree].intent == i; }
    }
    forall v | v in db.leases
      ensures LeaseRowValid(v, db.leases[v], db.intents[db.leases[v].intent], db.allocations[v])
    {
      OldLeaseValid(db, v, now);
    }
    NewLeaseValidIff(w, after.leases[w], after.intents[intent], after.allocations[w]);
  }

  lemma OldLeaseValid(db: Db, v: Id, now: Time)
    requires LeasesOk(db) && v in db.leases && FailedImports(db.events) == {}
    ensures LeaseRowValid(v, db.leases[v], db.intents[db.leases[v].intent], db.allocations[v])
  {
    hide FailedImports, ProjectsIssued;
    assert LeaseRule(v, db.leases[v], db.intents[db.leases[v].intent], db.allocations[v], false);
  }

  lemma NewLeaseValidIff(w: Id, q: QuotaLease, i: Intent, a: Allocation)
    requires q.phase == LeaseActive && i.kind == ForAllocation && i.worktree == w && i.phase == IntentRequested
    ensures LeaseRowValid(w, q, i, a) <==> a.state == Admitted
  {
  }

  // Imports ---------------------------------------------------------------------------------------

  /** The external importer runs at most once per worktree. */
  lemma ImporterRunsOnce(now: Time, actions: seq<Action>, j: nat, k: nat)
    requires j < k < |Run(now, actions).called|
    ensures var s := Run(now, actions);
            && s.called[j] in s.db.imports && s.called[k] in s.db.imports
            && s.db.imports[s.called[j]].worktree != s.db.imports[s.called[k]].worktree
  {
    hide Run;
    RunIsOk(now, actions);
    var s := Run(now, actions);
    hide StatusOk, LeasesOk, RowsOk, Traced, CandidatesOk;
  }

  /** At most one lease holds a repository. */
  lemma {:induction false} RepositoryIsHeldOnce(now: Time, actions: seq<Action>, i: Id, j: Id)
    requires var db := Run(now, actions).db;
             && i in db.repositories && j in db.repositories && Holds(db.repositories[i]) && Holds(db.repositories[j])
             && db.repositories[i].repository == db.repositories[j].repository
    ensures i == j
  {
    hide Run;
    RunIsOk(now, actions);
    hide StatusOk, LeasesOk, RowsOk, Traced, CandidatesOk, ImportLogOk;
  }

  /** An import intent whose row can never be sealed again. */
  predicate Dead(db: Db, i: Id) {
    i in db.imports && db.imports[i].worktree in db.allocations && Settled(db.allocations[db.imports[i].worktree])
  }

  lemma DeadStaysDead(db: Db, after: Db, i: Id)
    requires Onward(db, after) && Dead(db, i)
    ensures Dead(after, i)
  {
    assert RowOnward(db.allocations[db.imports[i].worktree], after.allocations[db.imports[i].worktree]);
  }

  predicate Doomed(s: System, i: Id) {
    i in s.db.imports && (s.status.Up? ==> Dead(s.db, i))
  }

  lemma DoomedStays(s: System, a: Action, i: Id)
    requires SystemOk(s) && Doomed(s, i)
    ensures Doomed(Step(s, a), i)
  {
    hide Inv, Step, Onward, Dead, SystemOk;
    StepOnward(s, a);
    ImportStays(s.db, Step(s, a).db, i);
    if s.status.Up? {
      DeadStaysDead(s.db, Step(s, a).db, i);
    } else if Step(s, a).status.Up? {
      OnlyFinishBringsUp(s, a);
      FinishSettles(s, i);
    }
  }

  lemma ImportStays(db: Db, after: Db, i: Id)
    requires Onward(db, after) && i in db.imports
    ensures i in after.imports
  {
  }

  lemma OnlyFinishBringsUp(s: System, a: Action)
    requires !s.status.Up? && Step(s, a).status.Up?
    ensures a.FinishStart? && s.status.Recovery? && s.status.todo == {}
  {
    hide Serve, RecoverRow, IntegrityHolds, Selected;
  }

  lemma FinishSettles(s: System, i: Id)
    requires SystemOk(s) && s.status.Recovery? && s.status.todo == {} && i in s.db.imports
    ensures Dead(Step(s, FinishStart).db, i)
  {
    hide Inv, ImportLogOk, PendingOk, Settled, FailedImports;
    ImportHasRow(s.db, i, s.now);
    assert Settled(s.db.allocations[s.db.imports[i].worktree]);
  }

  lemma ImportHasRow(db: Db, i: Id, now: Time)
    requires Inv(db, now) && i in db.imports
    ensures db.imports[i].worktree in db.allocations
  {
    hide LeasesOk, RowsOk, Traced, CandidatesOk;
  }

  lemma {:induction false} DoomedForever(now: Time, actions: seq<Action>, more: seq<Action>, i: Id)
    requires Doomed(Run(now, actions), i)
    ensures Doomed(Run(now, actions + more), i)
  {
    hide Doomed, Step, SystemOk;
    if more == [] {
      assert actions + more == actions;
    } else {
      var longer := actions + more[..|more| - 1];
      DoomedForever(now, actions, more[..|more| - 1], i);
      assert (actions + more)[..|actions + more| - 1] == longer;
      RunIsOk(now, longer);
      DoomedStays(Run(now, longer), more[|more| - 1], i);
    }
  }

  /** An intent that was recorded when the process crashed can never be completed afterwards. */
  lemma CrashedIntentNeverCompletes(now: Time, actions: seq<Action>, more: seq<Action>, r: ImportEndRequest,
      stamp: Stamp)
    requires r.intent in Run(now, actions).db.imports
    requires Run(now, actions + [Crash] + more).status.Up?
    ensures !CompleteImport(Run(now, actions + [Crash] + more).db, r, stamp).Committed?
  {
    var crashed := actions + [Crash];
    assert crashed[..|actions|] == actions;
    assert Run(now, crashed) == Step(Run(now, actions), Crash);
    hide Run;
    DoomedForever(now, crashed, more, r.intent);
  }

  // Histories ---------------------------------------------------------------------------------------

  /** The row is what the log says: latest state, intact chain, first mode. */
  lemma {:induction false} LogExplainsTable(now: Time, actions: seq<Action>, w: Id)
    requires w in Run(now, actions).db.allocations
    ensures var db := Run(now, actions).db;
            && OwnerEventsValid(db.events) && PathsOk(db.events)
            && LastState(db.events, w) == Some(db.allocations[w].state) && ExecutionModeBindingsValid(db)
  {
    hide Run;
    RunIsOk(now, actions);
    OtherChecksPass(Run(now, actions).db);
    assert RowTraced(Run(now, actions).db.events, w, Run(now, actions).db.allocations[w]);
  }

  /** No event of `w` strictly between two positions. */
  predicate Consecutive(events: seq<Event>, j: nat, k: nat) {
    && j < k < |events| && events[j].worktree == events[k].worktree
    && forall i :: j < i < k ==> events[i].worktree != events[k].worktree
  }

  lemma {:induction false} LastStateIs(events: seq<Event>, j: nat, w: Id)
    requires j < |events| && events[j].worktree == w && forall i :: j < i < |events| ==> events[i].worktree != w
    ensures LastState(events, w) == Some(events[j].state)
  {
    if j < |events| - 1 { LastStateIs(events[..|events| - 1], j, w); }
  }

  lemma {:induction false} PathAt(events: seq<Event>, j: nat, k: nat)
    requires PathsOk(events) && Consecutive(events, j, k)
    ensures EdgeOk(events[j].state, events[k].name, events[k].state)
  {
    hide EdgeOk, LastState;
    var init := events[..|events| - 1];
    if k == |events| - 1 {
      LastStateIs(init, j, events[k].worktree);
    } else {
      PathAt(init, j, k);
    }
  }

  /** The edges that are not in the table: physical allocation, a failed import, retention, recovery. */
  predicate NamedEdge(s: State, t: State) {
    || (s == Admitted && (t == Allocated || t == Quarantined))
    || (s == Sealed && t == Quarantined)
    || (s in {Sealed, CandidateImported} && t == Retained)
    || t == RecoveryRequired
  }

  /** Each allocation's history is a path along the transition table and the named edges. */
  lemma {:induction false} HistoryIsPath(now: Time, actions: seq<Action>, j: nat, k: nat)
    requires Consecutive(Run(now, actions).db.events, j, k)
    ensures var events := Run(now, actions).db.events;
            var s, t := events[j].state, events[k].state;
            s == t || t in Legal(s) || NamedEdge(s, t)
  {
    hide Run;
    RunIsOk(now, actions);
    var events := Run(now, actions).db.events;
    PathAt(events, j, k);
    EdgesAreKnown(events[j].state, events[k].name, events[k].state);
  }

  lemma EdgesAreKnown(s: State, name: EventName, t: State)
    requires EdgeOk(s, name, t)
    ensures s == t || t in Legal(s) || NamedEdge(s, t)
  {
    if name == StateAdvanced { ControllerEdgesAreLegal(s, t); }
  }

  lemma {:induction false} ControllerEdgesAreLegal(s: State, t: State)
    requires ControllerEdge(s, t)
    ensures t in Legal(s) && t !in {Cleaning, Cleaned, CleanupFailed}
  {
  }

  // Retention and recovery -----------------------------------------------------------------------

  /** `retentionViolationCount` is always zero. */
  lemma {:induction false} NoRetentionViolation(now: Time, actions: seq<Action>, c: Id)
    requires c in Run(now, actions).db.candidates
    ensures var s := Run(now, actions);
            s.db.candidates[c].worktree in s.db.allocations && !RetentionViolation(s.db, c, s.now)
  {
    hide Run;
    RunIsOk(now, actions);
    var s := Run(now, actions);
    hide StatusOk, LeasesOk, RowsOk, Traced, ImportsOk, ImportLogOk, HasRetentionResult;
    assert CandidateRule(s.db.candidates[c], s.db.allocations[s.db.candidates[c].worktree].state,
                         HasRetentionResult(s.db, c), s.now);
  }

  /** When a start finishes, every row is settled and no quota lease is active or allocated. */
  lemma RecoveryLeavesNothingOpen(now: Time, actions: seq<Action>, w: Id)
    requires Run(now, actions).status.Recovery? && Run(now, actions).status.todo == {}
    ensures var db := Step(Run(now, actions), FinishStart).db;
            && (w in db.allocations ==> db.allocations[w].state in {Refused, Cleaned, Quarantined})
            && (w in db.leases ==> db.leases[w].phase !in {LeaseActive, LeaseAllocated})
  {
    hide Run, SystemOk;
    RunIsOk(now, actions);
    SettledLeases(Run(now, actions), w);
  }

  lemma SettledLeases(s: System, w: Id)
    requires SystemOk(s) && s.status.Recovery? && s.status.todo == {}
    ensures w in s.db.allocations ==> s.db.allocations[w].state in {Cleaned, Quarantined}
    ensures w in s.db.leases ==> s.db.leases[w].phase !in {LeaseActive, LeaseAllocated}
  {
    hide RowsOk, Traced, ImportsOk, CandidatesOk, ImportLogOk, FailedImports, LeasesOk, PendingOk;
    if w in s.db.leases {
      LeaseIs(s.db, w);
      SettledLease(w, s.db.leases[w], s.db.intents[s.db.leases[w].intent], s.db.allocations[w]);
    }
  }

  lemma SettledLease(w: Id, q: QuotaLease, i: Intent, a: Allocation)
    requires LeaseRule(w, q, i, a, false) && Settled(a)
    ensures q.phase !in {LeaseActive, LeaseAllocated}
  {
  }

  /** Whatever blocked admission once, no later start enables it again. */
  lemma BlockedForever(now: Time, actions: seq<Action>, more: seq<Action>)
    requires Run(now, actions).status.Up? && Run(now, actions).db.admission == Blocked
    ensures var s := Run(now, actions + more); s.status.Up? ==> s.db.admission == Blocked
  {
    hide Run, Inv, Faulted, Onward;
    RunIsOk(now, actions);
    RunIsOk(now, actions + more);
    RunOnward(now, actions, more);
    FaultsStay(Run(now, actions).db, Run(now, actions + more).db);
  }

  /** Admission is enabled in a running process exactly when nothing failed before. */
  lemma EnabledIff(now: Time, actions: seq<Action>)
    requires Run(now, actions).status.Up?
    ensures var db := Run(now, actions).db; db.admission == Enabled <==> !Faulted(db)
  {
    hide Run, Inv, Faulted;
    RunIsOk(now, actions);
  }
}
