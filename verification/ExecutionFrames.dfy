/** Which request moves which row from which state, and what becomes of an import intent. */
module ExecutionFrames {
  import opened Wrappers
  import opened ExecutionTables
  import opened ExecutionTransactions
  import opened ExecutionInvariant
  import opened ExecutionSteps
  import opened ExecutionSystem

  // Rows ---------------------------------------------------------------------------------------------

  /** The request is for this row, and takes it from one state to the other. */
  predicate Moves(a: Action, w: Id, s: State, t: State) {
    match a
    case CommitRecordOf(r, _) => r.worktree == w && s == Admitted && t == Allocated
    case DoFailAllocation(r, _) => r.worktree == w && s == Admitted && t == Quarantined
    case DoAdvance(r, _) => r.worktree == w && t == r.next && ControllerEdge(s, t)
    case DoSeal(r, _) => r.worktree == w && s == Stopping && t == Sealed
    case DoCompleteImport(r, _) => r.worktree == w && s == Sealed && t == CandidateImported
    case DoFailImport(r, _) => r.worktree == w && s == Sealed && t == Quarantined
    case DoRetention(r, _) => r.worktree == w && s in {Sealed, CandidateImported} && t == Retained
    case CommitCleanupOf(r, _, _, _, _, _) => r.worktree == w && Cleaning in Legal(s) && t == Cleaning
    case CommitCompleteOf(r, _, _) => r.worktree == w && s == Cleaning && t == Cleaned
    case DoFailCleanup(r, _) => r.worktree == w && s == Cleaning && t in {CleanupFailed, Quarantined}
    case RecoverOne(row, _, _, _) => row == w && t == Quarantined
    case _ => false
  }

  /** One row of the table is written, and it was there with this state. */
  predicate Wrote(db: Db, o: Outcome, w: Id, s: State, t: State)
    requires o.Committed?
  {
    && w in db.allocations && db.allocations[w].state == s
    && w in o.db.allocations && o.db.allocations == db.allocations[w := o.db.allocations[w]]
      && o.db.allocations[w].state == t
  }

  predicate KeepsImports(db: Db, o: Outcome)
    requires o.Committed?
  {
    o.db.imports == db.imports && o.db.repositories == db.repositories
  }

  lemma AdvanceWrites(db: Db, r: AdvanceRequest, stamp: Stamp)
    requires FromController(db, r) && Advance(db, r, stamp).Committed?
    ensures r.worktree in db.allocations && ControllerEdge(db.allocations[r.worktree].state, r.next)
    ensures Wrote(db, Advance(db, r, stamp), r.worktree, db.allocations[r.worktree].state, r.next)
    ensures KeepsImports(db, Advance(db, r, stamp))
  {
    CommittedEdge(db, r, stamp);
    hide Record, ControllerEdge, ControllerRequest, Legal;
  }

  lemma RecordWrites(db: Db, r: RecordRequest, stamp: Stamp)
    requires CommitRecord(db, r, stamp).Committed?
    ensures Wrote(db, CommitRecord(db, r, stamp), r.worktree, Admitted, Allocated)
    ensures KeepsImports(db, CommitRecord(db, r, stamp))
  {
    hide Record;
  }

  lemma FailAllocationWrites(db: Db, r: FailAllocationRequest, stamp: Stamp)
    requires FailAllocation(db, r, stamp).Committed?
    ensures Wrote(db, FailAllocation(db, r, stamp), r.worktree, Admitted, Quarantined)
    ensures KeepsImports(db, FailAllocation(db, r, stamp))
  {
    hide Record;
  }

  lemma SealWrites(db: Db, r: SealRequest, stamp: Stamp)
    requires RecordSeal(db, r, stamp).Committed?
    ensures Wrote(db, RecordSeal(db, r, stamp), r.worktree, Stopping, Sealed)
    ensures KeepsImports(db, RecordSeal(db, r, stamp))
  {
    hide Record;
  }

  lemma RetentionWrites(db: Db, r: RetentionRequest, stamp: Stamp)
    requires RecordRetention(db, r, stamp).Committed?
    ensures r.worktree in db.allocations && db.allocations[r.worktree].state in {Sealed, CandidateImported}
    ensures Wrote(db, RecordRetention(db, r, stamp), r.worktree, db.allocations[r.worktree].state, Retained)
    ensures KeepsImports(db, RecordRetention(db, r, stamp))
  {
    hide Record;
  }

  lemma CleanupWrites(db: Db, r: CleanupRequest, state: State, identity: Option<Id>, intent: Id, token: Id,
      stamp: Stamp)
    requires CommitCleanup(db, r, state, identity, intent, token, stamp).Committed?
    ensures Wrote(db, CommitCleanup(db, r, state, identity, intent, token, stamp), r.worktree, state, Cleaning)
    ensures KeepsImports(db, CommitCleanup(db, r, state, identity, intent, token, stamp))
  {
    hide Record, RetentionDecided, StillKept;
  }

  lemma CompleteWrites(db: Db, r: CleanupEndRequest, project: nat, stamp: Stamp)
    requires CommitComplete(db, r, project, stamp).Committed?
    ensures Wrote(db, CommitComplete(db, r, project, stamp), r.worktree, Cleaning, Cleaned)
    ensures KeepsImports(db, CommitComplete(db, r, project, stamp))
  {
    hide Record;
  }

  lemma FailCleanupWrites(db: Db, r: CleanupEndRequest, stamp: Stamp)
    requires FailCleanup(db, r, stamp).Committed?
    ensures var o := FailCleanup(db, r, stamp);
            Wrote(db, o, r.worktree, Cleaning, CleanupFailed) || Wrote(db, o, r.worktree, Cleaning, Quarantined)
    ensures KeepsImports(db, FailCleanup(db, r, stamp))
  {
    hide Record;
  }

  /** What the end of an import writes: the row, its intent and its repository lease. */
  predicate EndsImport(db: Db, o: Outcome, r: ImportEndRequest, t: State, phase: IntentPhase,
      repository: RepositoryPhase)
    requires o.Committed?
  {
    && Wrote(db, o, r.worktree, Sealed, t)
    && r.intent in db.imports && db.imports[r.intent].worktree == r.worktree && r.intent in db.repositories
    && db.imports[r.intent].phase == IntentRequested
    && o.db.imports == db.imports[r.intent := db.imports[r.intent].(phase := phase)]
    && o.db.repositories == db.repositories[r.intent := db.repositories[r.intent].(phase := repository)]
  }

  lemma CompleteImportWrites(db: Db, r: ImportEndRequest, stamp: Stamp)
    requires CompleteImport(db, r, stamp).Committed?
    ensures EndsImport(db, CompleteImport(db, r, stamp), r, CandidateImported, IntentCompleted, RepositoryReleased)
  {
    hide Record;
  }

  lemma FailImportWrites(db: Db, r: ImportEndRequest, stamp: Stamp)
    requires FailImport(db, r, stamp).Committed?
    ensures EndsImport(db, FailImport(db, r, stamp), r, Quarantined, IntentQuarantined, RepositoryQuarantined)
  {
    hide Record;
  }

  lemma PrepareImportWrites(db: Db, r: ImportRequest, intent: Id, token: Id, stamp: Stamp)
    requires PrepareImport(db, r, intent, token, stamp).Committed?
    ensures var after := PrepareImport(db, r, intent, token, stamp).db;
            && after.allocations == db.allocations && r.worktree in db.allocations
            && intent !in db.imports && intent !in db.repositories
            && intent in after.imports && after.imports == db.imports[intent := after.imports[intent]]
            && after.imports[intent].worktree == r.worktree && after.imports[intent].phase == IntentRequested
            && intent in after.repositories && after.repositories
              == db.repositories[intent := after.repositories[intent]]
            && after.repositories[intent].phase == RepositoryActive
  {
    hide Record;
  }

  lemma WroteMoves(db: Db, o: Outcome, x: Id, s: State, t: State, w: Id)
    requires o.Committed? && Wrote(db, o, x, s, t) && w in db.allocations
    ensures w in o.db.allocations
    ensures o.db.allocations[w] == db.allocations[w]
            || (w == x && db.allocations[w].state == s && o.db.allocations[w].state == t)
  {
  }

  /** A row is the same after a step, or the step is a request for it that moves it. */
  lemma StepMoves(s: System, a: Action, w: Id)
    requires SystemOk(s) && w in s.db.allocations
    ensures var t := Step(s, a);
            && w in t.db.allocations
            && (t.db.allocations[w] == s.db.allocations[w]
                || Moves(a, w, s.db.allocations[w].state, t.db.allocations[w].state))
  {
    hide SystemOk, Serve, IntegrityHolds, Selected, Moves;
    match a
    case RecoverOne(row, first, second, third) => RecoveryMoves(s, a, w);
    case Start =>
    case Crash =>
    case Tick(_) =>
    case FinishStart =>
    case _ => if s.status.Up? { ServeMoves(s, a, w); }
  }

  lemma RecoveryMoves(s: System, a: Action, w: Id)
    requires w in s.db.allocations && a.RecoverOne?
    ensures var t := Step(s, a);
            && w in t.db.allocations
            && (t.db.allocations[w] == s.db.allocations[w]
                || Moves(a, w, s.db.allocations[w].state, t.db.allocations[w].state))
  {
    hide Record;
  }

  lemma ServeMoves(s: System, a: Action, w: Id)
    requires SystemOk(s) && s.status.Up? && w in s.db.allocations
    ensures var t := Serve(s, a);
            && w in t.db.allocations
            && (t.db.allocations[w] == s.db.allocations[w]
                || Moves(a, w, s.db.allocations[w].state, t.db.allocations[w].state))
  {
    hide SystemOk, Serve, Moves;
    match a
    case DoSeal(_, _) => CandidateMoves(s, a, w);
    case DoPrepareImport(_, _, _, _) => CandidateMoves(s, a, w);
    case DoCompleteImport(_, _) => CandidateMoves(s, a, w);
    case DoFailImport(_, _) => CandidateMoves(s, a, w);
    case DoRetention(_, _) => CandidateMoves(s, a, w);
    case CommitCleanupOf(_, _, _, _, _, _) => CleanupMoves(s, a, w);
    case CommitCompleteOf(_, _, _) => CleanupMoves(s, a, w);
    case DoFailCleanup(_, _) => CleanupMoves(s, a, w);
    case _ => AllocationMoves(s, a, w);
  }

  lemma AllocationMoves(s: System, a: Action, w: Id)
    requires s.status.Up? && w in s.db.allocations
    requires !a.DoSeal? && !a.DoPrepareImport? && !a.DoCompleteImport? && !a.DoFailImport? && !a.DoRetention?
    requires !a.CommitCleanupOf? && !a.CommitCompleteOf? && !a.DoFailCleanup?
    ensures var t := Serve(s, a);
            && w in t.db.allocations
            && (t.db.allocations[w] == s.db.allocations[w]
                || Moves(a, w, s.db.allocations[w].state, t.db.allocations[w].state))
  {
    hide SystemOk, FromController, MayWait, CommitReserve, CommitPrepare, CommitRecord, CommitCleanup, CommitComplete,
      Advance, FailAllocation, RecordSeal, PrepareImport, CompleteImport, FailImport, RecordRetention, FailCleanup,
      Legal, ControllerEdge, Wrote;
    match a
    case CommitReserveOf(r, mode, authority, x, stamp) => ReserveLeaves(s.db, r, mode, authority, x, At(s, stamp), w);
    case CommitPrepareOf(r, intent, token, stamp) => PrepareLeaves(s.db, r, intent, token, At(s, stamp));
    case CommitRecordOf(r, stamp) =>
      if CommitRecord(s.db, r, At(s, stamp)).Committed? {
        RecordWrites(s.db, r, At(s, stamp));
        WroteMoves(s.db, CommitRecord(s.db, r, At(s, stamp)), r.worktree, Admitted, Allocated, w);
      }
    case DoAdvance(r, stamp) =>
      if FromController(s.db, r) && Advance(s.db, r, At(s, stamp)).Committed? {
        AdvanceWrites(s.db, r, At(s, stamp));
        WroteMoves(s.db, Advance(s.db, r, At(s, stamp)), r.worktree, s.db.allocations[r.worktree].state, r.next, w);
      }
    case DoFailAllocation(r, stamp) =>
      if FailAllocation(s.db, r, At(s, stamp)).Committed? {
        FailAllocationWrites(s.db, r, At(s, stamp));
        WroteMoves(s.db, FailAllocation(s.db, r, At(s, stamp)), r.worktree, Admitted, Quarantined, w);
      }
    case _ =>
  }

  lemma CandidateMoves(s: System, a: Action, w: Id)
    requires s.status.Up? && w in s.db.allocations
    requires a.DoSeal? || a.DoPrepareImport? || a.DoCompleteImport? || a.DoFailImport? || a.DoRetention?
    ensures var t := Serve(s, a);
            && w in t.db.allocations
            && (t.db.allocations[w] == s.db.allocations[w]
                || Moves(a, w, s.db.allocations[w].state, t.db.allocations[w].state))
  {
    hide SystemOk, FromController, MayWait, CommitReserve, CommitPrepare, CommitRecord, CommitCleanup, CommitComplete,
      Advance, FailAllocation, RecordSeal, PrepareImport, CompleteImport, FailImport, RecordRetention, FailCleanup,
      Legal, ControllerEdge, Wrote;
    match a
    case DoSeal(r, stamp) =>
      if RecordSeal(s.db, r, At(s, stamp)).Committed? {
        SealWrites(s.db, r, At(s, stamp));
        WroteMoves(s.db, RecordSeal(s.db, r, At(s, stamp)), r.worktree, Stopping, Sealed, w);
      }
    case DoPrepareImport(r, intent, token, stamp) =>
      if PrepareImport(s.db, r, intent, token, At(s, stamp)).Committed? {
        PrepareImportWrites(s.db, r, intent, token, At(s, stamp));
      }
    case DoCompleteImport(r, stamp) =>
      if CompleteImport(s.db, r, At(s, stamp)).Committed? {
        CompleteImportWrites(s.db, r, At(s, stamp));
        WroteMoves(s.db, CompleteImport(s.db, r, At(s, stamp)), r.worktree, Sealed, CandidateImported, w);
      }
    case DoFailImport(r, stamp) =>
      if FailImport(s.db, r, At(s, stamp)).Committed? {
        FailImportWrites(s.db, r, At(s, stamp));
        WroteMoves(s.db, FailImport(s.db, r, At(s, stamp)), r.worktree, Sealed, Quarantined, w);
      }
    case DoRetention(r, stamp) =>
      if RecordRetention(s.db, r, At(s, stamp)).Committed? {
        RetentionWrites(s.db, r, At(s, stamp));
        WroteMoves(s.db, RecordRetention(s.db, r, At(s, stamp)), r.worktree, s.db.allocations[r.worktree].state,
                   Retained, w);
      }
  }

  lemma CleanupMoves(s: System, a: Action, w: Id)
    requires SystemOk(s) && s.status.Up? && w in s.db.allocations
    requires a.CommitCleanupOf? || a.CommitCompleteOf? || a.DoFailCleanup?
    ensures var t := Serve(s, a);
            && w in t.db.allocations
            && (t.db.allocations[w] == s.db.allocations[w]
                || Moves(a, w, s.db.allocations[w].state, t.db.allocations[w].state))
  {
    hide SystemOk, FromController, MayWait, CommitReserve, CommitPrepare, CommitRecord, CommitCleanup, CommitComplete,
      Advance, FailAllocation, RecordSeal, PrepareImport, CompleteImport, FailImport, RecordRetention, FailCleanup,
      Legal, ControllerEdge, Wrote;
    match a
    case CommitCleanupOf(r, state, identity, intent, token, stamp) =>
      if AwaitCleanup(r, state, identity) in s.pending {
        WaitingCleanup(s, r, state, identity);
        if CommitCleanup(s.db, r, state, identity, intent, token, At(s, stamp)).Committed? {
          CleanupWrites(s.db, r, state, identity, intent, token, At(s, stamp));
          WroteMoves(s.db, CommitCleanup(s.db, r, state, identity, intent, token, At(s, stamp)), r.worktree, state,
                     Cleaning, w);
        }
      }
    case CommitCompleteOf(r, project, stamp) =>
      if CommitComplete(s.db, r, project, At(s, stamp)).Committed? {
        CompleteWrites(s.db, r, project, At(s, stamp));
        WroteMoves(s.db, CommitComplete(s.db, r, project, At(s, stamp)), r.worktree, Cleaning, Cleaned, w);
      }
    case DoFailCleanup(r, stamp) =>
      if FailCleanup(s.db, r, At(s, stamp)).Committed? {
        FailCleanupWrites(s.db, r, At(s, stamp));
        var t := if Wrote(s.db, FailCleanup(s.db, r, At(s, stamp)), r.worktree, Cleaning, Quarantined) then Quarantined
          else CleanupFailed;
        WroteMoves(s.db, FailCleanup(s.db, r, At(s, stamp)), r.worktree, Cleaning, t, w);
      }
  }

  /** A cleanup that waits for its authority was asked of a row that may be cleaned. */
  lemma WaitingCleanup(s: System, r: CleanupRequest, state: State, identity: Option<Id>)
    requires SystemOk(s) && AwaitCleanup(r, state, identity) in s.pending
    ensures Cleaning in Legal(state)
  {
    hide Inv, StatusOk, ImportLogOk, Legal;
    assert PendingOk(s.db, AwaitCleanup(r, state, identity));
  }

  lemma ReserveLeaves(db: Db, r: ReserveRequest, mode: Mode, authority: nat, x: Id, stamp: Stamp, w: Id)
    requires w in db.allocations
    ensures var o := CommitReserve(db, r, mode, authority, x, stamp);
            o.Committed? ==> w in o.db.allocations && o.db.allocations[w] == db.allocations[w] && KeepsImports(db, o)
  {
    hide Record;
  }

  lemma PrepareLeaves(db: Db, r: PrepareRequest, intent: Id, token: Id, stamp: Stamp)
    ensures var o := CommitPrepare(db, r, intent, token, stamp);
            o.Committed? ==> o.db.allocations == db.allocations && KeepsImports(db, o)
  {
    hide Record;
  }

  // Import intents -----------------------------------------------------------------------------------

  /** The step ends this import. */
  predicate Ends(a: Action, i: Id, s: Db, t: Db)
    requires i in s.imports && s.imports[i].worktree in s.allocations && i in t.imports && i in t.repositories
  {
    var w := s.imports[i].worktree;
    && s.imports[i].phase == IntentRequested && s.allocations[w].state == Sealed && w in t.allocations
    && ((a.DoCompleteImport? && a.end.intent == i && t.imports[i] == s.imports[i].(phase := IntentCompleted)
         && !Holds(t.repositories[i]) && t.allocations[w].state == CandidateImported)
        || (a.DoFailImport? && a.end.intent == i && t.imports[i] == s.imports[i].(phase := IntentQuarantined)
            && Holds(t.repositories[i]) && t.allocations[w].state == Quarantined))
  }

  predicate SameImport(i: Id, s: Db, t: Db)
    requires i in s.imports && i in s.repositories && i in t.imports && i in t.repositories
  {
    t.imports[i] == s.imports[i] && Holds(t.repositories[i]) == Holds(s.repositories[i])
  }

  predicate HasImport(db: Db, i: Id) {
    i in db.imports && i in db.repositories && db.imports[i].worktree in db.allocations
  }

  /** A step leaves an import intent and what it holds alone, or is the request that ends it. */
  lemma StepImports(s: System, a: Action, i: Id)
    requires HasImport(s.db, i)
    ensures var t := Step(s, a);
            && i in t.db.imports && i in t.db.repositories
            && (SameImport(i, s.db, t.db) || Ends(a, i, s.db, t.db))
  {
    hide Serve, IntegrityHolds, Selected, Ends, SameImport;
    SameIsSame(i, s.db, s.db);
    match a
    case RecoverOne(row, first, second, third) => RecoveryKeepsImports(s, a, i);
    case Start => SameIsSame(i, s.db, Step(s, a).db);
    case FinishStart => SameIsSame(i, s.db, Step(s, a).db);
    case Crash =>
    case Tick(_) =>
    case _ => if s.status.Up? { ServeImports(s, a, i); }
  }

  lemma SameIsSame(i: Id, s: Db, t: Db)
    requires HasImport(s, i) && t.imports == s.imports && t.repositories == s.repositories
    ensures SameImport(i, s, t)
  {
  }

  lemma RecoveryKeepsImports(s: System, a: Action, i: Id)
    requires HasImport(s.db, i) && a.RecoverOne?
    ensures var t := Step(s, a); i in t.db.imports && i in t.db.repositories && SameImport(i, s.db, t.db)
  {
    hide Record;
  }

  /** Three requests change import intents; every other one leaves them and the repository leases alone. */
  predicate AllocationAction(a: Action) {
    a.CommitReserveOf? || a.CommitPrepareOf? || a.CommitRecordOf? || a.DoAdvance? || a.DoFailAllocation? || a.DoSeal?
  }

  lemma AllocationKeepsImports(s: System, a: Action)
    requires AllocationAction(a)
    ensures Serve(s, a).db.imports == s.db.imports && Serve(s, a).db.repositories == s.db.repositories
  {
    hide FromController, CommitReserve, CommitPrepare, CommitRecord, Advance, FailAllocation, RecordSeal, Wrote;
    match a
    case CommitReserveOf(r, mode, authority, x, stamp) => ReserveKeepsImports(s.db, r, mode, authority, x,
        At(s, stamp));
    case CommitPrepareOf(r, intent, token, stamp) => PrepareLeaves(s.db, r, intent, token, At(s, stamp));
    case CommitRecordOf(r, stamp) =>
      if CommitRecord(s.db, r, At(s, stamp)).Committed? { RecordWrites(s.db, r, At(s, stamp)); }
    case DoAdvance(r, stamp) =>
      if FromController(s.db, r) && Advance(s.db, r, At(s, stamp)).Committed? { AdvanceWrites(s.db, r, At(s, stamp)); }
    case DoFailAllocation(r, stamp) =>
      if FailAllocation(s.db, r, At(s, stamp)).Committed? { FailAllocationWrites(s.db, r, At(s, stamp)); }
    case DoSeal(r, stamp) =>
      if RecordSeal(s.db, r, At(s, stamp)).Committed? { SealWrites(s.db, r, At(s, stamp)); }
  }

  lemma ServeOnImports(s: System, a: Action)
    ensures var t := Serve(s, a);
            || (t.db.imports == s.db.imports && t.db.repositories == s.db.repositories)
            || (a.DoPrepareImport? && PrepareImport(s.db, a.candidateImport, a.chosen, a.token,
                                                    At(s, a.stamp)).Committed?)
            || (a.DoCompleteImport? && CompleteImport(s.db, a.end, At(s, a.stamp)).Committed?)
            || (a.DoFailImport? && FailImport(s.db, a.end, At(s, a.stamp)).Committed?)
  {
    hide FromController, MayWait, CommitReserve, CommitPrepare, CommitRecord, CommitCleanup, CommitComplete, Advance,
      FailAllocation, RecordSeal, PrepareImport, CompleteImport, FailImport, RecordRetention, FailCleanup, Wrote;
    match a
    case DoRetention(r, stamp) =>
      if RecordRetention(s.db, r, At(s, stamp)).Committed? { RetentionWrites(s.db, r, At(s, stamp)); }
    case CommitCleanupOf(r, state, identity, intent, token, stamp) =>
      if CommitCleanup(s.db, r, state, identity, intent, token, At(s, stamp)).Committed? {
        CleanupWrites(s.db, r, state, identity, intent, token, At(s, stamp));
      }
    case CommitCompleteOf(r, project, stamp) =>
      if CommitComplete(s.db, r, project, At(s, stamp)).Committed? { CompleteWrites(s.db, r, project, At(s, stamp)); }
    case DoFailCleanup(r, stamp) =>
      if FailCleanup(s.db, r, At(s, stamp)).Committed? { FailCleanupWrites(s.db, r, At(s, stamp)); }
    case _ =>
      if AllocationAction(a) {
        hide Serve;
        AllocationKeepsImports(s, a);
      }
  }

  lemma ServeImports(s: System, a: Action, i: Id)
    requires HasImport(s.db, i) && s.status.Up?
    ensures var t := Serve(s, a);
            && i in t.db.imports && i in t.db.repositories
            && (SameImport(i, s.db, t.db) || Ends(a, i, s.db, t.db))
  {
    hide PrepareImport, CompleteImport, FailImport, Ends;
    ServeOnImports(s, a);
    var t := Serve(s, a);
    if t.db.imports == s.db.imports && t.db.repositories == s.db.repositories {
    } else if a.DoPrepareImport? {
      PrepareImportWrites(s.db, a.candidateImport, a.chosen, a.token, At(s, a.stamp));
    } else if a.DoCompleteImport? {
      CompletionEnds(s.db, a.end, At(s, a.stamp), a, i);
    } else {
      FailureEnds(s.db, a.end, At(s, a.stamp), a, i);
    }
  }

  lemma CompletionEnds(db: Db, r: ImportEndRequest, stamp: Stamp, a: Action, i: Id)
    requires HasImport(db, i) && CompleteImport(db, r, stamp).Committed? && a.DoCompleteImport? && a.end == r
    ensures var t := CompleteImport(db, r, stamp).db;
            i in t.imports && i in t.repositories && if r.intent == i then Ends(a, i, db, t) else SameImport(i, db, t)
  {
    CompleteImportWrites(db, r, stamp);
    hide CompleteImport;
  }

  lemma FailureEnds(db: Db, r: ImportEndRequest, stamp: Stamp, a: Action, i: Id)
    requires HasImport(db, i) && FailImport(db, r, stamp).Committed? && a.DoFailImport? && a.end == r
    ensures var t := FailImport(db, r, stamp).db;
            i in t.imports && i in t.repositories && if r.intent == i then Ends(a, i, db, t) else SameImport(i, db, t)
  {
    FailImportWrites(db, r, stamp);
    hide FailImport;
  }

  /** States a row cannot come back to `Sealed` from. */
  predicate Gone(s: State) { s in {Retained, Cleaning, Cleaned, CleanupFailed, Quarantined} }

  lemma GoneIsForGood(a: Action, w: Id, s: State, t: State)
    requires Moves(a, w, s, t)
    ensures Gone(s) ==> Gone(t)
    ensures s == CandidateImported ==> Gone(t)
    ensures s == Quarantined ==> t == Quarantined
  {
  }

  /** The phase of an import intent, what it holds, and how far its row has come. */
  predicate PhaseOk(phase: IntentPhase, held: bool, s: State) {
    match phase
    case IntentRequested => held
    case IntentCompleted => !held && (s == CandidateImported || Gone(s))
    case IntentQuarantined => held && s == Quarantined
    case IntentFailed => false
  }

  predicate PhasesOk(db: Db) {
    forall i :: i in db.imports ==>
      HasImport(db, i) && PhaseOk(db.imports[i].phase, Holds(db.repositories[i]),
                                  db.allocations[db.imports[i].worktree].state)
  }

  lemma StepPhases(s: System, a: Action)
    requires SystemOk(s) && PhasesOk(s.db)
    ensures PhasesOk(Step(s, a).db)
  {
    hide SystemOk, Step, Holds;
    var t := Step(s, a);
    forall i | i in t.db.imports
      ensures HasImport(t.db, i)
      ensures PhaseOk(t.db.imports[i].phase, Holds(t.db.repositories[i]),
                t.db.allocations[t.db.imports[i].worktree].state)
    {
      if i in s.db.imports {
        StepImports(s, a, i);
        StepMoves(s, a, s.db.imports[i].worktree);
        OldPhase(s, a, i);
      } else {
        NewPhase(s, a, i);
      }
    }
  }

  lemma OldPhase(s: System, a: Action, i: Id)
    requires HasImport(s.db, i)
    requires PhaseOk(s.db.imports[i].phase, Holds(s.db.repositories[i]),
               s.db.allocations[s.db.imports[i].worktree].state)
    requires var t := Step(s, a); var w := s.db.imports[i].worktree;
             && i in t.db.imports && i in t.db.repositories && (SameImport(i, s.db, t.db) || Ends(a, i, s.db, t.db))
             && w in t.db.allocations
             && (t.db.allocations[w] == s.db.allocations[w]
                 || Moves(a, w, s.db.allocations[w].state, t.db.allocations[w].state))
    ensures var t := Step(s, a);
            HasImport(t.db, i)
            && PhaseOk(t.db.imports[i].phase, Holds(t.db.repositories[i]),
                       t.db.allocations[t.db.imports[i].worktree].state)
  {
    hide Step, Holds, Moves;
    var w := s.db.imports[i].worktree;
    var t := Step(s, a);
    if t.db.allocations[w] != s.db.allocations[w] {
      GoneIsForGood(a, w, s.db.allocations[w].state, t.db.allocations[w].state);
    }
  }

  lemma NewPhase(s: System, a: Action, i: Id)
    requires SystemOk(s) && i !in s.db.imports && i in Step(s, a).db.imports
    ensures var t := Step(s, a);
            HasImport(t.db, i)
            && PhaseOk(t.db.imports[i].phase, Holds(t.db.repositories[i]),
                       t.db.allocations[t.db.imports[i].worktree].state)
  {
    hide SystemOk, FromController, MayWait, CommitReserve, CommitPrepare, CommitRecord, CommitCleanup, CommitComplete,
      Advance, FailAllocation, RecordSeal, PrepareImport, CompleteImport, FailImport, RecordRetention, FailCleanup,
        Wrote;
    OnlyPrepareAdds(s, a, i);
    PrepareImportWrites(s.db, a.candidateImport, a.chosen, a.token, At(s, a.stamp));
  }

  /** An import intent comes into being in one way. */
  lemma OnlyPrepareAdds(s: System, a: Action, i: Id)
    requires i !in s.db.imports && i in Step(s, a).db.imports
    ensures a.DoPrepareImport? && s.status.Up? && a.chosen == i
    ensures PrepareImport(s.db, a.candidateImport, a.chosen, a.token, At(s, a.stamp)).Committed?
  {
    hide Serve, RecoverRow, IntegrityHolds, Selected;
    RecoveryAddsNone(s.db);
    ServingAdds(s, a, i);
  }

  lemma RecoveryAddsNone(db: Db)
    ensures forall w, first, second, third | w in db.allocations :: RecoverRow(db, w, first, second, third).imports
              == db.imports
  {
    hide Record;
  }

  lemma ServingAdds(s: System, a: Action, i: Id)
    requires i !in s.db.imports
    ensures i in Serve(s, a).db.imports ==>
              && a.DoPrepareImport? && a.chosen == i
              && PrepareImport(s.db, a.candidateImport, a.chosen, a.token, At(s, a.stamp)).Committed?
  {
    hide PrepareImport, CompleteImport, FailImport;
    ServeOnImports(s, a);
    if a.DoPrepareImport? && PrepareImport(s.db, a.candidateImport, a.chosen, a.token, At(s, a.stamp)).Committed? {
      PrepareImportWrites(s.db, a.candidateImport, a.chosen, a.token, At(s, a.stamp));
    } else if a.DoCompleteImport? && CompleteImport(s.db, a.end, At(s, a.stamp)).Committed? {
      CompleteImportWrites(s.db, a.end, At(s, a.stamp));
    } else if a.DoFailImport? && FailImport(s.db, a.end, At(s, a.stamp)).Committed? {
      FailImportWrites(s.db, a.end, At(s, a.stamp));
    }
  }

  lemma ReserveKeepsImports(db: Db, r: ReserveRequest, mode: Mode, authority: nat, x: Id, stamp: Stamp)
    ensures var o := CommitReserve(db, r, mode, authority, x, stamp); o.Committed? ==> KeepsImports(db, o)
  {
    hide Record;
  }

  lemma {:induction false} PhasesHold(now: Time, actions: seq<Action>)
    ensures PhasesOk(Run(now, actions).db)
  {
    hide Step, PhasesOk;
    if actions == [] {
      NoPhases(now);
    } else {
      PhasesHold(now, actions[..|actions| - 1]);
      RunIsOk(now, actions[..|actions| - 1]);
      StepPhases(Run(now, actions[..|actions| - 1]), actions[|actions| - 1]);
    }
  }

  lemma NoPhases(now: Time)
    ensures PhasesOk(Boot(now).db)
  {
  }
}
