/** What becomes of a row or an import after requests the registry mishandles. */
module ExecutionFates {
  import opened ExecutionTables
  import opened ExecutionTransactions
  import opened ExecutionInvariant
  import opened ExecutionSteps
  import opened ExecutionSystem
  import opened ExecutionFrames

  lemma RunSplits(now: Time, actions: seq<Action>, last: Action)
    ensures Run(now, actions + [last]) == Step(Run(now, actions), last)
  {
    assert (actions + [last])[..|actions|] == actions;
  }

  // Retention of a sealed row ------------------------------------------------------------------------

  /** The row is past every import, and its import is what it was. */
  predicate Fated(db: Db, i: Id, import_: ImportIntent, held: bool) {
    HasImport(db, i) && db.imports[i] == import_ && Holds(db.repositories[i]) == held
      && Gone(db.allocations[import_.worktree].state)
  }

  lemma StepFated(s: System, a: Action, i: Id, import_: ImportIntent, held: bool)
    requires SystemOk(s) && Fated(s.db, i, import_, held)
    ensures Fated(Step(s, a).db, i, import_, held)
  {
    hide SystemOk, Step, Moves, Holds;
    var w := import_.worktree;
    StepImports(s, a, i);
    StepMoves(s, a, w);
    var t := Step(s, a);
    if t.db.allocations[w] != s.db.allocations[w] {
      GoneIsForGood(a, w, s.db.allocations[w].state, t.db.allocations[w].state);
    }
  }

  lemma {:induction false} FatedForever(now: Time, actions: seq<Action>, more: seq<Action>, i: Id,
      import_: ImportIntent, held: bool)
    requires Fated(Run(now, actions).db, i, import_, held)
    ensures Fated(Run(now, actions + more).db, i, import_, held)
    decreases |more|
  {
    hide Step, SystemOk, Fated;
    if more == [] {
      assert actions + more == actions;
    } else {
      var init, last := more[..|more| - 1], more[|more| - 1];
      FatedForever(now, actions, init, i, import_, held);
      RunIsOk(now, actions + init);
      StepFated(Run(now, actions + init), last, i, import_, held);
      RunSplits(now, actions + init, last);
      assert (actions + init) + [last] == actions + more;
    }
  }

  /** The import of a row that is gone can be neither completed nor failed. */
  lemma FatedNeverEnds(db: Db, i: Id, import_: ImportIntent, held: bool, end: ImportEndRequest, stamp: Stamp)
    requires Fated(db, i, import_, held) && end.intent == i
    ensures !CompleteImport(db, end, stamp).Committed? && !FailImport(db, end, stamp).Committed?
  {
    if CompleteImport(db, end, stamp).Committed? { CompleteImportWrites(db, end, stamp); }
    if FailImport(db, end, stamp).Committed? { FailImportWrites(db, end, stamp); }
    hide CompleteImport, FailImport;
  }

  /** Retention takes the row to `Retained` and leaves its import alone. */
  lemma RetentionFates(db: Db, r: RetentionRequest, stamp: Stamp, i: Id)
    requires RecordRetention(db, r, stamp).Committed? && PhasesOk(db) && i in db.imports
               && db.imports[i].worktree == r.worktree
    ensures HasImport(db, i) && (Holds(db.repositories[i]) <==> db.imports[i].phase == IntentRequested)
    ensures Fated(RecordRetention(db, r, stamp).db, i, db.imports[i], db.imports[i].phase == IntentRequested)
  {
    RetentionWrites(db, r, stamp);
    hide RecordRetention;
    assert PhaseOk(db.imports[i].phase, Holds(db.repositories[i]), db.allocations[r.worktree].state);
  }

  /**
   Retention asks for a sealed row, not for a closed import. In every run after it, through crashes
   and recoveries, the import of the row holds its repository if and only if it was still requested
   when the retention committed; and no request can complete or fail it any more.
   */
  lemma {:induction false} RetentionStrandsImport(now: Time, actions: seq<Action>, r: RetentionRequest, stamp: Stamp,
      more: seq<Action>, i: Id, end: ImportEndRequest, later: Stamp)
    requires var s := Run(now, actions);
             && s.status.Up? && RecordRetention(s.db, r, At(s, stamp)).Committed?
             && i in s.db.imports && s.db.imports[i].worktree == r.worktree
    requires end.intent == i
    ensures var s, t := Run(now, actions), Run(now, actions + [DoRetention(r, stamp)] + more);
            && i in t.db.imports && t.db.imports[i] == s.db.imports[i] && i in t.db.repositories
            && (Holds(t.db.repositories[i]) <==> s.db.imports[i].phase == IntentRequested)
            && !CompleteImport(t.db, end, later).Committed? && !FailImport(t.db, end, later).Committed?
  {
    hide *;
    var s := Run(now, actions);
    var open := s.db.imports[i].phase == IntentRequested;
    PhasesHold(now, actions);
    RunSplits(now, actions, DoRetention(r, stamp));
    RetentionSettles(s, r, stamp);
    RetentionFates(s.db, r, At(s, stamp), i);
    FatedForever(now, actions + [DoRetention(r, stamp)], more, i, s.db.imports[i], open);
    var t := Run(now, actions + [DoRetention(r, stamp)] + more);
    FatedNeverEnds(t.db, i, s.db.imports[i], open, end, later);
    FatedMeans(t.db, i, s.db.imports[i], open);
  }

  lemma RetentionSettles(s: System, r: RetentionRequest, stamp: Stamp)
    requires s.status.Up? && RecordRetention(s.db, r, At(s, stamp)).Committed?
    ensures Step(s, DoRetention(r, stamp)).db == RecordRetention(s.db, r, At(s, stamp)).db
  {
    hide RecordRetention;
  }

  lemma FatedMeans(db: Db, i: Id, import_: ImportIntent, held: bool)
    requires Fated(db, i, import_, held)
    ensures i in db.imports && db.imports[i] == import_ && i in db.repositories && Holds(db.repositories[i]) == held
  {
    hide Holds, Gone;
  }

  // A request the table refuses ------------------------------------------------------------------------

  /** A request of the controller that fits its row and is new. */
  predicate FitsRow(db: Db, r: AdvanceRequest) {
    && db.admission == Enabled && (OfLifecycle, r.request) !in db.results
    && r.worktree in db.allocations && db.allocations[r.worktree].binding == r.binding
    && db.allocations[r.worktree].revision == r.revision
    && ControllerRequest(db.allocations[r.worktree].state, r.next)
  }

  /** Of the edges the workspace controller asks for the table refuses exactly one. */
  lemma ControllerRequestsCommitIff(db: Db, r: AdvanceRequest, stamp: Stamp)
    requires FitsRow(db, r)
    ensures Advance(db, r, stamp).Committed? <==>
              !(db.allocations[r.worktree].state == Executing && r.next == Cancelled)
    ensures !Advance(db, r, stamp).Committed? ==> Advance(db, r, stamp) == Refuse(StateInvalid)
  {
    hide Record;
  }

  /** The requests that take a row out of `Executing`: another outcome, or a recovery of the row. */
  predicate LeavesExecuting(a: Action, w: Id) {
    || (a.DoAdvance? && a.advance.worktree == w && a.advance.next in {Stopping, TimedOut, Failed})
    || (a.RecoverOne? && a.row == w)
  }

  lemma StepStaysExecuting(s: System, a: Action, w: Id)
    requires SystemOk(s) && w in s.db.allocations && s.db.allocations[w].state == Executing && !LeavesExecuting(a, w)
    ensures w in Step(s, a).db.allocations && Step(s, a).db.allocations[w] == s.db.allocations[w]
  {
    hide SystemOk, Step;
    StepMoves(s, a, w);
  }

  /**
   So an execution whose cancellation was asked for keeps executing: its row stays as it is, not
   cleaned up, in every longer run that neither asks for another outcome nor recovers it.
   */
  lemma {:induction false} CancelledExecutionGoesOn(now: Time, actions: seq<Action>, more: seq<Action>, w: Id)
    requires w in Run(now, actions).db.allocations && Run(now, actions).db.allocations[w].state == Executing
    requires forall k :: 0 <= k < |more| ==> !LeavesExecuting(more[k], w)
    ensures var row := Run(now, actions).db.allocations[w];
            && w in Run(now, actions + more).db.allocations && Run(now, actions + more).db.allocations[w] == row
            && row.cleanup == Required
    decreases |more|
  {
    hide Step, SystemOk, LeavesExecuting;
    if more == [] {
      assert actions + more == actions;
      RunIsOk(now, actions);
      ExecutingIsNotCleaned(Run(now, actions), w);
    } else {
      var init, last := more[..|more| - 1], more[|more| - 1];
      CancelledExecutionGoesOn(now, actions, init, w);
      RunIsOk(now, actions + init);
      StepStaysExecuting(Run(now, actions + init), last, w);
      RunSplits(now, actions + init, last);
      assert (actions + init) + [last] == actions + more;
    }
  }

  lemma ExecutingIsNotCleaned(s: System, w: Id)
    requires SystemOk(s) && w in s.db.allocations && s.db.allocations[w].state == Executing
    ensures s.db.allocations[w].cleanup == Required
  {
    hide LeasesOk, Traced, ImportsOk, CandidatesOk, FailedImports, StatusOk, ImportLogOk, PendingOk;
    assert RowOk(s.db.allocations[w], w in FailedImports(s.db.events));
  }

  /** In a running process each of these requests, when it fits the row, does take it out. */
  lemma AnotherOutcomeEndsIt(s: System, r: AdvanceRequest, stamp: Stamp)
    requires s.status.Up? && FitsRow(s.db, r) && s.db.allocations[r.worktree].state == Executing
    ensures var t := Step(s, DoAdvance(r, stamp));
            t.db.allocations[r.worktree] != s.db.allocations[r.worktree] <==> r.next in {Stopping, TimedOut, Failed}
  {
    ControllerRequestsCommitIff(s.db, r, At(s, stamp));
    hide Record;
  }
}
