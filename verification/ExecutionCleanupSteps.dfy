/** Cleanup and recovery keep the invariant. */
module ExecutionCleanupSteps {
  import opened Wrappers
  import opened ExecutionTables
  import opened ExecutionTransactions
  import opened ExecutionInvariant
  import opened ExecutionMoves
  import opened ExecutionSteps

  // preparePhysicalCleanup -------------------------------------------------------------------------

  /** The states the controller path cleans up from, and the one a failed cleanup left. */
  lemma CleanableIsLive(s: State)
    requires Cleaning in Legal(s) && s != Reconciling
    ensures Live(s)
    ensures s == Retained || s == CleanupFailed || !PastSeal(s)
  {
  }

  /** A retained candidate whose time is over may be cleaned. */
  lemma CandidatesExpire(db: Db, after: Db, now: Time, later: Time, w: Id)
    requires CandidatesOk(db, now) && now <= later && SameCandidates(db, after, w) && w in db.allocations
    requires db.allocations[w].state == Retained && after.allocations[w].state == Cleaning
    requires !StillKept(db, w, later)
    ensures CandidatesOk(after, later)
  {
    hide HasRetentionResult;
    forall c | c in after.candidates
      ensures CandidateRule(after.candidates[c], after.allocations[after.candidates[c].worktree].state,
                HasRetentionResult(after, c), later)
    {
      var x, kept := db.candidates[c], HasRetentionResult(db, c);
      assert CandidateRule(x, db.allocations[x.worktree].state, kept, now);
      RuleOutlastsTime(x, db.allocations[x.worktree].state, kept, now, later);
      RuleIsMonotone(x, after.allocations[x.worktree].state, kept, HasRetentionResult(after, c), later);
    }
  }

  lemma CleanupCandidates(db: Db, after: Db, now: Time, later: Time, w: Id, state: State)
    requires CandidatesOk(db, now) && now <= later && SameCandidates(db, after, w) && w in db.allocations
    requires db.allocations[w].state == state && after.allocations[w].state == Cleaning
    requires Cleaning in Legal(state) && state != CleanupFailed && state != Reconciling
    requires state == Retained ==> !StillKept(db, w, later)
    ensures CandidatesOk(after, later)
  {
    hide CandidatesOk, SameCandidates, StillKept;
    CleanableIsLive(state);
    if state == Retained {
      CandidatesExpire(db, after, now, later, w);
    } else {
      CandidatesMove(db, after, now, later, w);
    }
  }

  lemma CleanupKeeps(db: Db, r: CleanupRequest, state: State, identity: Option<Id>, intent: Id, token: Id, stamp: Stamp,
      now: Time)
    requires Inv(db, now) && now <= stamp.at && CommitCleanup(db, r, state, identity, intent, token, stamp).Committed?
    requires Cleaning in Legal(state) && state != CleanupFailed
    ensures Inv(CommitCleanup(db, r, state, identity, intent, token, stamp).db, stamp.at)
  {
    hide LeaseKeys, LeaseRules, ProjectsIssued, RowsOk, Traced, ImportsOk, CandidatesOk, FailedImports, Record,
      StillKept, Legal;
    var after := CommitCleanup(db, r, state, identity, intent, token, stamp).db;
    var w := r.worktree;
    RowIsKnown(db, w);
    CleanableIsLive(state);
    LiveIsNotQuarantined(state);
    NotFailed(db, w);
    CleaningEdge(db.allocations[w], state);
    LiveMoveKeeps(db, after.(intents := db.intents), w, CleanupRequested, stamp, now);
    LeasesIgnoreCleanup(after.allocations, db.intents, db.leases, FailedImports(after.events), intent,
                        after.intents[intent]);
    ImportsMove(db.allocations, db.imports, db.repositories, w, after.allocations[w]);
    ResultAdded(db, after, (OfCleanup, r.request), Result(r.digest, KindPrepare, intent));
    CleanupCandidates(db, after, now, stamp.at, w, state);
  }

  lemma RowIsKnown(db: Db, w: Id)
    requires RowsOk(db.allocations, FailedImports(db.events)) && w in db.allocations
    ensures db.allocations[w].state !in {Requested, Refused, RecoveryRequired, Reconciling}
  {
    assert RowOk(db.allocations[w], w in FailedImports(db.events));
  }

  lemma CleaningEdge(a: Allocation, s: State)
    requires a.state == s && Cleaning in Legal(s) && RowOk(a, false)
    ensures EdgeOk(s, CleanupRequested, Cleaning) && RowOk(Moved(a, Cleaning, InCleanup), false)
  {
  }

  // completePhysicalCleanup and failPhysicalCleanup -------------------------------------------------

  lemma CompleteKeeps(db: Db, r: CleanupEndRequest, project: nat, stamp: Stamp, now: Time)
    requires Inv(db, now) && now <= stamp.at && CommitComplete(db, r, project, stamp).Committed?
    ensures Inv(CommitComplete(db, r, project, stamp).db, stamp.at)
  {
    hide LeaseKeys, LeaseRules, ProjectsIssued, RowsOk, Traced, ImportsOk, CandidatesOk, FailedImports, Record;
    var after := CommitComplete(db, r, project, stamp).db;
    var w, b := r.worktree, after.allocations[r.worktree];
    NotFailed(db, w);
    LeaseIs(db, w);
    FailedAfter(db.events, w, b, CleanupCompleted, stamp);
    LeasesChange(db.allocations, db.intents, db.leases, FailedImports(db.events), w, b, after.leases[w], r.intent,
                 after.intents[r.intent]);
    ProjectsKept(db.leases, db.next, w, after.leases[w]);
    RowsAfter(db.allocations, FailedImports(db.events), w, b);
    TracedAfter(db.allocations, db.events, w, b, CleanupCompleted, stamp);
    ImportsMove(db.allocations, db.imports, db.repositories, w, b);
    ResultAdded(db, after, (OfCleanup, r.request), Result(r.digest, KindComplete, w));
    CandidatesMove(db, after, now, stamp.at, w);
  }

  lemma FailCleanupKeeps(db: Db, r: CleanupEndRequest, stamp: Stamp, now: Time)
    requires Inv(db, now) && now <= stamp.at && FailCleanup(db, r, stamp).Committed?
    ensures Inv(FailCleanup(db, r, stamp).db, stamp.at)
  {
    if r.mismatch || r.observed != r.expected { CleanupQuarantineKeeps(db, r, stamp, now); }
      else { CleanupFailureKeeps(db, r, stamp, now); }
  }

  lemma CleanupQuarantineKeeps(db: Db, r: CleanupEndRequest, stamp: Stamp, now: Time)
    requires Inv(db, now) && now <= stamp.at && FailCleanup(db, r, stamp).Committed?
               && (r.mismatch || r.observed != r.expected)
    ensures Inv(FailCleanup(db, r, stamp).db, stamp.at)
  {
    hide LeaseKeys, LeaseRules, ProjectsIssued, RowsOk, Traced, ImportsOk, CandidatesOk, FailedImports, Record;
    var after := FailCleanup(db, r, stamp).db;
    var w, b := r.worktree, after.allocations[r.worktree];
    NotFailed(db, w);
    LeaseIs(db, w);
    FailedAfter(db.events, w, b, CleanupQuarantined, stamp);
    LeasesChange(db.allocations, db.intents, db.leases, FailedImports(db.events), w, b, after.leases[w], r.intent,
                 after.intents[r.intent]);
    ProjectsKept(db.leases, db.next, w, after.leases[w]);
    RowsAfter(db.allocations, FailedImports(db.events), w, b);
    TracedAfter(db.allocations, db.events, w, b, CleanupQuarantined, stamp);
    ImportsMove(db.allocations, db.imports, db.repositories, w, b);
    ResultAdded(db, after, (OfCleanup, r.request), Result(r.digest, KindFailure, w));
    CandidatesMove(db, after, now, stamp.at, w);
  }

  lemma CleanupFailureKeeps(db: Db, r: CleanupEndRequest, stamp: Stamp, now: Time)
    requires Inv(db, now) && now <= stamp.at && FailCleanup(db, r, stamp).Committed?
               && !(r.mismatch || r.observed != r.expected)
    ensures Inv(FailCleanup(db, r, stamp).db, stamp.at)
  {
    hide LeaseKeys, LeaseRules, ProjectsIssued, RowsOk, Traced, ImportsOk, CandidatesOk, FailedImports, Record;
    var after := FailCleanup(db, r, stamp).db;
    var w := r.worktree;
    NotFailed(db, w);
    LiveMoveKeeps(db, after.(intents := db.intents), w, CleanupFailedEvent, stamp, now);
    LeasesIgnoreCleanup(after.allocations, db.intents, db.leases, FailedImports(after.events), r.intent,
                        after.intents[r.intent]);
    IntentHasRow(db, r.intent);
    ImportsMove(db.allocations, db.imports, db.repositories, w, after.allocations[w]);
    ResultAdded(db, after, (OfCleanup, r.request), Result(r.digest, KindFailure, w));
    CandidatesMove(db, after, now, stamp.at, w);
  }

  lemma IntentHasRow(db: Db, i: Id)
    requires LeasesOk(db) && i in db.intents
    ensures db.intents[i].worktree in db.allocations
  {
  }

  // Recovery ------------------------------------------------------------------------------------------

  lemma LeasesRecover(allocations: map<Id, Allocation>, intents: map<Id, Intent>, leases: map<Id, QuotaLease>,
      failed: set<Id>,
                      w: Id, b: Allocation, held: map<Id, QuotaLease>)
    requires LeaseKeys(allocations, intents, leases) && LeaseRules(allocations, intents, leases, failed)
    requires w in allocations && w !in failed && b.state == Quarantined && allocations[w].state != Cleaned
    requires held == if w in leases && leases[w].phase in {LeaseActive, LeaseAllocated}
                     then leases[w := leases[w].(phase := LeaseQuarantined)] else leases
    ensures LeaseKeys(allocations[w := b], intents, held)
    ensures LeaseRules(allocations[w := b], intents, held, failed)
  {
    hide LeaseRule, Live;
    if w in leases { assert LeaseRule(w, leases[w], intents[leases[w].intent], allocations[w], false); }
    if w in leases && leases[w].phase in {LeaseActive, LeaseAllocated} {
      var k := leases[w].intent;
      LeaseRuleRecovers(w, leases[w], held[w], intents[k], allocations[w], b);
      assert intents[k := intents[k]] == intents;
      LeasesChange(allocations, intents, leases, failed, w, b, held[w], k, intents[k]);
    } else {
      if w in leases { LeaseRuleRecovers(w, leases[w], leases[w], intents[leases[w].intent], allocations[w], b); }
      LeasesRow(allocations, intents, leases, failed, w, b);
    }
  }

  /** Only the row changes, and its lease already agrees with it. */
  lemma LeasesRow(allocations: map<Id, Allocation>, intents: map<Id, Intent>, leases: map<Id, QuotaLease>,
      failed: set<Id>,
                  w: Id, b: Allocation)
    requires LeaseKeys(allocations, intents, leases) && LeaseRules(allocations, intents, leases, failed)
    requires w in allocations && w !in failed && b.state == Quarantined
    requires w in leases ==> LeaseRule(w, leases[w], intents[leases[w].intent], b, false)
    ensures LeaseKeys(allocations[w := b], intents, leases)
    ensures LeaseRules(allocations[w := b], intents, leases, failed)
  {
    hide LeaseRule, Live;
    QuarantinedIsNotLive();
    var rows := allocations[w := b];
    forall v | v in leases ensures LeaseRule(v, leases[v], intents[leases[v].intent], rows[v], v in failed) {
      assert LeaseRule(v, leases[v], intents[leases[v].intent], allocations[v], v in failed);
    }
  }

  lemma QuarantinedIsNotLive()
    ensures !Live(Quarantined)
  {
  }

  lemma LeaseRuleRecovers(w: Id, q: QuotaLease, p: QuotaLease, i: Intent, a: Allocation, b: Allocation)
    requires LeaseRule(w, q, i, a, false) && a.state != Cleaned && b.state == Quarantined
    requires p == if q.phase in {LeaseActive, LeaseAllocated} then q.(phase := LeaseQuarantined) else q
    ensures LeaseRule(w, p, i, b, false)
  {
  }

  lemma ProjectsRecover(leases: map<Id, QuotaLease>, next: nat, w: Id, held: map<Id, QuotaLease>)
    requires ProjectsIssued(leases, next)
    requires held == if w in leases && leases[w].phase in {LeaseActive, LeaseAllocated}
                     then leases[w := leases[w].(phase := LeaseQuarantined)] else leases
    ensures ProjectsIssued(held, next)
  {
    hide ProjectsIssued;
    if w in leases && leases[w].phase in {LeaseActive, LeaseAllocated} { ProjectsKept(leases, next, w, held[w]); }
  }

  /** Quarantining the active leases of one worktree keeps the repositories' holders apart. */
  lemma ImportsRecover(allocations: map<Id, Allocation>, imports: map<Id, ImportIntent>,
      repositories: map<Id, RepositoryLease>,
                       w: Id, b: Allocation)
    requires ImportsOk(allocations, imports, repositories) && w in allocations
    requires b.state == Quarantined && b.repository == allocations[w].repository
    ensures ImportsOk(allocations[w := b], imports, map i | i in repositories :: RecoveredLease(repositories[i], w))
  {
    hide ImportsOk;
    var held := map i | i in repositories :: RecoveredLease(repositories[i], w);
    assert held.Keys == repositories.Keys;
    LeasesHaveRows(allocations, imports, repositories);
    ImportsMove(allocations, imports, repositories, w, b);
    ImportsRelease(allocations[w := b], imports, imports, repositories, held);
  }

  lemma LeasesHaveRows(allocations: map<Id, Allocation>, imports: map<Id, ImportIntent>,
      repositories: map<Id, RepositoryLease>)
    requires ImportsOk(allocations, imports, repositories)
    ensures imports.Keys == repositories.Keys
    ensures forall i :: i in imports ==>
              imports[i].worktree in allocations && repositories[i].worktree == imports[i].worktree
  {
  }

  /** The three events of a recovery. */
  lemma TracedRecovery(db: Db, w: Id, first: Stamp, second: Stamp, third: Stamp)
    requires Traced(db.allocations, db.events) && w in db.allocations
    ensures var after := RecoverRow(db, w, first, second, third);
            && Traced(after.allocations, after.events)
            && FailedImports(after.events) == FailedImports(db.events)
  {
    hide Traced, FailedImports, Record;
    var a := Moved(db.allocations[w], RecoveryRequired, db.allocations[w].cleanup);
    var b := Moved(a, Reconciling, a.cleanup);
    var c := Moved(b, Quarantined, CleanupFault);
    var one := Record(db.events, w, a, RecoveryStarted, first);
    var two := Record(one, w, b, RecoveryClassified, second);
    TracedAfter(db.allocations, db.events, w, a, RecoveryStarted, first);
    TracedAfter(db.allocations[w := a], one, w, b, RecoveryClassified, second);
    TracedAfter(db.allocations[w := a][w := b], two, w, c, ResourceQuarantined, third);
    assert db.allocations[w := a][w := b][w := c] == db.allocations[w := c];
    FailedAfter(db.events, w, a, RecoveryStarted, first);
    FailedAfter(one, w, b, RecoveryClassified, second);
    FailedAfter(two, w, c, ResourceQuarantined, third);
  }

  /** One row's recovery transaction, on a database that passed the integrity check. */
  lemma RecoverKeeps(db: Db, w: Id, first: Stamp, second: Stamp, third: Stamp, now: Time)
    requires Inv(db, now) && w in db.allocations && NeedsRecovery(db.allocations[w]) && w !in FailedImports(db.events)
    ensures Inv(RecoverRow(db, w, first, second, third), now)
  {
    hide LeaseKeys, LeaseRules, ProjectsIssued, RowsOk, Traced, ImportsOk, CandidatesOk, FailedImports, Record;
    var after := RecoverRow(db, w, first, second, third);
    var a, b := db.allocations[w], after.allocations[w];
    TracedRecovery(db, w, first, second, third);
    RowOf(db, w);
    LeasesRecover(db.allocations, db.intents, db.leases, FailedImports(db.events), w, b, after.leases);
    ProjectsRecover(db.leases, db.next, w, after.leases);
    RowsAfter(db.allocations, FailedImports(db.events), w, b);
    ImportsRecover(db.allocations, db.imports, db.repositories, w, b);
    SameRetentionResults(db, after);
    CandidatesMove(db, after, now, now, w);
  }

  lemma RowOf(db: Db, w: Id)
    requires RowsOk(db.allocations, FailedImports(db.events)) && w in db.allocations && w !in FailedImports(db.events)
    ensures RowOk(db.allocations[w], false)
  {
  }

  lemma SameRetentionResults(db: Db, after: Db)
    requires after.results == db.results
    ensures forall c :: c in db.candidates && HasRetentionResult(db, c) ==> HasRetentionResult(after, c)
  {
  }
}
