/** Sealing, importing and retaining a candidate keep the invariant. */
module ExecutionCandidateSteps {
  import opened ExecutionTables
  import opened ExecutionTransactions
  import opened ExecutionInvariant
  import opened ExecutionMoves
  import opened ExecutionSteps

  lemma NoCandidateBeforeSeal(db: Db, w: Id, now: Time)
    requires CandidatesOk(db, now) && w in db.allocations && !PastSeal(db.allocations[w].state)
    ensures forall c :: c in db.candidates ==> db.candidates[c].worktree != w
  {
    hide HasRetentionResult;
    forall c | c in db.candidates ensures db.candidates[c].worktree != w {
      assert CandidateRule(db.candidates[c], db.allocations[db.candidates[c].worktree].state, HasRetentionResult(db, c),
                           now);
    }
  }

  lemma SealKeeps(db: Db, r: SealRequest, stamp: Stamp, now: Time)
    requires Inv(db, now) && now <= stamp.at && RecordSeal(db, r, stamp).Committed?
    ensures Inv(RecordSeal(db, r, stamp).db, stamp.at)
  {
    hide LeaseKeys, LeaseRules, ProjectsIssued, RowsOk, Traced, ImportsOk, CandidatesOk, FailedImports, Record,
      HasRetentionResult;
    var after := RecordSeal(db, r, stamp).db;
    var w := r.worktree;
    NotFailed(db, w);
    LiveMoveKeeps(db, after, w, SealCompleted, stamp, now);
    ImportsMove(db.allocations, db.imports, db.repositories, w, after.allocations[w]);
    NoCandidateBeforeSeal(db, w, now);
    ResultAdded(db, after, (OfLifecycle, r.request), Result(r.digest, KindSeal, r.candidate));
    SameResults(db, after);
    CandidateChange(db, after, now, stamp.at, w, r.candidate);
  }

  lemma SameResults(db: Db, after: Db)
    requires forall c :: c in db.candidates && HasRetentionResult(db, c) ==> HasRetentionResult(after, c)
    ensures forall c :: c in db.candidates && HasRetentionResult(db, c) ==>
              HasRetentionResult(after.(candidates := db.candidates), c)
  {
    forall c | c in db.candidates && HasRetentionResult(db, c)
      ensures HasRetentionResult(after.(candidates := db.candidates), c)
    {
      ResultsIgnoreCandidates(after, db.candidates, c);
    }
  }

  // Imports ---------------------------------------------------------------------------------------

  lemma ImportsGrow(allocations: map<Id, Allocation>, imports: map<Id, ImportIntent>,
      repositories: map<Id, RepositoryLease>,
                    k: Id, i: ImportIntent, l: RepositoryLease)
    requires ImportsOk(allocations, imports, repositories) && k !in imports && i.worktree in allocations
    requires allocations[i.worktree].state == Sealed
    requires l.worktree == i.worktree && l.repository == allocations[i.worktree].repository
               && l.phase == RepositoryActive
    requires forall j :: j in repositories && repositories[j].repository == l.repository ==> !Holds(repositories[j])
    ensures ImportsOk(allocations, imports[k := i], repositories[k := l])
  {
    forall j | j in imports ensures imports[j].worktree != i.worktree {
      if imports[j].worktree == i.worktree { assert Holds(repositories[j]); }
    }
  }

  lemma PrepareImportKeeps(db: Db, r: ImportRequest, intent: Id, token: Id, stamp: Stamp, now: Time)
    requires Inv(db, now) && now <= stamp.at && PrepareImport(db, r, intent, token, stamp).Committed?
    ensures Inv(PrepareImport(db, r, intent, token, stamp).db, stamp.at)
  {
    hide LeaseKeys, LeaseRules, ProjectsIssued, RowsOk, Traced, ImportsOk, CandidatesOk, FailedImports, Record;
    var after := PrepareImport(db, r, intent, token, stamp).db;
    var w, a := r.worktree, db.allocations[r.worktree];
    FailedAfter(db.events, w, a, ImportRequested, stamp);
    TracedAfter(db.allocations, db.events, w, a, ImportRequested, stamp);
    assert db.allocations[w := a] == db.allocations;
    ImportsGrow(db.allocations, db.imports, db.repositories, intent, after.imports[intent], after.repositories[intent]);
    ResultAdded(db, after, (OfLifecycle, r.request), Result(r.digest, KindImportIntent, intent));
    CandidatesMove(db, after, now, stamp.at, w);
  }

  /** The end of an import moves its row away from sealed as it lets go of its lease or fences it. */
  lemma ImportEnds(allocations: map<Id, Allocation>, imports: map<Id, ImportIntent>,
      repositories: map<Id, RepositoryLease>,
                   k: Id, phase: IntentPhase, held: RepositoryPhase, w: Id, b: Allocation)
    requires ImportsOk(allocations, imports, repositories) && k in imports && imports[k].worktree == w
               && w in allocations
    requires PastSeal(b.state) && b.state != Sealed && b.repository == allocations[w].repository
    requires repositories[k].phase == RepositoryActive
    ensures ImportsOk(allocations[w := b], imports[k := imports[k].(phase := phase)],
                      repositories[k := repositories[k].(phase := held)])
  {
    hide ImportsOk;
    ImportsMove(allocations, imports, repositories, w, b);
    KeysOfImports(allocations, imports, repositories);
    ImportsRelease(allocations[w := b], imports, imports[k := imports[k].(phase := phase)],
                   repositories, repositories[k := repositories[k].(phase := held)]);
  }

  lemma KeysOfImports(allocations: map<Id, Allocation>, imports: map<Id, ImportIntent>,
      repositories: map<Id, RepositoryLease>)
    requires ImportsOk(allocations, imports, repositories)
    ensures imports.Keys == repositories.Keys && forall i :: i in imports ==> imports[i].worktree in allocations
  {
  }

  lemma CompleteImportKeeps(db: Db, r: ImportEndRequest, stamp: Stamp, now: Time)
    requires Inv(db, now) && now <= stamp.at && CompleteImport(db, r, stamp).Committed?
    ensures Inv(CompleteImport(db, r, stamp).db, stamp.at)
  {
    hide LeaseKeys, LeaseRules, ProjectsIssued, RowsOk, Traced, ImportsOk, CandidatesOk, FailedImports, Record,
      HasRetentionResult,
         CandidateRule;
    var after := CompleteImport(db, r, stamp).db;
    var w := r.worktree;
    NotFailed(db, w);
    LiveMoveKeeps(db, after, w, ImportCompleted, stamp, now);
    ImportEnds(db.allocations, db.imports, db.repositories, r.intent, IntentCompleted, RepositoryReleased, w,
               after.allocations[w]);
    ResultAdded(db, after, (OfLifecycle, r.request), Result(r.digest, KindImportComplete, r.candidate));
    SameResults(db, after);
    SealedCandidateImported(db, after, now, stamp.at, w, r.candidate);
    CandidateChange(db, after, now, stamp.at, w, r.candidate);
  }

  /** The reference recorded with the import is not part of the candidate's rule. */
  lemma SealedCandidateImported(db: Db, after: Db, now: Time, later: Time, w: Id, c: Id)
    requires CandidatesOk(db, now) && now <= later && c in db.candidates && db.candidates[c].worktree == w
               && w in db.allocations
    requires db.allocations[w].state == Sealed && c in after.candidates
    requires after.candidates[c] == db.candidates[c].(quarantineRef := after.candidates[c].quarantineRef)
    requires HasRetentionResult(db, c) ==> HasRetentionResult(after, c)
    ensures CandidateRule(after.candidates[c], CandidateImported, HasRetentionResult(after, c), later)
  {
    hide HasRetentionResult;
    assert CandidateRule(db.candidates[c], Sealed, HasRetentionResult(db, c), now);
  }

  // A failed import -----------------------------------------------------------------------------

  /** The row of a failed import joins the exceptions: quarantined, its lease still allocated. */
  lemma LeasesFail(allocations: map<Id, Allocation>, intents: map<Id, Intent>, leases: map<Id, QuotaLease>,
      failed: set<Id>,
                   w: Id, b: Allocation)
    requires LeaseKeys(allocations, intents, leases) && LeaseRules(allocations, intents, leases, failed)
    requires w in allocations && allocations[w].state == Sealed && w !in failed
    requires b.state == Quarantined && b.project == allocations[w].project
    ensures LeaseKeys(allocations[w := b], intents, leases)
    ensures LeaseRules(allocations[w := b], intents, leases, failed + {w})
  {
    hide LeaseRule, Live;
    SealedIsLive();
    var rows := allocations[w := b];
    forall v | v in leases ensures LeaseRule(v, leases[v], intents[leases[v].intent], rows[v], v in failed + {w}) {
      assert LeaseRule(v, leases[v], intents[leases[v].intent], allocations[v], v in failed);
      if v == w { FailedLeaseRule(w, leases[w], intents[leases[w].intent], allocations[w], b); }
    }
  }

  lemma SealedIsLive()
    ensures Live(Sealed) && !Live(Quarantined)
  {
  }

  lemma FailedLeaseRule(w: Id, q: QuotaLease, i: Intent, a: Allocation, b: Allocation)
    requires LeaseRule(w, q, i, a, false) && a.state == Sealed && b.state == Quarantined && b.project == a.project
    ensures LeaseRule(w, q, i, b, true)
  {
  }

  lemma RowsFail(allocations: map<Id, Allocation>, failed: set<Id>, w: Id, b: Allocation)
    requires RowsOk(allocations, failed) && w !in failed && b.state == Quarantined && RowOk(b, true)
    ensures RowsOk(allocations[w := b], failed + {w})
  {
    hide RowOk;
  }

  lemma FailImportKeeps(db: Db, r: ImportEndRequest, stamp: Stamp, now: Time)
    requires Inv(db, now) && now <= stamp.at && FailImport(db, r, stamp).Committed?
    ensures Inv(FailImport(db, r, stamp).db, stamp.at)
  {
    hide LeaseKeys, LeaseRules, ProjectsIssued, RowsOk, Traced, ImportsOk, CandidatesOk, FailedImports, Record;
    var after := FailImport(db, r, stamp).db;
    var w, b := r.worktree, after.allocations[r.worktree];
    NotFailed(db, w);
    FailedAfter(db.events, w, b, ImportQuarantined, stamp);
    LeasesFail(db.allocations, db.intents, db.leases, FailedImports(db.events), w, b);
    RowsFail(db.allocations, FailedImports(db.events), w, b);
    TracedAfter(db.allocations, db.events, w, b, ImportQuarantined, stamp);
    ImportEnds(db.allocations, db.imports, db.repositories, r.intent, IntentQuarantined, RepositoryQuarantined, w, b);
    ResultAdded(db, after, (OfLifecycle, r.request), Result(r.digest, KindState, w));
    CandidatesMove(db, after, now, stamp.at, w);
  }

  // recordRetention -----------------------------------------------------------------------------

  lemma RetentionKeeps(db: Db, r: RetentionRequest, stamp: Stamp, now: Time)
    requires Inv(db, now) && now <= stamp.at && RecordRetention(db, r, stamp).Committed?
    ensures Inv(RecordRetention(db, r, stamp).db, stamp.at)
  {
    hide LeaseKeys, LeaseRules, ProjectsIssued, RowsOk, Traced, ImportsOk, CandidatesOk, FailedImports, Record,
      HasRetentionResult;
    var after := RecordRetention(db, r, stamp).db;
    var w := r.worktree;
    NotFailed(db, w);
    LiveMoveKeeps(db, after, w, RetentionCommitted, stamp, now);
    ImportsMove(db.allocations, db.imports, db.repositories, w, after.allocations[w]);
    ResultAdded(db, after, (OfRetention, r.request), Result(r.digest, KindOnly, r.candidate));
    SameResults(db, after);
    ResultsKept(db, after, (OfRetention, r.request), Result(r.digest, KindOnly, r.candidate), r.candidate);
    CandidateChange(db, after, now, stamp.at, w, r.candidate);
  }
}
