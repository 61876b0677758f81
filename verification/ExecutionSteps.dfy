/** Every transaction of the registry keeps the invariant, whatever was captured before it. */
module ExecutionSteps {
  import opened ExecutionTables
  import opened ExecutionTransactions
  import opened ExecutionInvariant
  import opened ExecutionMoves

  /** A row that is not quarantined is not one of a failed import. */
  lemma NotFailed(db: Db, w: Id)
    requires RowsOk(db.allocations, FailedImports(db.events)) && w in db.allocations
               && db.allocations[w].state != Quarantined
    ensures w !in FailedImports(db.events) && RowOk(db.allocations[w], false)
  {
  }

  // reserve ------------------------------------------------------------------------------------

  lemma LeasesNewRow(allocations: map<Id, Allocation>, intents: map<Id, Intent>, leases: map<Id, QuotaLease>,
      failed: set<Id>,
                     w: Id, b: Allocation)
    requires LeaseKeys(allocations, intents, leases) && LeaseRules(allocations, intents, leases, failed)
    requires w !in allocations && b.state == Admitted
    ensures LeaseKeys(allocations[w := b], intents, leases)
    ensures LeaseRules(allocations[w := b], intents, leases, failed)
  {
    hide LeaseRule, Live;
    assert !Live(Admitted) by { LiveIsNotAdmitted(); }
    var rows := allocations[w := b];
    forall v | v in leases ensures LeaseRule(v, leases[v], intents[leases[v].intent], rows[v], v in failed) {
      assert LeaseRule(v, leases[v], intents[leases[v].intent], allocations[v], v in failed);
    }
  }

  lemma LiveIsNotAdmitted()
    ensures !Live(Admitted)
  {
  }

  lemma ReserveKeeps(db: Db, r: ReserveRequest, mode: Mode, authority: nat, w: Id, stamp: Stamp, now: Time)
    requires Inv(db, now) && now <= stamp.at && CommitReserve(db, r, mode, authority, w, stamp).Committed?
    ensures Inv(CommitReserve(db, r, mode, authority, w, stamp).db, stamp.at)
  {
    hide LeaseKeys, LeaseRules, ProjectsIssued, RowsOk, Traced, ImportsOk, CandidatesOk, FailedImports, Record;
    var after := CommitReserve(db, r, mode, authority, w, stamp).db;
    var b := after.allocations[w];
    FailedAfter(db.events, w, b, AllocationRequested, stamp);
    LeasesNewRow(db.allocations, db.intents, db.leases, FailedImports(db.events), w, b);
    NewRowIsOk(db, w, b);
    TracedNew(db.allocations, db.events, w, b, stamp);
    ImportsNewRow(db.allocations, db.imports, db.repositories, w, b);
    ResultAdded(db, after, (OfReserve, r.request), Result(r.digest, KindOnly, w));
    CandidatesMove(db, after, now, stamp.at, w);
  }

  lemma NewRowIsOk(db: Db, w: Id, b: Allocation)
    requires RowsOk(db.allocations, FailedImports(db.events)) && w !in db.allocations && RowOk(b, false)
    ensures RowsOk(db.allocations[w := b], FailedImports(db.events))
  {
    hide RowOk;
  }

  // Moves of one row ------------------------------------------------------------------------------

  /** What a transaction that only moves one row, between live states, does to the tables. */
  predicate LiveMove(db: Db, after: Db, w: Id, name: EventName, stamp: Stamp) {
    && w in db.allocations && w in after.allocations
    && after.allocations == db.allocations[w := after.allocations[w]]
    && after.allocations[w].(state := db.allocations[w].state, cleanup := db.allocations[w].cleanup,
                             revision := db.allocations[w].revision) == db.allocations[w]
    && after.leases == db.leases && after.next == db.next
    && after.events == Record(db.events, w, after.allocations[w], name, stamp)
    && name != ImportQuarantined
    && Live(db.allocations[w].state) && Live(after.allocations[w].state)
    && EdgeOk(db.allocations[w].state, name, after.allocations[w].state)
    && RowOk(after.allocations[w], false)
  }

  lemma LiveMoveKeeps(db: Db, after: Db, w: Id, name: EventName, stamp: Stamp, now: Time)
    requires Inv(db, now) && LiveMove(db, after, w, name, stamp) && after.intents == db.intents
    ensures LeasesOk(after) && RowsOk(after.allocations, FailedImports(after.events))
              && Traced(after.allocations, after.events)
  {
    hide LeaseKeys, LeaseRules, ProjectsIssued, RowsOk, Traced, ImportsOk, CandidatesOk, FailedImports, Record, RowOk,
      EdgeOk;
    var b := after.allocations[w];
    FailedAfter(db.events, w, b, name, stamp);
    LeasesMove(db.allocations, db.intents, db.leases, FailedImports(db.events), w, b);
    LiveIsNotQuarantined(db.allocations[w].state);
    NotFailed(db, w);
    RowsAfter(db.allocations, FailedImports(db.events), w, b);
    TracedAfter(db.allocations, db.events, w, b, name, stamp);
  }

  lemma LiveIsNotQuarantined(s: State)
    requires Live(s)
    ensures s != Quarantined
  {
  }

  // advance ------------------------------------------------------------------------------------------

  /** What the workspace controller asks `advance` for: the edges it gets, and one it does not. */
  predicate ControllerRequest(s: State, t: State) {
    ControllerEdge(s, t) || (s == Executing && t == Cancelled)
  }

  /** The request is one the workspace controller makes of a row in this state. */
  predicate FromController(db: Db, r: AdvanceRequest) {
    r.worktree in db.allocations ==> ControllerRequest(db.allocations[r.worktree].state, r.next)
  }

  lemma CommittedEdge(db: Db, r: AdvanceRequest, stamp: Stamp)
    requires FromController(db, r) && Advance(db, r, stamp).Committed?
    ensures ControllerEdge(db.allocations[r.worktree].state, r.next)
  {
    hide Record;
  }

  lemma AdvanceKeeps(db: Db, r: AdvanceRequest, stamp: Stamp, now: Time)
    requires Inv(db, now) && now <= stamp.at && Advance(db, r, stamp).Committed? && FromController(db, r)
    ensures Inv(Advance(db, r, stamp).db, stamp.at)
  {
    hide LeaseKeys, LeaseRules, ProjectsIssued, RowsOk, Traced, ImportsOk, CandidatesOk, FailedImports, Record;
    var after := Advance(db, r, stamp).db;
    var a, w := db.allocations[r.worktree], r.worktree;
    CommittedEdge(db, r, stamp);
    EdgesAreLive(a, r.next);
    LiveIsNotQuarantined(a.state);
    NotFailed(db, w);
    hide ControllerEdge;
    LiveMoveKeeps(db, after, w, StateAdvanced, stamp, now);
    ImportsMove(db.allocations, db.imports, db.repositories, w, after.allocations[w]);
    ResultAdded(db, after, (OfLifecycle, r.request), Result(r.digest, KindState, w));
    CandidatesMove(db, after, now, stamp.at, w);
  }

  lemma EdgesAreLive(a: Allocation, t: State)
    requires ControllerEdge(a.state, t)
    ensures Live(a.state) && Live(t) && !PastSeal(a.state)
    ensures RowOk(a, false) ==> RowOk(Moved(a, t, a.cleanup), false)
  {
  }

  // preparePhysicalAllocation -----------------------------------------------------------------------

  lemma LeasesGrow(allocations: map<Id, Allocation>, intents: map<Id, Intent>, leases: map<Id, QuotaLease>,
      failed: set<Id>,
                   w: Id, k: Id, i: Intent, q: QuotaLease)
    requires LeaseKeys(allocations, intents, leases) && LeaseRules(allocations, intents, leases, failed)
    requires w in allocations && allocations[w].state == Admitted && w !in leases && k !in intents && w !in failed
    requires i.worktree == w && i.kind == ForAllocation && i.phase == IntentRequested && q.intent == k
               && q.phase == LeaseActive
    ensures LeaseKeys(allocations, intents[k := i], leases[w := q])
    ensures LeaseRules(allocations, intents[k := i], leases[w := q], failed)
  {
    hide LeaseRule, Live;
    var notes, held := intents[k := i], leases[w := q];
    NewLeaseRule(w, q, i, allocations[w]);
    forall v | v in held ensures LeaseRule(v, held[v], notes[held[v].intent], allocations[v], v in failed) {
      if v != w { assert LeaseRule(v, leases[v], intents[leases[v].intent], allocations[v], v in failed); }
    }
  }

  lemma NewLeaseRule(w: Id, q: QuotaLease, i: Intent, a: Allocation)
    requires i.worktree == w && i.kind == ForAllocation && i.phase == IntentRequested && q.phase == LeaseActive
               && a.state == Admitted
    ensures LeaseRule(w, q, i, a, false)
  {
  }

  /** The commit keeps the invariant when the row is still admitted, which the transaction does not test. */
  lemma PrepareKeeps(db: Db, r: PrepareRequest, intent: Id, token: Id, stamp: Stamp, now: Time)
    requires Inv(db, now) && now <= stamp.at && CommitPrepare(db, r, intent, token, stamp).Committed?
    requires r.worktree in db.allocations && db.allocations[r.worktree].state == Admitted
    ensures Inv(CommitPrepare(db, r, intent, token, stamp).db, stamp.at)
  {
    hide LeaseKeys, LeaseRules, ProjectsIssued, RowsOk, Traced, ImportsOk, CandidatesOk, FailedImports, Record;
    var after := CommitPrepare(db, r, intent, token, stamp).db;
    var w, a := r.worktree, db.allocations[r.worktree];
    NotFailed(db, w);
    FailedAfter(db.events, w, a, AllocationIntentRecorded, stamp);
    LeasesGrow(db.allocations, db.intents, db.leases, FailedImports(db.events), w, intent, after.intents[intent],
               after.leases[w]);
    ProjectIssued(db.leases, db.next, w, after.leases[w]);
    TracedAfter(db.allocations, db.events, w, a, AllocationIntentRecorded, stamp);
    assert db.allocations[w := a] == db.allocations;
    ResultAdded(db, after, (OfPrepare, r.request), Result(r.digest, KindOnly, intent));
    CandidatesMove(db, after, now, stamp.at, w);
  }

  // recordPhysicalAllocation and failPhysicalAllocation -----------------------------------------------

  lemma LeaseIs(db: Db, w: Id)
    requires LeasesOk(db) && w in db.leases
    ensures w in db.allocations && db.leases[w].intent in db.intents
    ensures LeaseRule(w, db.leases[w], db.intents[db.leases[w].intent], db.allocations[w],
              w in FailedImports(db.events))
  {
    hide LeaseRule;
  }

  lemma RecordKeeps(db: Db, r: RecordRequest, stamp: Stamp, now: Time)
    requires Inv(db, now) && now <= stamp.at && CommitRecord(db, r, stamp).Committed?
    ensures Inv(CommitRecord(db, r, stamp).db, stamp.at)
  {
    hide LeaseKeys, LeaseRules, ProjectsIssued, RowsOk, Traced, ImportsOk, CandidatesOk, FailedImports, Record;
    var after := CommitRecord(db, r, stamp).db;
    var w, b := r.worktree, after.allocations[r.worktree];
    NotFailed(db, w);
    LeaseIs(db, w);
    FailedAfter(db.events, w, b, AllocationProofRecorded, stamp);
    LeasesChange(db.allocations, db.intents, db.leases, FailedImports(db.events), w, b, after.leases[w], r.intent,
                 after.intents[r.intent]);
    ProjectsKept(db.leases, db.next, w, after.leases[w]);
    RowsAfter(db.allocations, FailedImports(db.events), w, b);
    TracedAfter(db.allocations, db.events, w, b, AllocationProofRecorded, stamp);
    ImportsMove(db.allocations, db.imports, db.repositories, w, b);
    ResultAdded(db, after, (OfRecord, r.request), Result(r.digest, KindOnly, w));
    CandidatesMove(db, after, now, stamp.at, w);
  }

  lemma FailAllocationKeeps(db: Db, r: FailAllocationRequest, stamp: Stamp, now: Time)
    requires Inv(db, now) && now <= stamp.at && FailAllocation(db, r, stamp).Committed?
    ensures Inv(FailAllocation(db, r, stamp).db, stamp.at)
  {
    hide LeaseKeys, LeaseRules, ProjectsIssued, RowsOk, Traced, ImportsOk, CandidatesOk, FailedImports, Record;
    var after := FailAllocation(db, r, stamp).db;
    var w, b := r.worktree, after.allocations[r.worktree];
    NotFailed(db, w);
    LeaseIs(db, w);
    FailedAfter(db.events, w, b, AllocationQuarantined, stamp);
    LeasesChange(db.allocations, db.intents, db.leases, FailedImports(db.events), w, b, after.leases[w], r.intent,
                 after.intents[r.intent]);
    ProjectsKept(db.leases, db.next, w, after.leases[w]);
    RowsAfter(db.allocations, FailedImports(db.events), w, b);
    TracedAfter(db.allocations, db.events, w, b, AllocationQuarantined, stamp);
    ImportsMove(db.allocations, db.imports, db.repositories, w, b);
    ResultAdded(db, after, (OfAllocationFailure, r.request), Result(r.digest, KindOnly, w));
    CandidatesMove(db, after, now, stamp.at, w);
  }
}
