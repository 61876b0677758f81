/**
 The registry as it runs: the tables are fields, a transaction updates them row by row after its
 guards, and a start walks the log and then the rows it has to recover.
 */
module ExecutionRegistry {
  import opened Wrappers
  import opened ExecutionTables
  import opened ExecutionTransactions
  import opened ExecutionInvariant
  import opened ExecutionSteps
  import opened ExecutionCleanupSteps
  import opened ExecutionProgress
  import opened ExecutionPromises
  import opened ExecutionSystem
  import opened ExecutionTheorems

  datatype Reply = Denied(code: Code) | Again(resource: Id) | Ok

  function ReplyOf(o: Outcome): Reply {
    match o
    case Refuse(code) => Denied(code)
    case Replayed(resource) => Again(resource)
    case Committed(_) => Ok
  }

  /** The database an operation leaves behind. */
  function After(db: Db, o: Outcome): Db {
    if o.Committed? then o.db else db
  }

  /** The stamps the recovery of one row draws. */
  datatype Stamps = Stamps(first: Stamp, second: Stamp, third: Stamp)

  function RecoverAll(db: Db, rows: seq<Id>, draw: Id -> Stamps): (after: Db)
    requires forall w :: w in rows ==> w in db.allocations
    ensures after.allocations.Keys == db.allocations.Keys
  {
    if rows == [] then db
    else
      var last := rows[|rows| - 1];
      var before := RecoverAll(db, rows[..|rows| - 1], draw);
      RecoverRow(before, last, draw(last).first, draw(last).second, draw(last).third)
  }

  /** The tables `completePhysicalCleanup` writes. */
  lemma CompletedCleanupIs(db: Db, r: CleanupEndRequest, project: nat, stamp: Stamp)
    requires CommitComplete(db, r, project, stamp).Committed?
    ensures r.intent in db.intents && r.worktree in db.allocations && r.worktree in db.leases
    ensures var b := Moved(db.allocations[r.worktree], Cleaned, CleanedUp);
            CommitComplete(db, r, project, stamp).db
            == db.(allocations := db.allocations[r.worktree := b],
                   intents := db.intents[r.intent := db.intents[r.intent].(phase := IntentCompleted)],
                   leases := db.leases[r.worktree := db.leases[r.worktree].(phase := LeaseReleased)],
                   results := db.results[(OfCleanup, r.request) := Result(r.digest, KindComplete, r.worktree)],
                   events := Record(db.events, r.worktree, b, CleanupCompleted, stamp))
  {
    hide EventFor;
  }

  /** The tables `completeCandidateImport` writes. */
  lemma CompletedImportIs(db: Db, r: ImportEndRequest, stamp: Stamp)
    requires CompleteImport(db, r, stamp).Committed?
    ensures r.intent in db.imports && r.intent in db.repositories && r.worktree in db.allocations
              && r.candidate in db.candidates
    ensures var b := Moved(db.allocations[r.worktree], CandidateImported, db.allocations[r.worktree].cleanup);
            var c := db.candidates[r.candidate];
            CompleteImport(db, r, stamp).db
            == db.(allocations := db.allocations[r.worktree := b],
                   candidates := db.candidates[r.candidate := if c.quarantineRef.None?
                     then c.(quarantineRef := Some(r.ref)) else c],
                   imports := db.imports[r.intent := db.imports[r.intent].(phase := IntentCompleted)],
                   repositories := db.repositories[r.intent := db.repositories[r.intent].(phase := RepositoryReleased)],
                   results := db.results[(OfLifecycle, r.request) := Result(r.digest, KindImportComplete, r.candidate)],
                   events := Record(db.events, r.worktree, b, ImportCompleted, stamp))
  {
    hide EventFor, Prior;
  }

  /** The tables `prepareCandidateImport` writes. */
  lemma PreparedImportIs(db: Db, r: ImportRequest, intent: Id, token: Id, stamp: Stamp)
    requires PrepareImport(db, r, intent, token, stamp).Committed?
    ensures r.worktree in db.allocations
    ensures var a := db.allocations[r.worktree];
            PrepareImport(db, r, intent, token, stamp).db
            == db.(imports := db.imports[intent := ImportIntent(r.worktree, r.candidate, token, IntentRequested)],
                   repositories := db.repositories[intent := RepositoryLease(a.repository, r.worktree, token,
                                                                             RepositoryActive)],
                   results := db.results[(OfLifecycle, r.request) := Result(r.digest, KindImportIntent, intent)],
                   events := Record(db.events, r.worktree, a, ImportRequested, stamp))
  {
    hide EventFor, Prior;
  }

  /** The tables `failCandidateImport` writes. */
  lemma FailedImportIs(db: Db, r: ImportEndRequest, stamp: Stamp)
    requires FailImport(db, r, stamp).Committed?
    ensures r.intent in db.imports && r.intent in db.repositories && r.worktree in db.allocations
    ensures var b := Moved(db.allocations[r.worktree], Quarantined, db.allocations[r.worktree].cleanup);
            FailImport(db, r, stamp).db
            == db.(allocations := db.allocations[r.worktree := b],
                   imports := db.imports[r.intent := db.imports[r.intent].(phase := IntentQuarantined)],
                   repositories := db.repositories[r.intent := db.repositories[r.intent].(phase :=
                     RepositoryQuarantined)],
                   results := db.results[(OfLifecycle, r.request) := Result(r.digest, KindState, r.worktree)],
                   events := Record(db.events, r.worktree, b, ImportQuarantined, stamp), admission := Blocked)
  {
    hide EventFor, Prior;
  }

  /** The tables `recordSeal` writes. */
  lemma SealedIs(db: Db, r: SealRequest, stamp: Stamp)
    requires RecordSeal(db, r, stamp).Committed?
    ensures r.worktree in db.allocations
    ensures var b := Moved(db.allocations[r.worktree], Sealed, db.allocations[r.worktree].cleanup);
            RecordSeal(db, r, stamp).db
            == db.(allocations := db.allocations[r.worktree := b],
                   candidates := db.candidates[r.candidate := Candidate(r.worktree, r.commit, PendingEvidence, r.until,
                                                                        None)],
                   results := db.results[(OfLifecycle, r.request) := Result(r.digest, KindSeal, r.candidate)],
                   events := Record(db.events, r.worktree, b, SealCompleted, stamp))
  {
    hide EventFor, Prior;
  }

  /** The tables a cleanup that met the wrong directory writes. */
  lemma QuarantinedCleanupIs(db: Db, r: CleanupEndRequest, stamp: Stamp)
    requires FailCleanup(db, r, stamp).Committed? && (r.mismatch || r.observed != r.expected)
    ensures r.intent in db.intents && r.worktree in db.allocations && r.worktree in db.leases
    ensures var b := Moved(db.allocations[r.worktree], Quarantined, CleanupFault);
            FailCleanup(db, r, stamp).db
            == db.(allocations := db.allocations[r.worktree := b],
                   intents := db.intents[r.intent := db.intents[r.intent].(phase := IntentQuarantined)],
                   leases := db.leases[r.worktree := db.leases[r.worktree].(phase := LeaseQuarantined)],
                   results := db.results[(OfCleanup, r.request) := Result(r.digest, KindFailure, r.worktree)],
                   events := Record(db.events, r.worktree, b, CleanupQuarantined, stamp), admission := Blocked)
  {
    hide EventFor, Prior;
  }

  /** The tables `preparePhysicalCleanup` writes. */
  lemma PreparedCleanupIs(db: Db, r: CleanupRequest, state: State, identity: Option<Id>, intent: Id, token: Id,
      stamp: Stamp)
    requires CommitCleanup(db, r, state, identity, intent, token, stamp).Committed?
    ensures r.worktree in db.allocations
    ensures var b := Moved(db.allocations[r.worktree], Cleaning, InCleanup);
            CommitCleanup(db, r, state, identity, intent, token, stamp).db
            == db.(allocations := db.allocations[r.worktree := b],
                   intents := db.intents[intent := Intent(r.worktree, ForCleanup, IntentRequested, token, identity,
                                                          None)],
                   results := db.results[(OfCleanup, r.request) := Result(r.digest, KindPrepare, intent)],
                   events := Record(db.events, r.worktree, b, CleanupRequested, stamp))
  {
    hide EventFor, RetentionDecided, StillKept;
  }

  lemma RecoverAllNext(db: Db, rows: seq<Id>, w: Id, draw: Id -> Stamps)
    requires (forall v :: v in rows ==> v in db.allocations) && w in db.allocations
    ensures RecoverAll(db, rows + [w], draw)
            == RecoverRow(RecoverAll(db, rows, draw), w, draw(w).first, draw(w).second, draw(w).third)
  {
    hide RecoverRow;
    assert (rows + [w])[..|rows|] == rows;
  }

  predicate NoneTwice(rows: seq<Id>) {
    forall j, k :: 0 <= j < k < |rows| ==> rows[j] != rows[k]
  }

  /** What one recovery does: a quarantined row, a closed quota lease, and every held repository still held. */
  predicate Recovered(db: Db, after: Db, w: Id) {
    && OneRow(db, after, w) && after.allocations[w].state == Quarantined && Onward(db, after)
    && (w in after.leases ==> after.leases[w].phase !in {LeaseActive, LeaseAllocated})
    && (forall v :: v in db.leases && v != w ==> v in after.leases && after.leases[v] == db.leases[v])
    && after.repositories.Keys == db.repositories.Keys
    && (forall i :: i in db.repositories ==> (Holds(after.repositories[i]) <==> Holds(db.repositories[i])))
  }

  lemma RowRecovered(db: Db, w: Id, stamps: Stamps)
    requires w in db.allocations
    ensures Recovered(db, RecoverRow(db, w, stamps.first, stamps.second, stamps.third), w)
    ensures FailedImports(RecoverRow(db, w, stamps.first, stamps.second, stamps.third).events)
            == FailedImports(db.events)
  {
    hide Onward, FailedImports, RecoverRow, Holds;
    RecoverOnward(db, w, stamps.first, stamps.second, stamps.third);
    RecoverOthers(db, w, stamps.first, stamps.second, stamps.third);
    LeasesRecovered(db, w, stamps);
  }

  lemma LeasesRecovered(db: Db, w: Id, stamps: Stamps)
    requires w in db.allocations
    ensures var after := RecoverRow(db, w, stamps.first, stamps.second, stamps.third);
            && w in after.allocations
            && (w in after.leases ==> after.leases[w].phase !in {LeaseActive, LeaseAllocated})
            && (forall v :: v in db.leases && v != w ==> v in after.leases && after.leases[v] == db.leases[v])
            && after.repositories.Keys == db.repositories.Keys
            && (forall i :: i in db.repositories ==> (Holds(after.repositories[i]) <==> Holds(db.repositories[i])))
  {
    hide Record;
  }

  /** Recovering rows that need it, each once, keeps the database in order and quarantines just them. */
  lemma {:induction false} RecoverAllKeeps(db: Db, rows: seq<Id>, draw: Id -> Stamps, now: Time)
    requires Inv(db, now) && FailedImports(db.events) == {} && NoneTwice(rows)
    requires forall w :: w in rows ==> w in db.allocations && NeedsRecovery(db.allocations[w])
    ensures var after := RecoverAll(db, rows, draw);
            && Inv(after, now) && FailedImports(after.events) == {} && after.allocations.Keys == db.allocations.Keys
            && forall w :: w in db.allocations ==>
                 if w in rows then after.allocations[w].state == Quarantined
                 else after.allocations[w] == db.allocations[w]
  {
    hide Inv, FailedImports, NeedsRecovery, RecoverRow, Onward;
    if rows != [] {
      var init, w := rows[..|rows| - 1], rows[|rows| - 1];
      RecoverAllKeeps(db, init, draw, now);
      var before, stamps := RecoverAll(db, init, draw), draw(w);
      assert w !in init;
      RecoverKeeps(before, w, stamps.first, stamps.second, stamps.third, now);
      RowRecovered(before, w, stamps);
    }
  }

  /** A start on a database in order that passes the check leaves nothing open. */
  lemma RecoverySettles(db: Db, rows: seq<Id>, draw: Id -> Stamps, now: Time)
    requires Inv(db, now) && IntegrityHolds(db) && NoneTwice(rows) && forall w :: w in rows <==> w in Selected(db)
    requires forall w :: w in rows ==> w in db.allocations
    ensures var after := FinishRecovery(RecoverAll(db.(admission := Recovering), rows, draw), rows != []);
            && Inv(after, now)
            && (forall w :: w in after.allocations ==> Settled(after.allocations[w]))
            && (forall w :: w in after.leases ==> after.leases[w].phase !in {LeaseActive, LeaseAllocated})
            && (after.admission == Enabled <==> Selected(db) == {})
  {
    hide Inv, FailedImports, NeedsRecovery, RecoverAll, IntegrityHolds, Settled;
    IntegrityIff(db, now);
    AdmissionIsFree(db, Recovering, now);
    var begun := db.(admission := Recovering);
    RecoverAllKeeps(begun, rows, draw, now);
    var done := RecoverAll(begun, rows, draw);
    AdmissionIsFree(done, if rows != [] then Blocked else Enabled, now);
    var after := FinishRecovery(done, rows != []);
    forall w | w in after.allocations ensures Settled(after.allocations[w]) {
      if w in rows { QuarantinedIsSettled(after, w); } else { NotSelectedIsSettled(db, w, now); }
    }
    forall w | w in after.leases ensures after.leases[w].phase !in {LeaseActive, LeaseAllocated} {
      LeaseIsClosed(after, w, now);
    }
    if rows != [] { assert rows[0] in Selected(db); }
  }

  lemma NotSelectedIsSettled(db: Db, w: Id, now: Time)
    requires Inv(db, now) && FailedImports(db.events) == {} && w in db.allocations && w !in Selected(db)
    ensures Settled(db.allocations[w])
  {
    hide LeasesOk, Traced, ImportsOk, CandidatesOk, FailedImports;
    assert RowOk(db.allocations[w], false);
  }

  lemma LeaseIsClosed(db: Db, w: Id, now: Time)
    requires Inv(db, now) && FailedImports(db.events) == {} && w in db.leases
    requires forall v :: v in db.allocations ==> Settled(db.allocations[v])
    ensures db.leases[w].phase !in {LeaseActive, LeaseAllocated}
  {
    hide RowsOk, Traced, ImportsOk, CandidatesOk, FailedImports;
    LeaseIs(db, w);
    hide LeasesOk;
    SettledLease(w, db.leases[w], db.intents[db.leases[w].intent], db.allocations[w]);
  }

  class Registry {
    var allocations: map<Id, Allocation>
    var intents: map<Id, Intent>
    var leases: map<Id, QuotaLease>
    var candidates: map<Id, Candidate>
    var imports: map<Id, ImportIntent>
    var repositories: map<Id, RepositoryLease>
    var results: map<(Ledger, Id), Result>
    var events: seq<Event>
    var admission: Admission
    var next: nat
    /** The time of the last transaction. */
    ghost var clock: Time

    function Snapshot(): Db
      reads this
    {
      Db(allocations, intents, leases, candidates, imports, repositories, results, events, admission, next)
    }

    /** The tables are in order, as of the last transaction. */
    ghost predicate Valid()
      reads this
    {
      Inv(Snapshot(), clock)
    }

    /**
     What a caller is told besides the new tables: a refusal or a replay changed nothing; a commit
     made in order, on a registry in order, leaves it in order and keeps its promises.
     */
    twostate predicate Transacted(w: Id, reply: Reply, stamp: Stamp, inOrder: bool, failed: bool)
      reads this
    {
      if reply.Ok? then
        clock == stamp.at
        && (old(Valid()) && old(clock) <= stamp.at && inOrder ==>
              Valid() && Promised(old(Snapshot()), Snapshot(), w, stamp.at, failed))
      else Snapshot() == old(Snapshot()) && clock == old(clock)
    }

    constructor (ghost now: Time)
      ensures Snapshot() == Fresh() && clock == now && Valid()
    {
      clock := now;
      allocations, intents, leases, candidates := map[], map[], map[], map[];
      imports, repositories, results, events := map[], map[], map[], [];
      admission, next := Recovering, FIRST_PROJECT;
    }

    /** `event`: chained to the latest digest, with the state the row has now. */
    method NextEvent(w: Id, name: EventName, stamp: Stamp) returns (e: Event)
      requires w in allocations
      ensures e == EventFor(events, w, allocations[w], name, stamp)
    {
      var previous := Zero;
      if events != [] {
        previous := events[|events| - 1].digest;
      }
      var row := allocations[w];
      var digest := OwnerHash(stamp.event, w, name, row.state, stamp.code, stamp.at, previous, row.mode, row.authority);
      e := Event(stamp.event, w, name, row.state, stamp.code, stamp.at, row.mode, row.authority, previous, digest);
    }

    /** The writes of `Reserve`, once its tests have passed. */
    method WriteReserve(r: ReserveRequest, mode: Mode, authority: nat, w: Id, stamp: Stamp)
      requires CommitReserve(Snapshot(), r, mode, authority, w, stamp).Committed?
      modifies `allocations, `results, `events
      ensures Snapshot() == CommitReserve(old(Snapshot()), r, mode, authority, w, stamp).db
    {
      hide EventFor;
      allocations, results :=
        allocations[w := Allocation(r.run, r.repository, r.binding, r.details, mode, authority, Admitted, Required, 1,
                                    None, None, None)],
        results[(OfReserve, r.request) := Result(r.digest, KindOnly, w)];
      var e := NextEvent(w, AllocationRequested, stamp);
      events := events + [e];
    }

    /** The transaction of `reserve`. */
    method Reserve(r: ReserveRequest, mode: Mode, authority: nat, w: Id, stamp: Stamp) returns (reply: Reply)
      modifies `allocations, `results, `events, `clock
      ensures var o := CommitReserve(old(Snapshot()), r, mode, authority, w, stamp);
              reply == ReplyOf(o) && Snapshot() == After(old(Snapshot()), o)
      ensures Transacted(w, reply, stamp, true, false)
    {
      ghost var db, now := Snapshot(), clock;
      hide EventFor, Prior, Inv, Onward, OneRow, IntegrityHolds;
      if mode == Unknown {
        return Denied(AdmissionBlocked);
      }
      if exists x :: x in allocations && allocations[x].run == r.run {
        return Denied(RunExists);
      }
      if w in allocations || (OfReserve, r.request) in results {
        return Denied(Constraint);
      }
      WriteReserve(r, mode, authority, w, stamp);
      clock := stamp.at;
      if Inv(db, now) && now <= stamp.at {
        ReservePromised(db, r, mode, authority, w, stamp, now);
      }
      reply := Ok;
    }

    /** The tests of `Advance`, in order. */
    method CheckAdvance(r: AdvanceRequest, stamp: Stamp) returns (denial: Option<Reply>)
      ensures var o := ExecutionTransactions.Advance(Snapshot(), r, stamp);
              denial == if o.Committed? then None else Some(ReplyOf(o))
    {
      var prior := Prior(Snapshot(), OfLifecycle, KindState, r.request, r.digest);
      if prior.Some? {
        return Some(ReplyOf(prior.value));
      }
      if admission != Enabled {
        return Some(Denied(AdmissionBlocked));
      }
      if r.worktree !in allocations {
        return Some(Denied(Integrity));
      }
      var row := allocations[r.worktree];
      if row.binding != r.binding {
        return Some(Denied(BindingMismatch));
      }
      if row.revision != r.revision {
        return Some(Denied(RevisionConflict));
      }
      if r.next in {Cleaning, Cleaned, CleanupFailed} || r.next !in Legal(row.state) {
        return Some(Denied(StateInvalid));
      }
      if (OfLifecycle, r.request) in results {
        return Some(Denied(Constraint));
      }
      denial := None;
    }

    /** The writes of `Advance`, once its tests have passed. */
    method WriteAdvance(r: AdvanceRequest, stamp: Stamp)
      requires ExecutionTransactions.Advance(Snapshot(), r, stamp).Committed?
      modifies `allocations, `results, `events
      ensures Snapshot() == ExecutionTransactions.Advance(old(Snapshot()), r, stamp).db
    {
      hide EventFor, Prior;
      var row := allocations[r.worktree];
      allocations, results :=
        allocations[r.worktree := row.(state := r.next, revision := row.revision + 1)],
        results[(OfLifecycle, r.request) := Result(r.digest, KindState, r.worktree)];
      var e := NextEvent(r.worktree, StateAdvanced, stamp);
      events := events + [e];
    }

    /** `advance`: replay, guards, one row, one result, one event. */
    method Advance(r: AdvanceRequest, stamp: Stamp) returns (reply: Reply)
      modifies `allocations, `results, `events, `clock
      ensures var o := ExecutionTransactions.Advance(old(Snapshot()), r, stamp);
              reply == ReplyOf(o) && Snapshot() == After(old(Snapshot()), o)
      ensures Transacted(r.worktree, reply, stamp, FromController(old(Snapshot()), r), false)
    {
      ghost var db, now := Snapshot(), clock;
      hide ExecutionTransactions.Advance, Inv, Onward, OneRow, IntegrityHolds;
      var denial := CheckAdvance(r, stamp);
      if denial.Some? {
        return denial.value;
      }
      WriteAdvance(r, stamp);
      clock := stamp.at;
      if Inv(db, now) && now <= stamp.at && FromController(db, r) {
        AdvancePromised(db, r, stamp, now);
      }
      reply := Ok;
    }

    /** The tests of `PreparePhysicalAllocation`, in order. */
    method CheckPreparePhysicalAllocation(r: PrepareRequest, intent: Id, token: Id, stamp: Stamp)
        returns (denial: Option<Reply>)
      ensures var o := CommitPrepare(Snapshot(), r, intent, token, stamp);
              denial == if o.Committed? then None else Some(ReplyOf(o))
    {
      var project := next;
      if project < FIRST_PROJECT || project > LAST_PROJECT {
        return Some(Denied(Integrity));
      }
      if intent in intents || r.worktree !in allocations || r.worktree in leases || (OfPrepare, r.request) in results {
        return Some(Denied(Constraint));
      }
      if exists w :: w in leases && (leases[w].project == project || leases[w].intent == intent) {
        return Some(Denied(Constraint));
      }
      denial := None;
    }

    /** The writes of `PreparePhysicalAllocation`, once its tests have passed. */
    method WritePreparePhysicalAllocation(r: PrepareRequest, intent: Id, token: Id, stamp: Stamp)
      requires CommitPrepare(Snapshot(), r, intent, token, stamp).Committed?
      modifies `intents, `leases, `next, `results, `events
      ensures Snapshot() == CommitPrepare(old(Snapshot()), r, intent, token, stamp).db
    {
      hide EventFor, Prior;
      var project := next;
      intents, leases, next, results :=
        intents[intent := Intent(r.worktree, ForAllocation, IntentRequested, token, None, Some(r.tools))],
        leases[r.worktree := QuotaLease(project, intent, LeaseActive)],
        next + 1,
        results[(OfPrepare, r.request) := Result(r.digest, KindOnly, intent)];
      var e := NextEvent(r.worktree, AllocationIntentRecorded, stamp);
      events := events + [e];
    }

    /** The transaction of `preparePhysicalAllocation`: the next project id is taken and counted up. */
    method PreparePhysicalAllocation(r: PrepareRequest, intent: Id, token: Id, stamp: Stamp) returns (reply: Reply)
      modifies `intents, `leases, `next, `results, `events, `clock
      ensures var o := CommitPrepare(old(Snapshot()), r, intent, token, stamp);
              reply == ReplyOf(o) && Snapshot() == After(old(Snapshot()), o)
      ensures Transacted(r.worktree, reply, stamp, StillAdmitted(old(Snapshot()), r.worktree), false)
    {
      ghost var db, now := Snapshot(), clock;
      hide CommitPrepare, Inv, Onward, OneRow, IntegrityHolds;
      var denial := CheckPreparePhysicalAllocation(r, intent, token, stamp);
      if denial.Some? {
        return denial.value;
      }
      WritePreparePhysicalAllocation(r, intent, token, stamp);
      clock := stamp.at;
      if Inv(db, now) && now <= stamp.at && StillAdmitted(db, r.worktree) {
        PreparePromised(db, r, intent, token, stamp, now);
      }
      reply := Ok;
    }

    /** The tests of `RecordPhysicalAllocation`, in order. */
    method CheckRecordPhysicalAllocation(r: RecordRequest, stamp: Stamp) returns (denial: Option<Reply>)
      ensures var o := CommitRecord(Snapshot(), r, stamp);
              denial == if o.Committed? then None else Some(ReplyOf(o))
    {
      var intentFits := r.intent in intents && intents[r.intent].kind == ForAllocation
                        && intents[r.intent].phase == IntentRequested && intents[r.intent].token == r.token;
      var rowFits := Guard(Snapshot(), r.worktree, r.revision, Admitted, r.binding);
      var leaseFits := LeaseHeldFor(Snapshot(), r.worktree, r.intent) && leases[r.worktree].project == r.project
                       && leases[r.worktree].phase == LeaseActive;
      if !intentFits || !rowFits || !leaseFits {
        return Some(Denied(RevisionConflict));
      }
      if (OfRecord, r.request) in results {
        return Some(Denied(Constraint));
      }
      denial := None;
    }

    /** The writes of `RecordPhysicalAllocation`, once its tests have passed. */
    method WriteRecordPhysicalAllocation(r: RecordRequest, stamp: Stamp)
      requires CommitRecord(Snapshot(), r, stamp).Committed?
      modifies `allocations, `intents, `leases, `results, `events
      ensures Snapshot() == CommitRecord(old(Snapshot()), r, stamp).db
    {
      hide EventFor, Prior;
      var row := allocations[r.worktree];
      intents, allocations, leases, results :=
        intents[r.intent := intents[r.intent].(phase := IntentCompleted)],
        allocations[r.worktree := row.(state := Allocated, revision := row.revision + 1, identity := Some(r.identity),
                                       project := Some(r.project), tools := Some(r.tools))],
        leases[r.worktree := leases[r.worktree].(phase := LeaseAllocated)],
        results[(OfRecord, r.request) := Result(r.digest, KindOnly, r.worktree)];
      var e := NextEvent(r.worktree, AllocationProofRecorded, stamp);
      events := events + [e];
    }

    /** The transaction of `recordPhysicalAllocation`: three guarded updates or none. */
    method RecordPhysicalAllocation(r: RecordRequest, stamp: Stamp) returns (reply: Reply)
      modifies `allocations, `intents, `leases, `results, `events, `clock
      ensures var o := CommitRecord(old(Snapshot()), r, stamp);
              reply == ReplyOf(o) && Snapshot() == After(old(Snapshot()), o)
      ensures Transacted(r.worktree, reply, stamp, true, false)
    {
      ghost var db, now := Snapshot(), clock;
      hide CommitRecord, Inv, Onward, OneRow, IntegrityHolds;
      var denial := CheckRecordPhysicalAllocation(r, stamp);
      if denial.Some? {
        return denial.value;
      }
      WriteRecordPhysicalAllocation(r, stamp);
      clock := stamp.at;
      if Inv(db, now) && now <= stamp.at {
        RecordPromised(db, r, stamp, now);
      }
      reply := Ok;
    }

    /** The tests of `PrepareCandidateImport`, in order. */
    method CheckPrepareCandidateImport(r: ImportRequest, intent: Id, token: Id, stamp: Stamp)
        returns (denial: Option<Reply>)
      ensures var o := PrepareImport(Snapshot(), r, intent, token, stamp);
              denial == if o.Committed? then None else Some(ReplyOf(o))
    {
      var prior := Prior(Snapshot(), OfLifecycle, KindImportIntent, r.request, r.digest);
      if prior.Some? {
        if prior.value.Replayed? && (prior.value.resource !in imports
                                     || imports[prior.value.resource].phase != IntentRequested) {
          return Some(Denied(Integrity));
        }
        return Some(ReplyOf(prior.value));
      }
      if admission != Enabled {
        return Some(Denied(AdmissionBlocked));
      }
      if r.worktree !in allocations {
        return Some(Denied(Integrity));
      }
      var row := allocations[r.worktree];
      if row.binding != r.binding {
        return Some(Denied(BindingMismatch));
      }
      if row.revision != r.revision {
        return Some(Denied(RevisionConflict));
      }
      if row.state != Sealed {
        return Some(Denied(StateInvalid));
      }
      if r.candidate !in candidates || candidates[r.candidate].worktree != r.worktree {
        return Some(Denied(BindingMismatch));
      }
      if exists i :: i in repositories && repositories[i].repository == row.repository && Holds(repositories[i]) {
        return Some(Denied(RepositoryConflict));
      }
      if intent in imports || intent in repositories || (OfLifecycle, r.request) in results {
        return Some(Denied(Constraint));
      }
      denial := None;
    }

    /** The writes of `PrepareCandidateImport`, once its tests have passed. */
    method WritePrepareCandidateImport(r: ImportRequest, intent: Id, token: Id, stamp: Stamp)
      requires PrepareImport(Snapshot(), r, intent, token, stamp).Committed?
      modifies `imports, `repositories, `results, `events
      ensures Snapshot() == PrepareImport(old(Snapshot()), r, intent, token, stamp).db
    {
      hide EventFor, PrepareImport;
      PreparedImportIs(Snapshot(), r, intent, token, stamp);
      var row := allocations[r.worktree];
      imports, repositories, results :=
        imports[intent := ImportIntent(r.worktree, r.candidate, token, IntentRequested)],
        repositories[intent := RepositoryLease(row.repository, r.worktree, token, RepositoryActive)],
        results[(OfLifecycle, r.request) := Result(r.digest, KindImportIntent, intent)];
      var e := NextEvent(r.worktree, ImportRequested, stamp);
      events := events + [e];
    }

    /** The transaction of `prepareCandidateImport`, with its checks; nothing is awaited between them. */
    method PrepareCandidateImport(r: ImportRequest, intent: Id, token: Id, stamp: Stamp) returns (reply: Reply)
      modifies `imports, `repositories, `results, `events, `clock
      ensures var o := PrepareImport(old(Snapshot()), r, intent, token, stamp);
              reply == ReplyOf(o) && Snapshot() == After(old(Snapshot()), o)
      ensures Transacted(r.worktree, reply, stamp, true, false)
    {
      ghost var db, now := Snapshot(), clock;
      hide PrepareImport, Inv, Onward, OneRow, IntegrityHolds;
      var denial := CheckPrepareCandidateImport(r, intent, token, stamp);
      if denial.Some? {
        return denial.value;
      }
      WritePrepareCandidateImport(r, intent, token, stamp);
      clock := stamp.at;
      if Inv(db, now) && now <= stamp.at {
        PrepareImportPromised(db, r, intent, token, stamp, now);
      }
      reply := Ok;
    }

    /** The tests of `CompletePhysicalCleanup`, in order. */
    method CheckCompletePhysicalCleanup(r: CleanupEndRequest, project: nat, stamp: Stamp)
        returns (denial: Option<Reply>)
      ensures var o := CommitComplete(Snapshot(), r, project, stamp);
              denial == if o.Committed? then None else Some(ReplyOf(o))
    {
      var db := Snapshot();
      if !CleanupIntentOpen(db, r) || !Guard(db, r.worktree, r.revision, Cleaning, r.binding)
         || !(r.worktree in leases && leases[r.worktree].project == project
              && leases[r.worktree].phase == LeaseAllocated)
      {
        return Some(Denied(RevisionConflict));
      }
      if (OfCleanup, r.request) in results {
        return Some(Denied(Constraint));
      }
      denial := None;
    }

    /** The writes of `CompletePhysicalCleanup`, once its tests have passed. */
    method WriteCompletePhysicalCleanup(r: CleanupEndRequest, project: nat, stamp: Stamp)
      requires CommitComplete(Snapshot(), r, project, stamp).Committed?
      modifies `allocations, `intents, `leases, `results, `events
      ensures Snapshot() == CommitComplete(old(Snapshot()), r, project, stamp).db
    {
      hide EventFor, CommitComplete;
      CompletedCleanupIs(Snapshot(), r, project, stamp);
      intents := intents[r.intent := intents[r.intent].(phase := IntentCompleted)];
      var row := allocations[r.worktree];
      allocations, leases, results :=
        allocations[r.worktree := row.(state := Cleaned, cleanup := CleanedUp, revision := row.revision + 1)],
        leases[r.worktree := leases[r.worktree].(phase := LeaseReleased)],
        results[(OfCleanup, r.request) := Result(r.digest, KindComplete, r.worktree)];
      var e := NextEvent(r.worktree, CleanupCompleted, stamp);
      events := events + [e];
    }

    /** The transaction of `completePhysicalCleanup`. */
    method CompletePhysicalCleanup(r: CleanupEndRequest, project: nat, stamp: Stamp) returns (reply: Reply)
      modifies `allocations, `intents, `leases, `results, `events, `clock
      ensures var o := CommitComplete(old(Snapshot()), r, project, stamp);
              reply == ReplyOf(o) && Snapshot() == After(old(Snapshot()), o)
      ensures Transacted(r.worktree, reply, stamp, true, false)
    {
      ghost var db, now := Snapshot(), clock;
      hide CommitComplete, Inv, Onward, OneRow, IntegrityHolds;
      var denial := CheckCompletePhysicalCleanup(r, project, stamp);
      if denial.Some? {
        return denial.value;
      }
      WriteCompletePhysicalCleanup(r, project, stamp);
      clock := stamp.at;
      if Inv(db, now) && now <= stamp.at {
        CompletePromised(db, r, project, stamp, now);
      }
      reply := Ok;
    }

    /** The tests of `FailPhysicalAllocation`, in order. */
    method CheckFailPhysicalAllocation(r: FailAllocationRequest, stamp: Stamp) returns (denial: Option<Reply>)
      ensures var o := FailAllocation(Snapshot(), r, stamp);
              denial == if o.Committed? then None else Some(ReplyOf(o))
    {
      var prior := Prior(Snapshot(), OfAllocationFailure, KindOnly, r.request, r.digest);
      if prior.Some? {
        return Some(ReplyOf(prior.value));
      }
      if r.worktree !in allocations || r.intent !in intents || intents[r.intent].kind != ForAllocation {
        return Some(Denied(Integrity));
      }
      var row, intent := allocations[r.worktree], intents[r.intent];
      if row.binding != r.binding || intent.worktree != r.worktree || intent.token != r.token {
        return Some(Denied(BindingMismatch));
      }
      if row.revision != r.revision {
        return Some(Denied(RevisionConflict));
      }
      if row.state != Admitted || intent.phase != IntentRequested {
        return Some(Denied(StateInvalid));
      }
      if (OfAllocationFailure, r.request) in results {
        return Some(Denied(Constraint));
      }
      if !LeaseHeldFor(Snapshot(), r.worktree, r.intent) || leases[r.worktree].phase != LeaseActive {
        return Some(Denied(RevisionConflict));
      }
      denial := None;
    }

    /** The writes of `FailPhysicalAllocation`, once its tests have passed. */
    method WriteFailPhysicalAllocation(r: FailAllocationRequest, stamp: Stamp)
      requires FailAllocation(Snapshot(), r, stamp).Committed?
      modifies `allocations, `intents, `leases, `admission, `results, `events
      ensures Snapshot() == FailAllocation(old(Snapshot()), r, stamp).db
    {
      hide EventFor, Prior;
      var row, intent := allocations[r.worktree], intents[r.intent];
      intents, allocations, leases, results, admission :=
        intents[r.intent := intent.(phase := IntentQuarantined)],
        allocations[r.worktree := row.(state := Quarantined, cleanup := CleanupFault, revision := row.revision + 1)],
        leases[r.worktree := leases[r.worktree].(phase := LeaseQuarantined)],
        results[(OfAllocationFailure, r.request) := Result(r.digest, KindOnly, r.worktree)],
        Blocked;
      var e := NextEvent(r.worktree, AllocationQuarantined, stamp);
      events := events + [e];
    }

    /** `failPhysicalAllocation`: row, intent and lease are quarantined and admission is blocked. */
    method FailPhysicalAllocation(r: FailAllocationRequest, stamp: Stamp) returns (reply: Reply)
      modifies `allocations, `intents, `leases, `admission, `results, `events, `clock
      ensures var o := FailAllocation(old(Snapshot()), r, stamp);
              reply == ReplyOf(o) && Snapshot() == After(old(Snapshot()), o)
      ensures Transacted(r.worktree, reply, stamp, true, false)
    {
      ghost var db, now := Snapshot(), clock;
      hide FailAllocation, Inv, Onward, OneRow, IntegrityHolds;
      var denial := CheckFailPhysicalAllocation(r, stamp);
      if denial.Some? {
        return denial.value;
      }
      WriteFailPhysicalAllocation(r, stamp);
      clock := stamp.at;
      if Inv(db, now) && now <= stamp.at {
        FailAllocationPromised(db, r, stamp, now);
      }
      reply := Ok;
    }

    /** The tests of `Seal`, in order. */
    method CheckSeal(r: SealRequest, stamp: Stamp) returns (denial: Option<Reply>)
      ensures var o := RecordSeal(Snapshot(), r, stamp);
              denial == if o.Committed? then None else Some(ReplyOf(o))
    {
      var prior := Prior(Snapshot(), OfLifecycle, KindSeal, r.request, r.digest);
      if prior.Some? {
        return Some(ReplyOf(prior.value));
      }
      if admission != Enabled {
        return Some(Denied(AdmissionBlocked));
      }
      if r.worktree !in allocations {
        return Some(Denied(Integrity));
      }
      var row := allocations[r.worktree];
      if row.binding != r.binding {
        return Some(Denied(BindingMismatch));
      }
      if row.revision != r.revision {
        return Some(Denied(RevisionConflict));
      }
      if row.state != Stopping {
        return Some(Denied(StateInvalid));
      }
      if !r.matchesBinding {
        return Some(Denied(BindingMismatch));
      }
      if r.candidate in candidates || (exists c :: c in candidates && candidates[c].worktree == r.worktree)
         || (OfLifecycle, r.request) in results
      {
        return Some(Denied(Constraint));
      }
      denial := None;
    }

    /** The writes of `Seal`, once its tests have passed. */
    method WriteSeal(r: SealRequest, stamp: Stamp)
      requires RecordSeal(Snapshot(), r, stamp).Committed?
      modifies `allocations, `candidates, `results, `events
      ensures Snapshot() == RecordSeal(old(Snapshot()), r, stamp).db
    {
      hide EventFor, RecordSeal;
      SealedIs(Snapshot(), r, stamp);
      var row := allocations[r.worktree];
      candidates, allocations, results :=
        candidates[r.candidate := Candidate(r.worktree, r.commit, PendingEvidence, r.until, None)],
        allocations[r.worktree := row.(state := Sealed, revision := row.revision + 1)],
        results[(OfLifecycle, r.request) := Result(r.digest, KindSeal, r.candidate)];
      var e := NextEvent(r.worktree, SealCompleted, stamp);
      events := events + [e];
    }

    /** `recordSeal`. */
    method Seal(r: SealRequest, stamp: Stamp) returns (reply: Reply)
      modifies `allocations, `candidates, `results, `events, `clock
      ensures var o := RecordSeal(old(Snapshot()), r, stamp);
              reply == ReplyOf(o) && Snapshot() == After(old(Snapshot()), o)
      ensures Transacted(r.worktree, reply, stamp, true, false)
    {
      ghost var db, now := Snapshot(), clock;
      hide RecordSeal, Inv, Onward, OneRow, IntegrityHolds;
      var denial := CheckSeal(r, stamp);
      if denial.Some? {
        return denial.value;
      }
      WriteSeal(r, stamp);
      clock := stamp.at;
      if Inv(db, now) && now <= stamp.at {
        SealPromised(db, r, stamp, now);
      }
      reply := Ok;
    }

    /** The tests of `CompleteCandidateImport`, in order. */
    method CheckCompleteCandidateImport(r: ImportEndRequest, stamp: Stamp) returns (denial: Option<Reply>)
      ensures var o := CompleteImport(Snapshot(), r, stamp);
              denial == if o.Committed? then None else Some(ReplyOf(o))
    {
      var prior := Prior(Snapshot(), OfLifecycle, KindImportComplete, r.request, r.digest);
      if prior.Some? {
        return Some(ReplyOf(prior.value));
      }
      if r.worktree !in allocations || r.intent !in imports || r.candidate !in candidates {
        return Some(Denied(Integrity));
      }
      var row, intent, candidate := allocations[r.worktree], imports[r.intent], candidates[r.candidate];
      if row.binding != r.binding || intent.worktree != r.worktree || intent.candidate != r.candidate
        || candidate.worktree != r.worktree {
        return Some(Denied(BindingMismatch));
      }
      if row.revision != r.revision {
        return Some(Denied(RevisionConflict));
      }
      if row.state != Sealed || intent.phase != IntentRequested {
        return Some(Denied(StateInvalid));
      }
      if intent.token != r.token || candidate.commit != r.commit {
        return Some(Denied(BindingMismatch));
      }
      if !ImportOpen(Snapshot(), r) {
        return Some(Denied(RevisionConflict));
      }
      if (OfLifecycle, r.request) in results {
        return Some(Denied(Constraint));
      }
      denial := None;
    }

    /** The writes of `CompleteCandidateImport`, once its tests have passed. */
    method WriteCompleteCandidateImport(r: ImportEndRequest, stamp: Stamp)
      requires CompleteImport(Snapshot(), r, stamp).Committed?
      modifies `allocations, `candidates, `imports, `repositories, `results, `events
      ensures Snapshot() == CompleteImport(old(Snapshot()), r, stamp).db
    {
      hide EventFor, CompleteImport;
      CompletedImportIs(Snapshot(), r, stamp);
      var row, intent, candidate := allocations[r.worktree], imports[r.intent], candidates[r.candidate];
      imports, repositories, allocations, candidates, results :=
        imports[r.intent := intent.(phase := IntentCompleted)],
        repositories[r.intent := repositories[r.intent].(phase := RepositoryReleased)],
        allocations[r.worktree := row.(state := CandidateImported, revision := row.revision + 1)],
        candidates[r.candidate := if candidate.quarantineRef.None? then candidate.(quarantineRef := Some(r.ref))
          else candidate],
        results[(OfLifecycle, r.request) := Result(r.digest, KindImportComplete, r.candidate)];
      var e := NextEvent(r.worktree, ImportCompleted, stamp);
      events := events + [e];
    }

    /** `completeCandidateImport`: intent, repository lease and row, or none of them. */
    method CompleteCandidateImport(r: ImportEndRequest, stamp: Stamp) returns (reply: Reply)
      modifies `allocations, `candidates, `imports, `repositories, `results, `events, `clock
      ensures var o := CompleteImport(old(Snapshot()), r, stamp);
              reply == ReplyOf(o) && Snapshot() == After(old(Snapshot()), o)
      ensures Transacted(r.worktree, reply, stamp, true, false)
    {
      ghost var db, now := Snapshot(), clock;
      hide CompleteImport, Inv, Onward, OneRow, IntegrityHolds;
      var denial := CheckCompleteCandidateImport(r, stamp);
      if denial.Some? {
        return denial.value;
      }
      WriteCompleteCandidateImport(r, stamp);
      clock := stamp.at;
      if Inv(db, now) && now <= stamp.at {
        CompleteImportPromised(db, r, stamp, now);
      }
      reply := Ok;
    }

    /** The tests of `FailCandidateImport`, in order. */
    method CheckFailCandidateImport(r: ImportEndRequest, stamp: Stamp) returns (denial: Option<Reply>)
      ensures var o := FailImport(Snapshot(), r, stamp);
              denial == if o.Committed? then None else Some(ReplyOf(o))
    {
      var prior := Prior(Snapshot(), OfLifecycle, KindState, r.request, r.digest);
      if prior.Some? {
        return Some(ReplyOf(prior.value));
      }
      if r.worktree !in allocations || r.intent !in imports {
        return Some(Denied(Integrity));
      }
      var row, intent := allocations[r.worktree], imports[r.intent];
      if row.binding != r.binding || intent.worktree != r.worktree || intent.candidate != r.candidate
        || intent.token != r.token {
        return Some(Denied(BindingMismatch));
      }
      if row.revision != r.revision {
        return Some(Denied(RevisionConflict));
      }
      if row.state != Sealed || intent.phase != IntentRequested {
        return Some(Denied(StateInvalid));
      }
      if !ImportOpen(Snapshot(), r) {
        return Some(Denied(RevisionConflict));
      }
      if (OfLifecycle, r.request) in results {
        return Some(Denied(Constraint));
      }
      denial := None;
    }

    /** The writes of `FailCandidateImport`, once its tests have passed. */
    method WriteFailCandidateImport(r: ImportEndRequest, stamp: Stamp)
      requires FailImport(Snapshot(), r, stamp).Committed?
      modifies `allocations, `imports, `repositories, `admission, `results, `events
      ensures Snapshot() == FailImport(old(Snapshot()), r, stamp).db
    {
      hide EventFor, FailImport;
      FailedImportIs(Snapshot(), r, stamp);
      var row, intent := allocations[r.worktree], imports[r.intent];
      imports, repositories, allocations, results, admission :=
        imports[r.intent := intent.(phase := IntentQuarantined)],
        repositories[r.intent := repositories[r.intent].(phase := RepositoryQuarantined)],
        allocations[r.worktree := row.(state := Quarantined, revision := row.revision + 1)],
        results[(OfLifecycle, r.request) := Result(r.digest, KindState, r.worktree)],
        Blocked;
      var e := NextEvent(r.worktree, ImportQuarantined, stamp);
      events := events + [e];
    }

    /** `failCandidateImport`: the repository stays fenced; quota lease and cleanup state are left alone. */
    method FailCandidateImport(r: ImportEndRequest, stamp: Stamp) returns (reply: Reply)
      modifies `allocations, `imports, `repositories, `admission, `results, `events, `clock
      ensures var o := FailImport(old(Snapshot()), r, stamp);
              reply == ReplyOf(o) && Snapshot() == After(old(Snapshot()), o)
      ensures Transacted(r.worktree, reply, stamp, true, true)
    {
      ghost var db, now := Snapshot(), clock;
      hide FailImport, Inv, Onward, OneRow, IntegrityHolds;
      var denial := CheckFailCandidateImport(r, stamp);
      if denial.Some? {
        return denial.value;
      }
      WriteFailCandidateImport(r, stamp);
      clock := stamp.at;
      if Inv(db, now) && now <= stamp.at {
        FailImportPromised(db, r, stamp, now);
      }
      reply := Ok;
    }

    /** The tests of `Retain`, in order. */
    method CheckRetain(r: RetentionRequest, stamp: Stamp) returns (denial: Option<Reply>)
      ensures var o := RecordRetention(Snapshot(), r, stamp);
              denial == if o.Committed? then None else Some(ReplyOf(o))
    {
      var prior := Prior(Snapshot(), OfRetention, KindOnly, r.request, r.digest);
      if prior.Some? {
        return Some(ReplyOf(prior.value));
      }
      if admission != Enabled {
        return Some(Denied(AdmissionBlocked));
      }
      if r.worktree !in allocations || r.candidate !in candidates || candidates[r.candidate].worktree != r.worktree {
        return Some(Denied(Integrity));
      }
      var row, candidate := allocations[r.worktree], candidates[r.candidate];
      if row.binding != r.binding {
        return Some(Denied(BindingMismatch));
      }
      if row.revision != r.revision {
        return Some(Denied(RevisionConflict));
      }
      if row.state !in {Sealed, CandidateImported} || candidate.retention != PendingEvidence
        || r.chosen == PendingEvidence {
        return Some(Denied(StateInvalid));
      }
      if (OfRetention, r.request) in results {
        return Some(Denied(Constraint));
      }
      denial := None;
    }

    /** The writes of `Retain`, once its tests have passed. */
    method WriteRetain(r: RetentionRequest, stamp: Stamp)
      requires RecordRetention(Snapshot(), r, stamp).Committed?
      modifies `allocations, `candidates, `results, `events
      ensures Snapshot() == RecordRetention(old(Snapshot()), r, stamp).db
    {
      hide EventFor, Prior;
      var row, candidate := allocations[r.worktree], candidates[r.candidate];
      var until := stamp.at + RetentionMilliseconds(r.chosen);
      candidates, allocations, results :=
        candidates[r.candidate := candidate.(retention := r.chosen, until := until)],
        allocations[r.worktree := row.(state := Retained, revision := row.revision + 1)],
        results[(OfRetention, r.request) := Result(r.digest, KindOnly, r.candidate)];
      var e := NextEvent(r.worktree, RetentionCommitted, stamp);
      events := events + [e];
    }

    /** `recordRetention`: the candidate is kept until a time counted from now. */
    method Retain(r: RetentionRequest, stamp: Stamp) returns (reply: Reply)
      modifies `allocations, `candidates, `results, `events, `clock
      ensures var o := RecordRetention(old(Snapshot()), r, stamp);
              reply == ReplyOf(o) && Snapshot() == After(old(Snapshot()), o)
      ensures Transacted(r.worktree, reply, stamp, true, false)
    {
      ghost var db, now := Snapshot(), clock;
      hide RecordRetention, Inv, Onward, OneRow, IntegrityHolds;
      var denial := CheckRetain(r, stamp);
      if denial.Some? {
        return denial.value;
      }
      WriteRetain(r, stamp);
      clock := stamp.at;
      if Inv(db, now) && now <= stamp.at {
        RetentionPromised(db, r, stamp, now);
      }
      reply := Ok;
    }

    /** The tests of `PreparePhysicalCleanup`, in order. */
    method CheckPreparePhysicalCleanup(r: CleanupRequest, state: State, identity: Option<Id>, intent: Id, token: Id,
        stamp: Stamp) returns (denial: Option<Reply>)
      ensures var o := CommitCleanup(Snapshot(), r, state, identity, intent, token, stamp);
              denial == if o.Committed? then None else Some(ReplyOf(o))
    {
      if state == Retained {
        if !RetentionDecided(Snapshot(), r.worktree) {
          return Some(Denied(Integrity));
        }
        if StillKept(Snapshot(), r.worktree, stamp.at) {
          return Some(Denied(RetentionActive));
        }
      }
      if !Guard(Snapshot(), r.worktree, r.revision, state, r.binding) {
        return Some(Denied(RevisionConflict));
      }
      if intent in intents || (OfCleanup, r.request) in results {
        return Some(Denied(Constraint));
      }
      denial := None;
    }

    /** The writes of `PreparePhysicalCleanup`, once its tests have passed. */
    method WritePreparePhysicalCleanup(r: CleanupRequest, state: State, identity: Option<Id>, intent: Id, token: Id,
        stamp: Stamp)
      requires CommitCleanup(Snapshot(), r, state, identity, intent, token, stamp).Committed?
      modifies `allocations, `intents, `results, `events
      ensures Snapshot() == CommitCleanup(old(Snapshot()), r, state, identity, intent, token, stamp).db
    {
      hide EventFor, CommitCleanup;
      PreparedCleanupIs(Snapshot(), r, state, identity, intent, token, stamp);
      var row := allocations[r.worktree];
      allocations, intents, results :=
        allocations[r.worktree := row.(state := Cleaning, cleanup := InCleanup, revision := row.revision + 1)],
        intents[intent := Intent(r.worktree, ForCleanup, IntentRequested, token, identity, None)],
        results[(OfCleanup, r.request) := Result(r.digest, KindPrepare, intent)];
      var e := NextEvent(r.worktree, CleanupRequested, stamp);
      events := events + [e];
    }

    /** The part of `preparePhysicalCleanup` behind its await. */
    method PreparePhysicalCleanup(r: CleanupRequest, state: State, identity: Option<Id>, intent: Id, token: Id,
        stamp: Stamp) returns (reply: Reply)
      modifies `allocations, `intents, `results, `events, `clock
      ensures var o := CommitCleanup(old(Snapshot()), r, state, identity, intent, token, stamp);
              reply == ReplyOf(o) && Snapshot() == After(old(Snapshot()), o)
      ensures Transacted(r.worktree, reply, stamp, MayClean(state), false)
    {
      ghost var db, now := Snapshot(), clock;
      hide CommitCleanup, Inv, Onward, OneRow, IntegrityHolds;
      var denial := CheckPreparePhysicalCleanup(r, state, identity, intent, token, stamp);
      if denial.Some? {
        return denial.value;
      }
      WritePreparePhysicalCleanup(r, state, identity, intent, token, stamp);
      clock := stamp.at;
      if Inv(db, now) && now <= stamp.at && MayClean(state) {
        CleanupPromised(db, r, state, identity, intent, token, stamp, now);
      }
      reply := Ok;
    }

    /** The tests of `FailPhysicalCleanup`, in order. */
    method CheckFailPhysicalCleanup(r: CleanupEndRequest, stamp: Stamp) returns (denial: Option<Reply>)
      ensures var o := FailCleanup(Snapshot(), r, stamp);
              denial == if o.Committed? then None else Some(ReplyOf(o))
    {
      var prior := Prior(Snapshot(), OfCleanup, KindFailure, r.request, r.digest);
      if prior.Some? {
        return Some(ReplyOf(prior.value));
      }
      if r.worktree !in allocations || r.intent !in intents || intents[r.intent].kind != ForCleanup {
        return Some(Denied(Integrity));
      }
      var row, intent := allocations[r.worktree], intents[r.intent];
      if row.binding != r.binding || intent.worktree != r.worktree || intent.token != r.token
        || intent.identity != Some(r.expected) {
        return Some(Denied(BindingMismatch));
      }
      if row.revision != r.revision {
        return Some(Denied(RevisionConflict));
      }
      if row.state != Cleaning || intent.phase != IntentRequested {
        return Some(Denied(StateInvalid));
      }
      if (OfCleanup, r.request) in results {
        return Some(Denied(Constraint));
      }
      var quarantined := r.mismatch || r.observed != r.expected;
      if quarantined && !(r.worktree in leases && leases[r.worktree].phase == LeaseAllocated) {
        return Some(Denied(RevisionConflict));
      }
      denial := None;
    }

    /** The writes of `FailPhysicalCleanup` when the directory is not the one that was allocated. */
    method WriteCleanupQuarantined(r: CleanupEndRequest, stamp: Stamp)
      requires FailCleanup(Snapshot(), r, stamp).Committed? && (r.mismatch || r.observed != r.expected)
      modifies `allocations, `intents, `leases, `admission, `results, `events
      ensures Snapshot() == FailCleanup(old(Snapshot()), r, stamp).db
    {
      hide EventFor, FailCleanup;
      QuarantinedCleanupIs(Snapshot(), r, stamp);
      var row := allocations[r.worktree];
      intents, allocations, leases, results, admission :=
        intents[r.intent := intents[r.intent].(phase := IntentQuarantined)],
        allocations[r.worktree := row.(state := Quarantined, cleanup := CleanupFault, revision := row.revision + 1)],
        leases[r.worktree := leases[r.worktree].(phase := LeaseQuarantined)],
        results[(OfCleanup, r.request) := Result(r.digest, KindFailure, r.worktree)],
        Blocked;
      var e := NextEvent(r.worktree, CleanupQuarantined, stamp);
      events := events + [e];
    }

    /** Its writes when the cleanup merely failed: the quota lease stays allocated. */
    method WriteCleanupFailed(r: CleanupEndRequest, stamp: Stamp)
      requires FailCleanup(Snapshot(), r, stamp).Committed? && !(r.mismatch || r.observed != r.expected)
      modifies `allocations, `intents, `admission, `results, `events
      ensures Snapshot() == FailCleanup(old(Snapshot()), r, stamp).db
    {
      hide EventFor, Prior;
      var row := allocations[r.worktree];
      intents, allocations, results, admission :=
        intents[r.intent := intents[r.intent].(phase := IntentFailed)],
        allocations[r.worktree := row.(state := CleanupFailed, cleanup := CleanupFault, revision := row.revision + 1)],
        results[(OfCleanup, r.request) := Result(r.digest, KindFailure, r.worktree)],
        Blocked;
      var e := NextEvent(r.worktree, CleanupFailedEvent, stamp);
      events := events + [e];
    }

    /** `failPhysicalCleanup`: an identity mismatch quarantines, anything else leaves the cleanup failed. */
    method FailPhysicalCleanup(r: CleanupEndRequest, stamp: Stamp) returns (reply: Reply)
      modifies `allocations, `intents, `leases, `admission, `results, `events, `clock
      ensures var o := FailCleanup(old(Snapshot()), r, stamp);
              reply == ReplyOf(o) && Snapshot() == After(old(Snapshot()), o)
      ensures Transacted(r.worktree, reply, stamp, true, false)
    {
      ghost var db, now := Snapshot(), clock;
      hide FailCleanup, Inv, Onward, OneRow, IntegrityHolds;
      var denial := CheckFailPhysicalCleanup(r, stamp);
      if denial.Some? {
        return denial.value;
      }
      if r.mismatch || r.observed != r.expected {
        WriteCleanupQuarantined(r, stamp);
      } else {
        WriteCleanupFailed(r, stamp);
      }
      clock := stamp.at;
      if Inv(db, now) && now <= stamp.at {
        FailCleanupPromised(db, r, stamp, now);
      }
      reply := Ok;
    }

    /** The walk of `ownerEventsValid` along the log. */
    method CheckEvents() returns (valid: bool)
      ensures valid == OwnerEventsValid(events)
    {
      var previous := Zero;
      for i := 0 to |events|
        invariant OwnerEventsValid(events[..i]) && previous == LastDigest(events[..i])
      {
        var e := events[i];
        assert events[..i + 1][..i] == events[..i];
        if e.previous != previous || SourceDigest(e) != e.digest {
          InvalidStays(events, i + 1);
          return false;
        }
        previous := e.digest;
      }
      assert events[..|events|] == events;
      valid := true;
    }

    /**
     One row's transaction in the loop of `recover`: the row is quarantined and its quota lease
     closed; no repository that was held comes free, and no other row changes.
     */
    method Recover(w: Id, stamps: Stamps)
      requires w in allocations
      modifies `allocations, `events, `leases, `repositories
      ensures Snapshot() == RecoverRow(old(Snapshot()), w, stamps.first, stamps.second, stamps.third)
      ensures Recovered(old(Snapshot()), Snapshot(), w)
      ensures old(Valid()) && NeedsRecovery(old(allocations[w])) && w !in FailedImports(old(events)) ==>
                Valid() && FailedImports(events) == FailedImports(old(events))
    {
      ghost var db := Snapshot();
      RecoverTables(w, stamps);
      hide RecoverRow, Recovered, Inv, NeedsRecovery, FailedImports;
      RowRecovered(db, w, stamps);
      if Inv(db, clock) && NeedsRecovery(db.allocations[w]) && w !in FailedImports(db.events) {
        RecoverKeeps(db, w, stamps.first, stamps.second, stamps.third, clock);
      }
    }

    /** The updates of `Recover`. */
    method RecoverTables(w: Id, stamps: Stamps)
      requires w in allocations
      modifies `allocations, `events, `leases, `repositories
      ensures Snapshot() == RecoverRow(old(Snapshot()), w, stamps.first, stamps.second, stamps.third)
    {
      hide EventFor;
      var row := allocations[w];
      Reclassify(w, RecoveryRequired, row.cleanup, RecoveryStarted, stamps.first);
      Reclassify(w, Reconciling, row.cleanup, RecoveryClassified, stamps.second);
      Reclassify(w, Quarantined, CleanupFault, ResourceQuarantined, stamps.third);
      repositories := map i | i in repositories :: RecoveredLease(repositories[i], w);
      if w in leases && leases[w].phase in {LeaseActive, LeaseAllocated} {
        leases := leases[w := leases[w].(phase := LeaseQuarantined)];
      }
    }

    /** One of the three state updates of a recovery, and its event. */
    method Reclassify(w: Id, state: State, cleanup: CleanupState, name: EventName, stamp: Stamp)
      requires w in allocations
      modifies this`allocations, this`events
      ensures allocations == old(allocations)[w := Moved(old(allocations[w]), state, cleanup)]
      ensures events == Record(old(events), w, allocations[w], name, stamp)
    {
      var row := allocations[w];
      allocations := allocations[w := row.(state := state, cleanup := cleanup, revision := row.revision + 1)];
      var e := NextEvent(w, name, stamp);
      events := events + [e];
    }

    /** `assertIntegrity`: the log by a walk along it, then the rows and the leases. */
    method AssertIntegrity() returns (sound: bool)
      ensures sound == IntegrityHolds(Snapshot())
    {
      sound := CheckEvents();
      if sound {
        sound := ExecutionModeBindingsValid(Snapshot())
          && (forall w :: w in allocations && allocations[w].identity.Some? ==> PhysicalIdentityValid(allocations[w]))
          && QuotaProjectLeasesValid(Snapshot());
      }
    }

    /**
     `assertIntegrity` and `recover`: the rows selected at the beginning, each once, in some order.
     A registry in order starts exactly when no import was ever failed. Every row is then settled,
     every quota lease closed, and admission enabled exactly when there was nothing to recover.
     */
    method Start(draw: Id -> Stamps) returns (started: bool, order: seq<Id>)
      modifies `allocations, `events, `leases, `repositories, `admission
      ensures started == IntegrityHolds(old(Snapshot()))
      ensures !started ==> Snapshot() == old(Snapshot())
      ensures started ==> (forall w :: w in order <==> w in Selected(old(Snapshot()))) && NoneTwice(order)
      ensures started ==> (forall w :: w in order ==> w in old(Snapshot()).allocations)
      ensures started ==>
                Snapshot() == FinishRecovery(RecoverAll(old(Snapshot()).(admission := Recovering), order, draw),
                                             order != [])
      ensures old(Valid()) ==> Valid() && (started <==> FailedImports(old(events)) == {})
      ensures old(Valid()) && started ==>
                && (forall w :: w in allocations ==> Settled(allocations[w]))
                && (forall w :: w in leases ==> leases[w].phase !in {LeaseActive, LeaseAllocated})
                && (admission == Enabled <==> Selected(old(Snapshot())) == {})
    {
      hide IntegrityHolds, NeedsRecovery, RecoverAll, RecoverRow, Inv, Settled, FailedImports;
      order := [];
      ghost var before := Snapshot();
      started := AssertIntegrity();
      if started {
        var rows := Selected(Snapshot());
        admission := Recovering;
        order := RecoverRows(rows, draw);
        admission := if order != [] then Blocked else Enabled;
        if Inv(before, clock) {
          RecoverySettles(before, order, draw, clock);
        }
      }
      if Inv(before, clock) {
        IntegrityIff(before, clock);
      }
    }

    /** The loop of `recover`. */
    method RecoverRows(rows: set<Id>, draw: Id -> Stamps) returns (order: seq<Id>)
      requires rows <= allocations.Keys
      modifies `allocations, `events, `leases, `repositories
      ensures (forall w :: w in order <==> w in rows) && NoneTwice(order)
      ensures Snapshot() == RecoverAll(old(Snapshot()), order, draw)
    {
      hide RecoverRow, RecoverAll, Recovered, Inv, NeedsRecovery, FailedImports;
      order := [];
      ghost var before := Snapshot();
      RecoverNone(before, draw);
      var todo := rows;
      while todo != {}
        invariant todo <= rows && forall w :: w in order <==> w in rows - todo
        invariant NoneTwice(order)
        invariant Snapshot() == RecoverAll(before, order, draw)
        decreases |todo|
      {
        var w :| w in todo;
        assert w in RecoverAll(before, order, draw).allocations;
        Recover(w, draw(w));
        RecoverAllNext(before, order, w, draw);
        assert w !in order;
        order, todo := order + [w], todo - {w};
      }
    }
  }

  lemma RecoverNone(db: Db, draw: Id -> Stamps)
    ensures RecoverAll(db, [], draw) == db
  {
  }

  lemma {:induction false} InvalidStays(events: seq<Event>, n: nat)
    requires n <= |events| && !OwnerEventsValid(events[..n])
    ensures !OwnerEventsValid(events)
    decreases |events|
  {
    if n == |events| {
      assert events[..n] == events;
    } else {
      assert events[..|events| - 1][..n] == events[..n];
      InvalidStays(events[..|events| - 1], n);
    }
  }

  // The import controller --------------------------------------------------------------------------

  /** What the external importer answers. */
  datatype Imported = Refusal | Imported(commit: Id, ref: Id)

  datatype GovernedImport = GovernedImport(prepare: ImportRequest, complete: ImportEndRequest,
                                           failure: ImportEndRequest)

  /** The end request for an intent: its own id and token, at the revision the import was asked for. */
  function EndOf(db: Db, base: ImportEndRequest, g: GovernedImport, intent: Id, commit: Id, ref: Id): ImportEndRequest
    requires intent in db.imports
  {
    base.(intent := intent, worktree := g.prepare.worktree, revision := g.prepare.revision,
          binding := g.prepare.binding,
          candidate := g.prepare.candidate, token := db.imports[intent].token, commit := commit, ref := ref)
  }

  class ImportController {
    const registry: Registry
    /** The intents the external importer was run for. */
    var called: seq<Id>

    constructor (registry: Registry)
      ensures this.registry == registry && called == []
    {
      this.registry := registry;
      called := [];
    }

    /**
     `CandidateLifecycleController.import`, undisturbed by other requests: the intent is recorded
     first; only a new intent runs the importer; whatever goes wrong after that fails the import.
     */
    method Import(g: GovernedImport, intent: Id, token: Id, answer: Imported, first: Stamp, second: Stamp, third: Stamp)
      returns (done: bool)
      modifies this, registry
      ensures var db := old(registry.Snapshot());
              var o := PrepareImport(db, g.prepare, intent, token, first);
              && called == (if o.Committed? then old(called) + [intent] else old(called))
              && (o.Refuse? ==> registry.Snapshot() == db && !done)
              && (o.Replayed? ==>
                    var failure := FailImport(db, EndOf(db, g.failure, g, o.resource, "", ""), third);
                    registry.Snapshot() == After(db, failure) && !done)
              && (o.Committed? ==>
                    intent in o.db.imports
                    && var commit := if answer.Imported? then answer.commit else "";
                       var ref := if answer.Imported? then answer.ref else "";
                       var end := CompleteImport(o.db, EndOf(o.db, g.complete, g, intent, commit, ref), second);
                       var failure := FailImport(o.db, EndOf(o.db, g.failure, g, intent, "", ""), third);
                       if answer.Imported? && !end.Refuse? then registry.Snapshot() == After(o.db, end) && done
                       else registry.Snapshot() == After(o.db, failure) && !done)
    {
      hide FailImport, CompleteImport;
      var reply := registry.PrepareCandidateImport(g.prepare, intent, token, first);
      done := false;
      if reply.Ok? {
        called := called + [intent];
        if answer.Imported? {
          var end := registry.CompleteCandidateImport(EndOf(registry.Snapshot(), g.complete, g, intent, answer.commit,
                                                            answer.ref), second);
          if !end.Denied? {
            return true;
          }
        }
      }
      if !reply.Denied? {
        var failed := if reply.Again? then reply.resource else intent;
        var _ := registry.FailCandidateImport(EndOf(registry.Snapshot(), g.failure, g, failed, "", ""), third);
      }
    }
  }
}
