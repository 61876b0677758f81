/** Runs that reach what the theorems about failed imports, retention and the lease check speak of. */
module ExecutionWitness {
  import opened Wrappers
  import opened ExecutionTables
  import opened ExecutionTransactions
  import opened ExecutionInvariant
  import opened ExecutionSystem
  import opened ExecutionTheorems
  import opened ExecutionFates

  const W: Id := "worktree"
  const STAMP: Stamp := Stamp("event", "ok", 0)

  /** Request ids of different lengths. */
  function Nth(n: nat): (id: Id)
    ensures |id| == n
  {
    seq(n, _ => 'r')
  }

  /** The lifecycle requests so far have shorter ids. */
  predicate Unused(db: Db, n: nat) {
    forall k :: k in db.results && k.0 == OfLifecycle ==> |k.1| < n
  }

  /** A running registry with one row, whose candidate was not imported yet. */
  predicate Moment(s: System, a: Allocation, n: nat) {
    && s.status == Up && s.db.admission == Enabled
    && s.db.allocations == map[W := a] && Unused(s.db, n)
    && (forall k :: k in s.db.results ==> k.0 != OfRetention)
    && s.db.candidates == map[] && s.db.imports == map[] && s.db.repositories == map[]
  }

  /** From its allocation on the row holds its project. */
  predicate HasProject(s: System) {
    W in s.db.leases && s.db.leases[W].phase == LeaseAllocated
  }

  /** The run goes on with one action. */
  lemma Then(now: Time, actions: seq<Action>, a: Action) returns (longer: seq<Action>)
    ensures longer == actions + [a] && Run(now, longer) == Step(Run(now, actions), a)
  {
    RunSplits(now, actions, a);
    longer := actions + [a];
  }

  // Starting an empty registry ---------------------------------------------------------------------

  lemma Started(now: Time) returns (actions: seq<Action>)
    ensures var s := Run(now, actions);
            s.status == Up && s.db == Fresh().(admission := Enabled)
  {
    hide IntegrityHolds, Step;
    actions := Then(now, [], Start);
    StartsEmpty(now);
    actions := Then(now, actions, FinishStart);
    FinishesEmpty(now);
  }

  lemma StartsEmpty(now: Time)
    ensures Step(Boot(now), Start) == Boot(now).(status := Recovery({}, false))
  {
    assert IntegrityHolds(Fresh());
    hide IntegrityHolds;
    assert Selected(Fresh()) == {};
  }

  lemma FinishesEmpty(now: Time)
    ensures Step(Boot(now).(status := Recovery({}, false)), FinishStart)
            == Boot(now).(status := Up, db := Fresh().(admission := Enabled))
  {
  }

  // The physical allocation ----------------------------------------------------------------------

  /** Asking and committing in a row. */
  lemma Asked(now: Time, actions: seq<Action>, p: Pending, commit: Action) returns (longer: seq<Action>)
    requires Run(now, actions).status.Up? && MayWait(Run(now, actions).db, p)
    ensures var s := Run(now, actions); Run(now, longer) == Step(s.(pending := s.pending + {p}), commit)
  {
    hide Run, MayWait, Step;
    AskWaits(Run(now, actions), p);
    longer := Then(now, actions, Action.Ask(p));
    longer := Then(now, longer, commit);
  }

  lemma AskWaits(s: System, p: Pending)
    requires s.status.Up? && MayWait(s.db, p)
    ensures Step(s, Action.Ask(p)) == s.(pending := s.pending + {p})
  {
    hide MayWait;
  }

  const RESERVE := ReserveRequest("reserve", "d", "run", "repository", "binding", "details")
  const ADMITTED := Allocation("run", "repository", "binding", "details", Build, 1, Admitted, Required, 1, None, None,
                               None)

  lemma MayReserve(db: Db)
    requires db == Fresh().(admission := Enabled)
    ensures MayWait(db, AwaitReserve(RESERVE))
  {
  }

  lemma ReserveStep(s: System)
    requires s.status == Up && s.db == Fresh().(admission := Enabled) && AwaitReserve(RESERVE) in s.pending
    ensures var t := Step(s, CommitReserveOf(RESERVE, Build, 1, W, STAMP));
            Moment(t, ADMITTED, 0) && t.db.leases == map[] && t.db.intents == map[] && t.db.next == FIRST_PROJECT
            && t.db.results.Keys == {(OfReserve, "reserve")}
  {
    hide EventFor;
  }

  /** A run that reserves the row. */
  lemma Reserved(now: Time) returns (actions: seq<Action>)
    ensures var s := Run(now, actions);
            Moment(s, ADMITTED, 0) && s.db.leases == map[] && s.db.intents == map[] && s.db.next == FIRST_PROJECT
            && s.db.results.Keys == {(OfReserve, "reserve")}
  {
    hide Run, Step, MayWait, Moment;
    actions := Started(now);
    MayReserve(Run(now, actions).db);
    var s := Run(now, actions);
    actions := Asked(now, actions, AwaitReserve(RESERVE), CommitReserveOf(RESERVE, Build, 1, W, STAMP));
    ReserveStep(s.(pending := s.pending + {AwaitReserve(RESERVE)}));
  }

  const PREPARE := PrepareRequest("prepare", "d", W, 1, "binding", "tools")
  const RECORD := RecordRequest("record", "d", "intent", W, 1, "binding", "details", "token", "tools", FIRST_PROJECT,
                                "identity")
  const ALLOCATED := Moved(ADMITTED, Allocated, Required).(identity := Some("identity"), project := Some(FIRST_PROJECT),
                           tools := Some("tools"))

  lemma PrepareStep(s: System)
    requires Moment(s, ADMITTED, 0) && s.db.leases == map[] && s.db.intents == map[] && s.db.next == FIRST_PROJECT
    requires s.db.results.Keys == {(OfReserve, "reserve")}
    ensures MayWait(s.db, AwaitPrepare(PREPARE))
    ensures AwaitPrepare(PREPARE) in s.pending ==>
              var t := Step(s, CommitPrepareOf(PREPARE, "intent", "token", STAMP));
              && Moment(t, ADMITTED, 0) && t.db.leases == map[W := QuotaLease(FIRST_PROJECT, "intent", LeaseActive)]
              && t.db.intents == map["intent" := Intent(W, ForAllocation, IntentRequested, "token", None,
                                                        Some("tools"))]
              && (forall k :: k in t.db.results ==> k.0 in {OfReserve, OfPrepare})
  {
    hide EventFor;
  }

  lemma RecordStep(s: System)
    requires Moment(s, ADMITTED, 0) && s.db.leases == map[W := QuotaLease(FIRST_PROJECT, "intent", LeaseActive)]
    requires s.db.intents == map["intent" := Intent(W, ForAllocation, IntentRequested, "token", None, Some("tools"))]
    requires forall k :: k in s.db.results ==> k.0 in {OfReserve, OfPrepare}
    ensures MayWait(s.db, AwaitRecord(RECORD))
    ensures AwaitRecord(RECORD) in s.pending ==>
              var t := Step(s, CommitRecordOf(RECORD, STAMP)); Moment(t, ALLOCATED, 0) && HasProject(t)
  {
    hide EventFor;
  }

  lemma MomentWaits(s: System, a: Allocation, n: nat, p: Pending)
    requires Moment(s, a, n)
    ensures s.status.Up? && Moment(s.(pending := s.pending + {p}), a, n)
  {
  }

  /** A run that allocates it. */
  lemma Allocates(now: Time) returns (actions: seq<Action>)
    ensures Moment(Run(now, actions), ALLOCATED, 0) && HasProject(Run(now, actions))
  {
    hide Run, Step, MayWait, Moment, HasProject;
    actions := Reserved(now);
    var s := Run(now, actions);
    MomentWaits(s, ADMITTED, 0, AwaitPrepare(PREPARE));
    PrepareStep(s);
    PrepareStep(s.(pending := s.pending + {AwaitPrepare(PREPARE)}));
    actions := Asked(now, actions, AwaitPrepare(PREPARE), CommitPrepareOf(PREPARE, "intent", "token", STAMP));
    s := Run(now, actions);
    MomentWaits(s, ADMITTED, 0, AwaitRecord(RECORD));
    RecordStep(s);
    RecordStep(s.(pending := s.pending + {AwaitRecord(RECORD)}));
    actions := Asked(now, actions, AwaitRecord(RECORD), CommitRecordOf(RECORD, STAMP));
  }

  // Execution, seal and import -----------------------------------------------------------------------

  function AdvanceTo(a: Allocation, n: nat, next: State): Action {
    DoAdvance(AdvanceRequest(Nth(n), "d", W, a.revision, a.binding, next), STAMP)
  }

  lemma AdvanceStep(s: System, a: Allocation, n: nat, next: State)
    requires Moment(s, a, n) && HasProject(s) && ControllerEdge(a.state, next)
    ensures var t := Step(s, AdvanceTo(a, n, next));
            Moment(t, Moved(a, next, a.cleanup), n + 1) && HasProject(t)
  {
    hide EventFor;
  }

  const EXECUTING := ALLOCATED.(state := Executing, revision := 7)
  const STOPPING := ALLOCATED.(state := Stopping, revision := 8)

  /** A run that takes the row into execution, along the edges the controller asks for. */
  lemma Executes(now: Time) returns (actions: seq<Action>)
    ensures Moment(Run(now, actions), EXECUTING, 5) && HasProject(Run(now, actions))
  {
    hide Run, Step, Moment, HasProject, AdvanceTo;
    actions := Allocates(now);
    var states := [Allocated, Seeding, Verified, Ready, State.Leased, Executing];
    var n := 0;
    while n < 5
      invariant n <= 5
      invariant var a := ALLOCATED.(state := states[n], revision := n + 2);
                Moment(Run(now, actions), a, n) && HasProject(Run(now, actions))
    {
      var a := ALLOCATED.(state := states[n], revision := n + 2);
      AdvanceStep(Run(now, actions), a, n, states[n + 1]);
      actions := Then(now, actions, AdvanceTo(a, n, states[n + 1]));
      n := n + 1;
    }
  }

  /** And one that stops it. */
  lemma Stops(now: Time) returns (actions: seq<Action>)
    ensures Moment(Run(now, actions), STOPPING, 6) && HasProject(Run(now, actions))
  {
    hide Run, Step, Moment, HasProject, AdvanceTo;
    actions := Executes(now);
    AdvanceStep(Run(now, actions), EXECUTING, 5, Stopping);
    actions := Then(now, actions, AdvanceTo(EXECUTING, 5, Stopping));
  }

  const SEAL := SealRequest(Nth(6), "d", W, 8, "binding", "candidate", "commit", true, 100)
  const SEALED := Moved(STOPPING, Sealed, Required)
  const IMPORT := ImportRequest(Nth(7), "d", W, 9, "binding", "candidate")

  /** A sealed row with an open import. */
  predicate Importing(s: System) {
    && s.status == Up && s.db.admission == Enabled
    && s.db.allocations == map[W := SEALED] && Unused(s.db, 8)
    && (forall k :: k in s.db.results ==> k.0 != OfRetention)
    && s.db.candidates == map["candidate" := Candidate(W, "commit", PendingEvidence, 100, None)]
    && s.db.imports == map["import" := ImportIntent(W, "candidate", "token", IntentRequested)]
    && s.db.repositories == map["import" := RepositoryLease("repository", W, "token", RepositoryActive)]
  }

  predicate SealedWith(s: System) {
    && s.status == Up && s.db.admission == Enabled
    && s.db.allocations == map[W := SEALED] && Unused(s.db, 7)
    && (forall k :: k in s.db.results ==> k.0 != OfRetention)
    && s.db.candidates == map["candidate" := Candidate(W, "commit", PendingEvidence, 100, None)]
    && s.db.imports == map[] && s.db.repositories == map[]
  }

  lemma SealStep(s: System)
    requires Moment(s, STOPPING, 6)
    ensures SealedWith(Step(s, DoSeal(SEAL, STAMP)))
  {
    hide EventFor;
  }

  lemma ImportStep(s: System)
    requires SealedWith(s)
    ensures Importing(Step(s, DoPrepareImport(IMPORT, "import", "token", STAMP)))
  {
    hide EventFor;
  }

  /** A run that reaches a sealed row with an open import. */
  lemma Imports(now: Time) returns (actions: seq<Action>)
    ensures Importing(Run(now, actions))
  {
    hide Run, Step, Moment, SealedWith, Importing;
    actions := Stops(now);
    SealStep(Run(now, actions));
    actions := Then(now, actions, DoSeal(SEAL, STAMP));
    ImportStep(Run(now, actions));
    actions := Then(now, actions, DoPrepareImport(IMPORT, "import", "token", STAMP));
  }

  // What the theorems speak of ---------------------------------------------------------------------

  const CANCEL := AdvanceRequest(Nth(5), "d", W, 7, "binding", Cancelled)

  /** An execution is reachable whose cancellation the controller asks for and the table refuses. */
  lemma CancelIsRefused(now: Time) returns (actions: seq<Action>)
    ensures var s := Run(now, actions);
            && s.status.Up? && FitsRow(s.db, CANCEL)
            && s.db.allocations[CANCEL.worktree].state == Executing && CANCEL.next == Cancelled
            && Advance(s.db, CANCEL, At(s, STAMP)) == Refuse(StateInvalid)
            && Run(now, actions + [DoAdvance(CANCEL, STAMP)]) == s
  {
    hide Run, Step, Moment, HasProject;
    actions := Executes(now);
    CancelFits(Run(now, actions));
    var _ := Then(now, actions, DoAdvance(CANCEL, STAMP));
  }

  lemma CancelFits(s: System)
    requires Moment(s, EXECUTING, 5)
    ensures FitsRow(s.db, CANCEL) && s.status.Up? && s.db.allocations[CANCEL.worktree].state == Executing
    ensures Advance(s.db, CANCEL, At(s, STAMP)) == Refuse(StateInvalid) && Step(s, DoAdvance(CANCEL, STAMP)) == s
  {
    hide Record;
  }

  const END := ImportEndRequest(Nth(8), "d", "import", W, 9, "binding", "candidate", "token", "commit", "ref")

  lemma FailCommits(s: System, stamp: Stamp)
    requires Importing(s)
    ensures FailImport(s.db, END, stamp).Committed?
  {
    hide EventFor;
    assert ImportOpen(s.db, END) && Prior(s.db, OfLifecycle, KindState, END.request, END.digest).None?;
  }

  lemma FailLogs(db: Db, r: ImportEndRequest, stamp: Stamp)
    requires FailImport(db, r, stamp).Committed?
    ensures var events := FailImport(db, r, stamp).db.events;
            |events| > 0 && events[|events| - 1].name == ImportQuarantined
  {
    hide Prior, ImportOpen, LastDigest;
  }

  lemma FailSettles(s: System)
    requires s.status.Up? && FailImport(s.db, END, At(s, STAMP)).Committed?
    ensures Step(s, DoFailImport(END, STAMP)).db == FailImport(s.db, END, At(s, STAMP)).db
  {
    hide FailImport;
  }

  /** A failed import is reachable, and the process that recorded it does not start again. */
  lemma FailedImportHappens(now: Time) returns (actions: seq<Action>)
    ensures var events := Run(now, actions).db.events;
            exists k :: 0 <= k < |events| && events[k].name == ImportQuarantined
    ensures Run(now, actions + [Crash, Start]).status.Down?
  {
    hide *;
    actions := Imports(now);
    var s := Run(now, actions);
    FailCommits(s, At(s, STAMP));
    FailLogs(s.db, END, At(s, STAMP));
    ImportingIsUp(s);
    FailSettles(s);
    actions := Then(now, actions, DoFailImport(END, STAMP));
    s := Run(now, actions);
    assert s.db.events[|s.db.events| - 1].name == ImportQuarantined;
    NeverStartsAfterFailedImport(now, actions, [Crash]);
    var crashed := Then(now, actions, Crash);
    CrashGoesDown(s);
    var _ := Then(now, crashed, Start);
    assert actions + [Crash, Start] == crashed + [Start];
  }

  lemma ImportingIsUp(s: System)
    requires Importing(s)
    ensures s.status.Up?
  {
  }

  lemma CrashGoesDown(s: System)
    ensures Step(s, Crash).status.Down?
  {
  }

  const KEEP := RetentionRequest("retention", "d", W, 9, "binding", "candidate", Completed)

  lemma RetentionStep(s: System, stamp: Stamp)
    requires Importing(s)
    ensures RecordRetention(s.db, KEEP, stamp).Committed?
  {
    hide EventFor;
  }

  /** A retention that commits beside an open import is reachable; its repository is held for good. */
  lemma {:induction false} RetentionStrandsOpenImport(now: Time, more: seq<Action>)
      returns (actions: seq<Action>, i: Id)
    ensures var s := Run(now, actions);
            && s.status.Up? && RecordRetention(s.db, KEEP, At(s, STAMP)).Committed?
            && i in s.db.imports && s.db.imports[i].worktree == KEEP.worktree
              && s.db.imports[i].phase == IntentRequested
    ensures var t := Run(now, actions + [DoRetention(KEEP, STAMP)] + more);
            i in t.db.repositories && Holds(t.db.repositories[i])
  {
    hide Run;
    actions := Imports(now);
    i := "import";
    RetentionStep(Run(now, actions), At(Run(now, actions), STAMP));
    hide RecordRetention;
    RetentionStrandsImport(now, actions, KEEP, STAMP, more, i, END.(intent := i), STAMP);
  }

  /** A raw request of `advance` that commits and breaks the lease check is reachable. */
  lemma AdvanceCanBreakLeases(now: Time) returns (actions: seq<Action>, r: AdvanceRequest)
    ensures var db := Run(now, actions).db;
            QuotaProjectLeasesValid(db) && Advance(db, r, STAMP).Committed?
            && !QuotaProjectLeasesValid(Advance(db, r, STAMP).db)
  {
    hide *;
    actions := Allocates(now);
    r := AdvanceRequest(Nth(0), "d", W, 2, "binding", Quarantined);
    var s := Run(now, actions);
    RunIsOk(now, actions);
    PartsOf(s);
    MomentIsFaultless(s, ALLOCATED, 0);
    IntegrityIff(s.db, s.now);
    RawAdvance(s, r);
    AdvanceBreaksLeasesIff(s.db, r, STAMP, s.now);
  }

  lemma MomentIsFaultless(s: System, a: Allocation, n: nat)
    requires SystemOk(s) && Moment(s, a, n)
    ensures FailedImports(s.db.events) == {}
  {
    hide Inv, ImportLogOk, PendingOk;
  }

  lemma RawAdvance(s: System, r: AdvanceRequest)
    requires Moment(s, ALLOCATED, 0) && HasProject(s) && r == AdvanceRequest(Nth(0), "d", W, 2, "binding", Quarantined)
    ensures Prior(s.db, OfLifecycle, KindState, r.request, r.digest).None? && Advance(s.db, r, STAMP).Committed?
    ensures r.worktree in s.db.leases
  {
    hide EventFor;
  }

  /**
   So is a running registry on whose database the commit of `preparePhysicalAllocation` breaks it:
   a continuation would meet it that outlived a stop and a start.
   */
  lemma PrepareCanBreakLeases(now: Time) returns (actions: seq<Action>)
    ensures var s := Run(now, actions);
            && s.status.Up? && QuotaProjectLeasesValid(s.db)
            && CommitPrepare(s.db, PREPARE, "intent", "token", STAMP).Committed?
            && !QuotaProjectLeasesValid(CommitPrepare(s.db, PREPARE, "intent", "token", STAMP).db)
  {
    hide *;
    actions := Recovered(now);
    var s := Run(now, actions);
    RunIsOk(now, actions);
    PartsOf(s);
    IntegrityIff(s.db, s.now);
    PrepareKeepsLeasesIff(s.db, PREPARE, "intent", "token", STAMP, s.now);
    var db := s.db;
    actions := Then(now, actions, FinishStart);
    Finishes(s);
    LeasesIgnoreAdmission(db, Run(now, actions).db);
  }

  lemma PartsOf(s: System)
    requires SystemOk(s)
    ensures Inv(s.db, s.now) && (s.status.Recovery? ==> FailedImports(s.db.events) == {})
    ensures s.status.Up? && s.db.admission == Enabled ==> FailedImports(s.db.events) == {}
  {
    hide Inv, ImportLogOk, PendingOk;
  }

  /** A run to the end of the recovery of a row that was only reserved. */
  lemma Recovered(now: Time) returns (actions: seq<Action>)
    ensures var s := Run(now, actions);
            && s.status.Recovery? && s.status.todo == {}
            && CommitPrepare(s.db, PREPARE, "intent", "token", STAMP).Committed?
            && PREPARE.worktree in s.db.allocations && s.db.allocations[PREPARE.worktree].state == Quarantined
  {
    hide Run, Step, Moment, IntegrityHolds, CommitPrepare, SystemOk;
    actions := Reserved(now);
    var s := Run(now, actions);
    RunIsOk(now, actions);
    MomentIsFaultless(s, ADMITTED, 0);
    PartsOf(s);
    IntegrityIff(s.db, s.now);
    RestartSteps(s);
    actions := Then(now, actions, Crash);
    actions := Then(now, actions, Start);
    actions := Then(now, actions, RecoverOne(W, STAMP, STAMP, STAMP));
  }

  /** A row that was only reserved is quarantined by the next start, without a lease. */
  lemma RestartSteps(s: System)
    requires Moment(s, ADMITTED, 0) && s.db.leases == map[] && s.db.intents == map[] && s.db.next == FIRST_PROJECT
    requires s.db.results.Keys == {(OfReserve, "reserve")} && IntegrityHolds(s.db)
    ensures var t := Step(Step(Step(s, Crash), Start), RecoverOne(W, STAMP, STAMP, STAMP));
            && t.status.Recovery? && t.status.todo == {}
            && CommitPrepare(t.db, PREPARE, "intent", "token", STAMP).Committed?
            && W in t.db.allocations && t.db.allocations[W].state == Quarantined
  {
    hide IntegrityHolds, EventFor;
    assert Selected(s.db) == {W};
  }

  lemma Finishes(s: System)
    requires s.status.Recovery? && s.status.todo == {}
    ensures var t := Step(s, FinishStart); t.status.Up? && t.db == s.db.(admission := t.db.admission)
  {
  }

  /** Neither the lease check nor the commit looks at the admission. */
  lemma LeasesIgnoreAdmission(db: Db, after: Db)
    requires after == db.(admission := after.admission)
    ensures QuotaProjectLeasesValid(after) == QuotaProjectLeasesValid(db)
    ensures var c, d := CommitPrepare(db, PREPARE, "intent", "token", STAMP),
              CommitPrepare(after, PREPARE, "intent", "token", STAMP);
            && c.Committed? == d.Committed?
            && (c.Committed? ==> QuotaProjectLeasesValid(d.db) == QuotaProjectLeasesValid(c.db))
  {
    hide Record;
  }
}
