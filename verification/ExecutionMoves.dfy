/** How the parts of the invariant survive one row's change of state, whichever operation made it. */
module ExecutionMoves {
  import opened Wrappers
  import opened ExecutionTables
  import opened ExecutionTransactions
  import opened ExecutionInvariant

  // Events -------------------------------------------------------------------------------------

  lemma FailedAfter(events: seq<Event>, w: Id, a: Allocation, name: EventName, stamp: Stamp)
    ensures name != ImportQuarantined ==> FailedImports(Record(events, w, a, name, stamp)) == FailedImports(events)
    ensures name == ImportQuarantined ==>
              FailedImports(Record(events, w, a, name, stamp)) == FailedImports(events) + {w}
  {
    assert Record(events, w, a, name, stamp)[..|events|] == events;
    assert FailedImports(events) + {} == FailedImports(events);
  }

  lemma {:induction false} NoEvents(events: seq<Event>, w: Id)
    requires forall k :: 0 <= k < |events| ==> events[k].worktree != w
    ensures LastState(events, w) == None && FirstEvent(events, w) == None
  {
    if events != [] { NoEvents(events[..|events| - 1], w); }
  }

  lemma RowTracedAfter(events: seq<Event>, w: Id, b: Allocation, name: EventName, stamp: Stamp, v: Id)
    ensures v != w ==> LastState(Record(events, w, b, name, stamp), v) == LastState(events, v)
    ensures LastState(Record(events, w, b, name, stamp), w) == Some(b.state)
    ensures FirstEvent(events, v).Some? ==> FirstEvent(Record(events, w, b, name, stamp), v) == FirstEvent(events, v)
    ensures FirstEvent(events, w).None? ==>
              FirstEvent(Record(events, w, b, name, stamp), w) == Some(EventFor(events, w, b, name, stamp))
  {
    assert Record(events, w, b, name, stamp)[..|events|] == events;
  }

  /** An event along an allowed edge keeps table and log in agreement. */
  lemma TracedAfter(allocations: map<Id, Allocation>, events: seq<Event>, w: Id, b: Allocation, name: EventName,
      stamp: Stamp)
    requires Traced(allocations, events) && w in allocations
    requires b.mode == allocations[w].mode && b.authority == allocations[w].authority
    requires EdgeOk(allocations[w].state, name, b.state)
    ensures Traced(allocations[w := b], Record(events, w, b, name, stamp))
  {
    hide LastState, FirstEvent, RowTraced, EdgeOk, PathsOk, OwnerEventsValid, Record;
    var log, rows := Record(events, w, b, name, stamp), allocations[w := b];
    StateOfRow(events, w, allocations[w]);
    LogGrows(events, w, b, name, stamp, allocations[w].state);
    EventsStayKnown(allocations, events, w, b, name, stamp);
    forall v | v in rows ensures RowTraced(log, v, rows[v]) {
      RowTracedMove(events, w, allocations[w], b, name, stamp, v, rows[v]);
    }
  }

  lemma StateOfRow(events: seq<Event>, w: Id, a: Allocation)
    requires RowTraced(events, w, a)
    ensures LastState(events, w) == Some(a.state)
  {
  }

  lemma LogGrows(events: seq<Event>, w: Id, b: Allocation, name: EventName, stamp: Stamp, s: State)
    requires OwnerEventsValid(events) && PathsOk(events) && LastState(events, w) == Some(s) && EdgeOk(s, name, b.state)
    ensures var log := Record(events, w, b, name, stamp); OwnerEventsValid(log) && PathsOk(log)
  {
    hide LastState, EdgeOk;
    assert Record(events, w, b, name, stamp)[..|events|] == events;
  }

  lemma RowTracedMove(events: seq<Event>, w: Id, a: Allocation, b: Allocation, name: EventName, stamp: Stamp, v: Id,
      row: Allocation)
    requires RowTraced(events, w, a) && b.mode == a.mode && b.authority == a.authority
    requires v == w ==> row == b
    requires v != w ==> RowTraced(events, v, row)
    ensures RowTraced(Record(events, w, b, name, stamp), v, row)
  {
    hide LastState, FirstEvent, Record;
    RowTracedAfter(events, w, b, name, stamp, v);
    RowTracedAfter(events, w, b, name, stamp, w);
  }

  /** The admission of a new row starts its history. */
  lemma TracedNew(allocations: map<Id, Allocation>, events: seq<Event>, w: Id, b: Allocation, stamp: Stamp)
    requires Traced(allocations, events) && w !in allocations && b.state == Admitted
    ensures Traced(allocations[w := b], Record(events, w, b, AllocationRequested, stamp))
  {
    hide LastState, FirstEvent, RowTraced, EdgeOk, PathsOk, OwnerEventsValid, EventFor;
    var log, rows := Record(events, w, b, AllocationRequested, stamp), allocations[w := b];
    assert forall k :: 0 <= k < |events| ==> events[k].worktree != w;
    NoEvents(events, w);
    FirstOfWorktree(events, w, b, stamp);
    EventsStayKnown(allocations, events, w, b, AllocationRequested, stamp);
    hide Record;
    forall v | v in rows ensures RowTraced(log, v, rows[v]) {
      RowTracedNew(events, w, b, stamp, v, rows[v]);
    }
  }

  lemma FirstOfWorktree(events: seq<Event>, w: Id, b: Allocation, stamp: Stamp)
    requires OwnerEventsValid(events) && PathsOk(events) && LastState(events, w) == None && b.state == Admitted
    ensures var log := Record(events, w, b, AllocationRequested, stamp); OwnerEventsValid(log) && PathsOk(log)
  {
    hide LastState, EdgeOk;
    assert Record(events, w, b, AllocationRequested, stamp)[..|events|] == events;
  }

  lemma EventsStayKnown(allocations: map<Id, Allocation>, events: seq<Event>, w: Id, b: Allocation, name: EventName,
      stamp: Stamp)
    requires forall k :: 0 <= k < |events| ==> events[k].worktree in allocations
    ensures var log := Record(events, w, b, name, stamp);
            forall k :: 0 <= k < |log| ==> log[k].worktree in allocations[w := b]
  {
    var log := Record(events, w, b, name, stamp);
    forall k | 0 <= k < |log| ensures log[k].worktree in allocations[w := b] {
      if k < |events| { assert events[k].worktree in allocations; }
    }
  }

  lemma RowTracedNew(events: seq<Event>, w: Id, b: Allocation, stamp: Stamp, v: Id, a: Allocation)
    requires v != w ==> RowTraced(events, v, a)
    requires v == w ==> a == b && FirstEvent(events, w) == None
    ensures RowTraced(Record(events, w, b, AllocationRequested, stamp), v, a)
  {
    hide LastState, FirstEvent;
    RowTracedAfter(events, w, b, AllocationRequested, stamp, v);
  }

  // Rows ----------------------------------------------------------------------------------------

  lemma RowsAfter(allocations: map<Id, Allocation>, failed: set<Id>, w: Id, b: Allocation)
    requires RowsOk(allocations, failed) && RowOk(b, false) && w !in failed
    ensures RowsOk(allocations[w := b], failed)
  {
    hide RowOk;
  }

  // Leases ----------------------------------------------------------------------------------------

  /** A move between live states leaves the leases in order. */
  lemma LeasesMove(allocations: map<Id, Allocation>, intents: map<Id, Intent>, leases: map<Id, QuotaLease>,
      failed: set<Id>,
                   w: Id, b: Allocation)
    requires LeaseKeys(allocations, intents, leases) && LeaseRules(allocations, intents, leases, failed)
    requires w in allocations && Live(allocations[w].state) && Live(b.state) && b.project == allocations[w].project
    ensures LeaseKeys(allocations[w := b], intents, leases)
    ensures LeaseRules(allocations[w := b], intents, leases, failed)
  {
    hide LeaseRule, Live;
    var rows := allocations[w := b];
    forall v | v in leases ensures LeaseRule(v, leases[v], intents[leases[v].intent], rows[v], v in failed) {
      assert LeaseRule(v, leases[v], intents[leases[v].intent], allocations[v], v in failed);
      if v == w { LeaseRuleMove(w, leases[w], intents[leases[w].intent], allocations[w], b, w in failed); }
    }
  }

  lemma LeaseRuleMove(w: Id, q: QuotaLease, i: Intent, a: Allocation, b: Allocation, failed: bool)
    requires LeaseRule(w, q, i, a, failed) && Live(a.state) && Live(b.state) && b.project == a.project
    ensures LeaseRule(w, q, i, b, failed)
  {
  }

  /** Cleanup intents do not touch the leases. */
  lemma LeasesIgnoreCleanup(allocations: map<Id, Allocation>, intents: map<Id, Intent>, leases: map<Id, QuotaLease>,
                            failed: set<Id>, k: Id, i: Intent)
    requires LeaseKeys(allocations, intents, leases) && LeaseRules(allocations, intents, leases, failed)
    requires i.kind == ForCleanup && i.worktree in allocations && (k in intents ==> intents[k].kind == ForCleanup)
    ensures LeaseKeys(allocations, intents[k := i], leases)
    ensures LeaseRules(allocations, intents[k := i], leases, failed)
  {
    hide LeaseRule, Live;
    var notes := intents[k := i];
    forall v | v in leases ensures LeaseRule(v, leases[v], notes[leases[v].intent], allocations[v], v in failed) {
      assert LeaseRule(v, leases[v], intents[leases[v].intent], allocations[v], v in failed);
      IntentOfLease(allocations, intents, leases, failed, v);
    }
  }

  /** Row, lease and intent of one worktree change together, into agreement with each other. */
  lemma LeasesChange(allocations: map<Id, Allocation>, intents: map<Id, Intent>, leases: map<Id, QuotaLease>,
      failed: set<Id>,
                     w: Id, b: Allocation, q: QuotaLease, k: Id, i: Intent)
    requires LeaseKeys(allocations, intents, leases) && LeaseRules(allocations, intents, leases, failed)
    requires w in leases && w !in failed && q.intent == leases[w].intent
    requires k in intents && i.kind == intents[k].kind && i.worktree == intents[k].worktree
    requires i.kind == ForAllocation ==> k == q.intent
    requires LeaseRule(w, q, intents[k := i][q.intent], b, false)
    ensures LeaseKeys(allocations[w := b], intents[k := i], leases[w := q])
    ensures LeaseRules(allocations[w := b], intents[k := i], leases[w := q], failed)
  {
    hide LeaseRule, Live, LeaseKeys, LeaseRules;
    LeasesChangeKeys(allocations, intents, leases, failed, w, b, q, k, i);
    LeasesChangeRules(allocations, intents, leases, failed, w, b, q, k, i);
  }

  lemma LeasesChangeKeys(allocations: map<Id, Allocation>, intents: map<Id, Intent>, leases: map<Id, QuotaLease>,
      failed: set<Id>,
                         w: Id, b: Allocation, q: QuotaLease, k: Id, i: Intent)
    requires LeaseKeys(allocations, intents, leases) && LeaseRules(allocations, intents, leases, failed)
    requires w in leases && q.intent == leases[w].intent
    requires k in intents && i.kind == intents[k].kind && i.worktree == intents[k].worktree
    ensures LeaseKeys(allocations[w := b], intents[k := i], leases[w := q])
  {
    hide LeaseRules;
  }

  lemma LeasesChangeRules(allocations: map<Id, Allocation>, intents: map<Id, Intent>, leases: map<Id, QuotaLease>,
      failed: set<Id>,
                          w: Id, b: Allocation, q: QuotaLease, k: Id, i: Intent)
    requires LeaseKeys(allocations, intents, leases) && LeaseRules(allocations, intents, leases, failed)
    requires LeaseKeys(allocations[w := b], intents[k := i], leases[w := q])
    requires w in leases && w !in failed && q.intent == leases[w].intent
    requires k in intents && (i.kind == ForAllocation ==> k == q.intent) && i.kind == intents[k].kind
    requires LeaseRule(w, q, intents[k := i][q.intent], b, false)
    ensures LeaseRules(allocations[w := b], intents[k := i], leases[w := q], failed)
  {
    hide LeaseRule, Live;
    var rows, notes, held := allocations[w := b], intents[k := i], leases[w := q];
    IntentOfLease(allocations, intents, leases, failed, w);
    LeaseOfRow(allocations, intents, leases, failed, w, b);
    forall v | v in held ensures LeaseRule(v, held[v], notes[held[v].intent], rows[v], v in failed) {
      if v != w {
        assert LeaseRule(v, leases[v], intents[leases[v].intent], allocations[v], v in failed);
        IntentOfLease(allocations, intents, leases, failed, v);
      }
    }
  }

  lemma LeaseOfRow(allocations: map<Id, Allocation>, intents: map<Id, Intent>, leases: map<Id, QuotaLease>,
      failed: set<Id>,
                   w: Id, b: Allocation)
    requires LeaseKeys(allocations, intents, leases) && LeaseRules(allocations, intents, leases, failed) && w in leases
    ensures forall v :: v in allocations[w := b]
                        && (Live(allocations[w := b][v].state) || allocations[w := b][v].state == Cleaned) ==>
              v in leases
  {
  }

  lemma IntentOfLease(allocations: map<Id, Allocation>, intents: map<Id, Intent>, leases: map<Id, QuotaLease>,
      failed: set<Id>, v: Id)
    requires LeaseKeys(allocations, intents, leases) && LeaseRules(allocations, intents, leases, failed) && v in leases
    ensures intents[leases[v].intent].worktree == v && intents[leases[v].intent].kind == ForAllocation
  {
    hide Live;
    assert LeaseRule(v, leases[v], intents[leases[v].intent], allocations[v], v in failed);
  }

  /** A phase change keeps the issued projects. */
  lemma ProjectsKept(leases: map<Id, QuotaLease>, next: nat, w: Id, q: QuotaLease)
    requires ProjectsIssued(leases, next) && w in leases && q.project == leases[w].project
    ensures ProjectsIssued(leases[w := q], next)
  {
    var held := leases[w := q];
    forall p | FIRST_PROJECT <= p < next ensures Issued(held, p) {
      assert Issued(leases, p);
      var v :| v in leases && leases[v].project == p;
      assert held[v].project == p;
    }
  }

  /** A new lease takes the next project id. */
  lemma ProjectIssued(leases: map<Id, QuotaLease>, next: nat, w: Id, q: QuotaLease)
    requires ProjectsIssued(leases, next) && w !in leases && q.project == next && next <= LAST_PROJECT
    ensures ProjectsIssued(leases[w := q], next + 1)
  {
    var held := leases[w := q];
    forall p | FIRST_PROJECT <= p < next + 1 ensures Issued(held, p) {
      if p == next {
        assert held[w].project == p;
      } else {
        assert Issued(leases, p);
        var v :| v in leases && leases[v].project == p;
        assert held[v].project == p;
      }
    }
  }

  // Imports -----------------------------------------------------------------------------------------

  lemma ImportsMove(allocations: map<Id, Allocation>, imports: map<Id, ImportIntent>,
      repositories: map<Id, RepositoryLease>,
                    w: Id, b: Allocation)
    requires ImportsOk(allocations, imports, repositories) && w in allocations
               && b.repository == allocations[w].repository
    requires PastSeal(allocations[w].state) ==> PastSeal(b.state) && (b.state == Sealed ==>
                                                                        allocations[w].state == Sealed)
    ensures ImportsOk(allocations[w := b], imports, repositories)
  {
  }

  /** Fencing or releasing leases of rows that are no longer sealed keeps the holders apart. */
  lemma ImportsRelease(allocations: map<Id, Allocation>, imports: map<Id, ImportIntent>, notes: map<Id, ImportIntent>,
                       repositories: map<Id, RepositoryLease>, held: map<Id, RepositoryLease>)
    requires ImportsOk(allocations, imports, repositories) && held.Keys == repositories.Keys
               && notes.Keys == imports.Keys
    requires forall i :: i in imports ==> notes[i].worktree == imports[i].worktree
    requires forall i :: i in held ==>
               && held[i].worktree == repositories[i].worktree && held[i].repository == repositories[i].repository
               && (Holds(held[i]) ==> Holds(repositories[i]))
               && (held[i].phase == repositories[i].phase || allocations[imports[i].worktree].state != Sealed)
    ensures ImportsOk(allocations, notes, held)
  {
    hide Holds, PastSeal;
  }

  lemma ImportsNewRow(allocations: map<Id, Allocation>, imports: map<Id, ImportIntent>,
      repositories: map<Id, RepositoryLease>,
                      w: Id, b: Allocation)
    requires ImportsOk(allocations, imports, repositories) && w !in allocations
    ensures ImportsOk(allocations[w := b], imports, repositories)
  {
  }

  // Candidates --------------------------------------------------------------------------------------

  /** Results of other ledgers, and later retention results, do not undo a retention result. */
  lemma ResultsKept(db: Db, after: Db, k: (Ledger, Id), r: Result, c: Id)
    requires k !in db.results && after.results == db.results[k := r]
    ensures HasRetentionResult(db, c) ==> HasRetentionResult(after, c)
    ensures k.0 == OfRetention && r.resource == c ==> HasRetentionResult(after, c)
  {
    if HasRetentionResult(db, c) {
      var j :| j in db.results && j.0 == OfRetention && db.results[j].resource == c;
      assert after.results[j].resource == c;
    }
    if k.0 == OfRetention && r.resource == c { assert after.results[k].resource == c; }
  }

  /** Moves after which every candidate rule still holds. */
  predicate CandidateMove(s: State, t: State) {
    || !PastSeal(s) || s == t || t == Quarantined
    || (s == Sealed && t == CandidateImported) || (s == Cleaning && (t == Cleaned || t == CleanupFailed))
  }

  lemma RuleMoves(c: Candidate, s: State, t: State, recorded: bool, now: Time)
    requires CandidateRule(c, s, recorded, now) && CandidateMove(s, t)
    ensures CandidateRule(c, t, recorded, now)
  {
  }

  /** What a transaction may do to rows and results without touching the candidates. */
  predicate SameCandidates(db: Db, after: Db, w: Id) {
    && after.candidates == db.candidates && db.allocations.Keys <= after.allocations.Keys && w in after.allocations
    && (forall v :: v in db.allocations && v != w ==> after.allocations[v].state == db.allocations[v].state)
    && (forall c :: c in db.candidates && HasRetentionResult(db, c) ==> HasRetentionResult(after, c))
  }

  /** One row moves, the candidates stay. */
  lemma CandidatesMove(db: Db, after: Db, now: Time, later: Time, w: Id)
    requires CandidatesOk(db, now) && now <= later && SameCandidates(db, after, w)
    requires w in db.allocations ==> CandidateMove(db.allocations[w].state, after.allocations[w].state)
    ensures CandidatesOk(after, later)
  {
    hide CandidateRule, HasRetentionResult, CandidateMove;
    forall c | c in after.candidates
      ensures CandidateRule(after.candidates[c], after.allocations[after.candidates[c].worktree].state,
                HasRetentionResult(after, c), later)
    {
      var x, kept := db.candidates[c], HasRetentionResult(db, c);
      assert CandidateRule(x, db.allocations[x.worktree].state, kept, now);
      RuleOutlastsTime(x, db.allocations[x.worktree].state, kept, now, later);
      if x.worktree == w { RuleMoves(x, db.allocations[w].state, after.allocations[w].state, kept, later); }
      RuleIsMonotone(x, after.allocations[x.worktree].state, kept, HasRetentionResult(after, c), later);
    }
  }

  lemma RuleIsMonotone(c: Candidate, s: State, before: bool, after: bool, now: Time)
    requires before ==> after
    ensures CandidateRule(c, s, before, now) ==> CandidateRule(c, s, after, now)
  {
  }

  lemma RuleOutlastsTime(c: Candidate, s: State, recorded: bool, now: Time, later: Time)
    requires CandidateRule(c, s, recorded, now) && now <= later
    ensures CandidateRule(c, s, recorded, later)
  {
  }

  /** One candidate and its row change together, into agreement with each other. */
  lemma CandidateChange(db: Db, after: Db, now: Time, later: Time, w: Id, c: Id)
    requires CandidatesOk(db, now) && now <= later && w in db.allocations && c in after.candidates
    requires after.candidates == db.candidates[c := after.candidates[c]] && after.candidates[c].worktree == w
    requires c in db.candidates ==> db.candidates[c].worktree == w
    requires c !in db.candidates ==> forall d :: d in db.candidates ==> db.candidates[d].worktree != w
    requires SameCandidates(db, after.(candidates := db.candidates), w)
    requires CandidateRule(after.candidates[c], after.allocations[w].state, HasRetentionResult(after, c), later)
    ensures CandidatesOk(after, later)
  {
    hide CandidateRule, HasRetentionResult;
    forall d | d in after.candidates
      ensures after.candidates[d].worktree in after.allocations
      ensures CandidateRule(after.candidates[d], after.allocations[after.candidates[d].worktree].state,
                HasRetentionResult(after, d), later)
    {
      if d != c {
        var x, kept := db.candidates[d], HasRetentionResult(db, d);
        assert CandidateRule(x, db.allocations[x.worktree].state, kept, now);
        RuleOutlastsTime(x, db.allocations[x.worktree].state, kept, now, later);
        ResultsIgnoreCandidates(after, db.candidates, d);
        RuleIsMonotone(x, after.allocations[x.worktree].state, kept, HasRetentionResult(after, d), later);
      }
    }
  }

  lemma ResultsIgnoreCandidates(db: Db, candidates: map<Id, Candidate>, c: Id)
    ensures HasRetentionResult(db.(candidates := candidates), c) == HasRetentionResult(db, c)
  {
  }

  lemma ResultAdded(db: Db, after: Db, k: (Ledger, Id), r: Result)
    requires k !in db.results && after.results == db.results[k := r]
    ensures forall c :: c in db.candidates && HasRetentionResult(db, c) ==> HasRetentionResult(after, c)
  {
    forall c | c in db.candidates && HasRetentionResult(db, c) ensures HasRetentionResult(after, c) {
      ResultsKept(db, after, k, r, c);
    }
  }
}
