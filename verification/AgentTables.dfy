/**
 The agent attempt registry: attempts in a tree under their roots, a digest chain of events that
 tells each attempt's history, and the authority checks a child has to pass.
 */
module AgentTables {
  import opened Wrappers

  type Id = string

  datatype AttemptState =
    | Requested | Admitted | AdapterResolved | Registered | Starting | Ready | Active | CompletedObserved
    | FailedObserved
    | Cancelling | TimedOut | Cleaning | Cleaned | CleanupFailed | RecoveryRequired | Reconciling | RecoveredTerminal
    | UnverifiedResidual

  datatype Mode = Plan | Build | Kogg | UnknownMode
  datatype Operation = Research | PrivateMutate | UnknownOperation

  /** What a role revision may do, and what it may hand to children. */
  datatype Role = Role(
    key: Id, capabilities: seq<Id>, tools: seq<Id>, providers: seq<Id>, models: seq<Id>, mayCreateChildren: bool,
    childRoleKeys: seq<Id>, maxChildDepth: nat, maxDirectChildren: nat)

  /** One row of `attempts`; `rank` is the order of insertion. */
  datatype Attempt = Attempt(
    rank: nat, root: Id, parent: Option<Id>, revision: nat, task: Id, mode: Mode, sequence: nat, operation: Operation,
    role: Id, state: AttemptState, code: Option<Id>, children: nat)

  datatype Kind = OfAttempt(state: AttemptState) | ChildAttached | RoleCreated
  datatype Fields =
    | NoFields | Authority(mode: Mode, sequence: nat, operation: Operation) | Child(child: Id) | OfRole(role: Id)

  datatype EventDigest =
    | Beginning
    | Hash(id: Id, attempt: Option<Id>, kind: Kind, code: Id, fields: Fields, previous: EventDigest)

  datatype Event = Event(id: Id, attempt: Option<Id>, kind: Kind, code: Id, fields: Fields, previous: EventDigest,
                         digest: EventDigest)

  datatype Db = Db(roles: map<Id, Role>, attempts: map<Id, Attempt>, links: set<(Id, Id)>, events: seq<Event>,
                   revision: nat)

  datatype Admission = Recovering | Blocked | Enabled

  predicate Terminal(s: AttemptState) { s in {Cleaned, CleanupFailed, RecoveredTerminal, UnverifiedResidual} }

  /** `settling`: no completion or failure is recorded from here on. */
  predicate Settling(s: AttemptState) {
    Terminal(s) || s in {CompletedObserved, FailedObserved, Cancelling, TimedOut, Cleaning, RecoveryRequired,
      Reconciling}
  }

  // The log --------------------------------------------------------------------------------------

  function LastDigest(events: seq<Event>): EventDigest {
    if events == [] then Beginning else events[|events| - 1].digest
  }

  function SourceDigest(e: Event): EventDigest { Hash(e.id, e.attempt, e.kind, e.code, e.fields, e.previous) }

  function Record(events: seq<Event>, id: Id, attempt: Option<Id>, kind: Kind, code: Id, fields: Fields): seq<Event> {
    var draft := Event(id, attempt, kind, code, fields, LastDigest(events), Beginning);
    events + [draft.(digest := SourceDigest(draft))]
  }

  predicate Chained(events: seq<Event>) {
    events == []
    || (var init, e := events[..|events| - 1], events[|events| - 1];
        Chained(init) && e.previous == LastDigest(init) && e.digest == SourceDigest(e))
  }

  /** How many events an attempt has. */
  function CountOf(events: seq<Event>, a: Id): nat {
    if events == [] then 0
    else CountOf(events[..|events| - 1], a) + if events[|events| - 1].attempt == Some(a) then 1 else 0
  }

  /** The state its latest `attempt.*` event names. */
  function LastNamed(events: seq<Event>, a: Id): Option<AttemptState> {
    if events == [] then None
    else
      var e := events[|events| - 1];
      if e.attempt == Some(a) && e.kind.OfAttempt? then Some(e.kind.state) else LastNamed(events[..|events| - 1], a)
  }

  /** Its first event. */
  function FirstOf(events: seq<Event>, a: Id): Option<Event> {
    if events == [] then None
    else
      var earlier := FirstOf(events[..|events| - 1], a);
      if earlier.Some? then earlier
      else if events[|events| - 1].attempt == Some(a) then Some(events[|events| - 1]) else None
  }

  // The tree -------------------------------------------------------------------------------------

  /** `rows` is the chain of parents from `a` up to an attempt without one, without repetition. */
  predicate IsPath(attempts: map<Id, Attempt>, a: Id, rows: seq<Id>) {
    && rows != [] && rows[0] == a
    && (forall i :: 0 <= i < |rows| ==> rows[i] in attempts)
    && (forall i :: 0 <= i < |rows| - 1 ==> attempts[rows[i]].parent == Some(rows[i + 1]))
    && attempts[rows[|rows| - 1]].parent == None
    && (forall i, j :: 0 <= i < j < |rows| ==> rows[i] != rows[j])
  }

  /** `modeAuthorityValid`. */
  predicate AuthorityValid(a: Attempt) {
    && (a.mode == UnknownMode ==> a.sequence == 0 && a.operation == UnknownOperation)
    && (a.mode != UnknownMode ==> a.operation != UnknownOperation)
  }

  /** `modeAuthorityEventValid`, on the attempt's first event. */
  predicate FirstEventValid(a: Attempt, first: Option<Event>) {
    && first.Some? && first.value.kind == OfAttempt(Requested)
    && first.value.fields == if a.mode == UnknownMode then NoFields else Authority(a.mode, a.sequence, a.operation)
  }

  /** One turn of the attempt loop of `assertIntegrity`. */
  ghost predicate AttemptIntact(db: Db, a: Id)
    requires a in db.attempts
  {
    var row := db.attempts[a];
    && CountOf(db.events, a) == row.revision
    && LastNamed(db.events, a) == Some(row.state)
    && (exists rows :: IsPath(db.attempts, a, rows) && rows[|rows| - 1] == row.root)
    && AuthorityValid(row)
    && FirstEventValid(row, FirstOf(db.events, a))
  }

  /** `assertIntegrity`, on a database whose file, roles and deadlines are sound. */
  ghost predicate Intact(db: Db) {
    Chained(db.events) && forall a :: a in db.attempts ==> AttemptIntact(db, a)
  }

  // Authority ---------------------------------------------------------------------------------------

  predicate Within(values: seq<Id>, grant: seq<Id>) { forall v :: v in values ==> v in grant }

  /** Nothing the child may use is outside what the parent may use. */
  predicate Contained(child: Role, parent: Role) {
    && Within(child.capabilities, parent.capabilities) && Within(child.tools, parent.tools)
    && Within(child.providers, parent.providers) && Within(child.models, parent.models)
  }

  function Least(a: nat, b: nat): nat { if a < b then a else b }

  /** How many attempts there are under a root. */
  function Under(attempts: map<Id, Attempt>, root: Id): set<Id> {
    set a | a in attempts && attempts[a].root == root
  }

  /**
   `requireChild`, on the parent row as it was read before an await and the database as it is now:
   `rows` is the path of that parent, `child` the role of the attempt that was just inserted.
   */
  predicate ChildAllowed(db: Db, parent: Attempt, rows: seq<Id>, child: Id, task: Id)
    requires child in db.roles && forall i :: 0 <= i < |rows| ==> rows[i] in db.attempts
  {
    && parent.state in {Starting, Ready, Active} && parent.task == task
    && parent.role in db.roles
    && db.roles[parent.role].mayCreateChildren && db.roles[child].key in db.roles[parent.role].childRoleKeys
    && Contained(db.roles[child], db.roles[parent.role])
    && |rows| < Least(4, db.roles[parent.role].maxChildDepth)
    && parent.children < Least(8, db.roles[parent.role].maxDirectChildren)
    && |Under(db.attempts, parent.root)| < 32
    && forall i :: 0 <= i < |rows| ==> db.attempts[rows[i]].role != child
  }
}
