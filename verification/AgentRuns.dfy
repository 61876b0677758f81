/**
 Runs of the attempt registry. A start reads its parent, waits for its authorities, inserts the
 attempt, decides whether the child is allowed, and then goes on wait by wait until its session
 lives; observations of the session, cancels, timeouts and cleanups interleave with it. The
 process can crash after any step, and a start of the process recovers what was left under way.
 */
module AgentRuns {
  import opened Wrappers
  import opened AgentTables

  datatype StartRequest = StartRequest(role: Id, parent: Option<Id>, task: Id)

  /** The parent row a start read before it waited. */
  datatype Parent = Parent(id: Id, row: Attempt)

  datatype Waiting = Waiting(request: StartRequest, parent: Option<Parent>)

  /** How far the start of an inserted attempt has come, with the parent it read as long as it needs it. */
  datatype Stage =
    | Undecided(waiting: Waiting) | Passed(waiting: Waiting) | AtAdmission(waiting: Waiting) | AtAttachment | AtAdapter
    | AtSession | AtRegistration

  /**
   `Recovery`: the attempts found open, those still to do, the one of which only the first of two
   transitions is written, the one whose owners are asked, those proved clean, and how many were not.
   */
  datatype Status =
    | Down
    | Recovery(open: set<Id>, todo: set<Id>, begun: Option<Id>, current: Option<Id>, proved: set<Id>, residual: nat)
    | Up

  /**
   `sessions` are the attempts whose adapter session exists and may report, `live` those the process
   keeps as live, `cleaning` those being cleaned, with the code that is to be stored. `passed`
   collects, for the record, the attempts that passed their check; no step looks at it.
   */
  datatype System = System(
    db: Db, status: Status, admission: Admission, waiting: multiset<Waiting>, starts: map<Id, Stage>,
    sessions: set<Id>, live: set<Id>, cleaning: map<Id, Id>, passed: set<Id>)

  datatype Observed = ReadySeen | ActivitySeen | CompletedSeen | FailedSeen(code: Id)

  datatype Action =
    | AddRole(role: Id, contents: Role, stamp: Id)
    | Ask(request: StartRequest)
    | Insert(start: Waiting, mode: Mode, sequence: nat, operation: Operation, attempt: Id, stamp: Id)
    | Decide(candidate: Id, policy: bool, stamp: Id, code: Id)
    | Advance(starting: Id, stamp: Id)
    | FailStart(failing: Id, residue: bool, stamp: Id, code: Id)
    | Observe(session: Id, seen: Observed, stamp: Id)
    | Expire(late: Id, stamp: Id, code: Id)
    | Break(broken: Id, stamp: Id, code: Id)
    | Cancel(target: Id, byParent: bool, stamp: Id)
    | BeginClean(dirty: Id, final: Option<Id>, stamp: Id)
    | EndClean(done: Id, clean: bool, stamp: Id)
    | Crash
    | Start
    | BeginRecovery(row: Id, stamp: Id)
    | Reconcile(row: Id, stamp: Id)
    | EndRecovery(row: Id, clean: bool, stamp: Id)
    | FinishStart

  /** The code `transition` stores: while cleaning, what is stored stays unless a cancel escalates. */
  function NextCode(stored: Option<Id>, state: AttemptState, given: Option<Id>): Option<Id> {
    var escalated := stored == Some("CANCELLED") && given == Some("CANCEL_GRACE_EXPIRED");
    if state == Cleaning then if escalated then given else if stored.Some? then stored else given
    else if given.Some? then given else stored
  }

  /** `transition`: row, revisions and event in one transaction. */
  function Transition(db: Db, a: Id, state: AttemptState, given: Option<Id>, stamp: Id): Db
    requires a in db.attempts
  {
    var row := db.attempts[a];
    var code := NextCode(row.code, state, given);
    db.(attempts := db.attempts[a := row.(state := state, code := code, revision := row.revision + 1)],
        events := Record(db.events, stamp, Some(a), OfAttempt(state),
                         if code.Some? then code.value else "AGENT_OK", NoFields),
        revision := db.revision + 1)
  }

  /** `attachChild`. */
  function AttachChild(db: Db, parent: Id, child: Id, stamp: Id): Db
    requires parent in db.attempts
  {
    var row := db.attempts[parent];
    db.(attempts := db.attempts[parent := row.(children := row.children + 1, revision := row.revision + 1)],
        links := db.links + {(parent, child)},
        events := Record(db.events, stamp, Some(parent), ChildAttached, "AGENT_OK", Child(child)),
        revision := db.revision + 1)
  }

  /** The insertion of `startAttempt`. */
  function InsertAttempt(db: Db, w: Waiting, mode: Mode, sequence: nat, operation: Operation, a: Id, stamp: Id): Db {
    var root := if w.parent.Some? then w.parent.value.row.root else a;
    var parent := if w.parent.Some? then Some(w.parent.value.id) else None;
    var row := Attempt(|db.attempts|, root, parent, 1, w.request.task, mode, sequence, operation, w.request.role,
                       Requested, None, 0);
    db.(attempts := db.attempts[a := row],
        events := Record(db.events, stamp, Some(a), OfAttempt(Requested), "AGENT_OK",
                         Authority(mode, sequence, operation)),
        revision := db.revision + 1)
  }

  /** The mode the authority answered is a real one, fits the operation, and is the parent's. */
  predicate ModeFits(w: Waiting, mode: Mode, sequence: nat, operation: Operation) {
    && mode != UnknownMode && operation != UnknownOperation && !(operation == PrivateMutate && mode == Plan)
    && (w.parent.Some? ==> w.parent.value.row.mode == mode && w.parent.value.row.sequence == sequence
                           && w.parent.value.row.operation == operation)
  }

  /** States an attempt reaches on its way up, from its admission on. */
  predicate Running(s: AttemptState) { s in {Admitted, AdapterResolved, Registered, Starting, Ready, Active} }

  /** The decision on an inserted attempt; `policy` is the answer of the role policy. */
  ghost predicate Allowed(db: Db, w: Waiting, policy: bool) {
    && policy && w.request.role in db.roles
    && match w.parent
       case None => true
       case Some(p) =>
         exists rows :: IsPath(db.attempts, p.id, rows) && ChildAllowed(db, p.row, rows, w.request.role, w.request.task)
  }

  /** A transition of one attempt, when it is there. */
  function Write(s: System, a: Id, state: AttemptState, given: Option<Id>, stamp: Id): (t: System)
    ensures t == s.(db := t.db)
  {
    if a in s.db.attempts then s.(db := Transition(s.db, a, state, given, stamp)) else s
  }

  ghost function Step(s: System, a: Action): System {
    match a
    case Crash =>
      s.(status := Down, waiting := multiset{}, starts := map[], sessions := {}, live := {}, cleaning := map[])
    case Start =>
      if !s.status.Down? then s
      else if !Intact(s.db) then s.(admission := Blocked)
      else s.(admission := Recovering, status := Recovery(Open(s.db), Open(s.db), None, None, {}, 0))
    case BeginRecovery(id, stamp) =>
      if s.status.Recovery? && s.status.begun == None && s.status.current == None && id in s.status.todo then
        Write(s, id, RecoveryRequired, Some("RECOVERY_REQUIRED"), stamp).(status := s.status.(begun := Some(id)))
      else s
    case Reconcile(id, stamp) =>
      if s.status.Recovery? && s.status.begun == Some(id) then
        Write(s, id, Reconciling, None, stamp).(status := s.status.(begun := None, current := Some(id)))
      else s
    case EndRecovery(id, clean, stamp) =>
      if s.status.Recovery? && s.status.current == Some(id) then Classified(s, id, clean, stamp) else s
    case FinishStart =>
      if s.status.Recovery? && s.status.begun == None && s.status.current == None && s.status.todo == {}
      then s.(status := Up, admission := if s.status.residual > 0 then Blocked else Enabled) else s
    case AddRole(id, role, stamp) =>
      if !Listens(s) || id in s.db.roles then s
      else s.(db := s.db.(roles := s.db.roles[id := role], revision := s.db.revision + 1,
                          events := Record(s.db.events, stamp, None, RoleCreated, "AGENT_OK", OfRole(id))))
    case Cancel(id, byParent, stamp) => if Listens(s) then AfterCancel(s, id, byParent, stamp) else s
    case _ => if s.status.Up? then Serve(s, a) else s
  }

  /** Nothing comes between the two transitions that open the recovery of an attempt, but a crash. */
  predicate Listens(s: System) { !s.status.Down? && (s.status.Recovery? ==> s.status.begun == None) }

  /** The attempts a start has to recover. */
  function Open(db: Db): set<Id> {
    set a | a in db.attempts && !Terminal(db.attempts[a].state)
  }

  /** The end of one recovery: terminal, or left as a residual that is counted. */
  function Classified(s: System, id: Id, clean: bool, stamp: Id): System
    requires s.status.Recovery?
  {
    var done := s.status.(todo := s.status.todo - {id}, current := None);
    if clean then
      Write(s, id, RecoveredTerminal, Some("RECOVERY_REQUIRED"), stamp).(status := done.(proved := done.proved + {id}))
    else
      Write(s, id, UnverifiedResidual, Some("RESOURCE_IDENTITY_UNVERIFIED"), stamp)
      .(status := done.(residual := done.residual + 1))
  }

  /**
   A cancel, by a request or of a parent's children. What is not live is refused in place: the
   attempt is `cleaned` with the code for a recovery, whatever state it was in.
   */
  function AfterCancel(s: System, id: Id, byParent: bool, stamp: Id): System {
    if id !in s.db.attempts then s
    else if id !in s.live then
      if byParent then s else Write(s, id, Cleaned, Some("RECOVERY_REQUIRED"), stamp)
    else
      var state := s.db.attempts[id].state;
      if (if byParent then Terminal(state) || state == Cancelling
          else state in {CompletedObserved, FailedObserved, Cleaning})
      then s else Write(s, id, Cancelling, Some("CANCELLED"), stamp)
  }

  /** `cleanOwned`: the code that is to be stored in the end. */
  function Prior(stored: Option<Id>, final: Option<Id>): Id {
    if final == Some("CANCEL_GRACE_EXPIRED") then final.value
    else if stored.Some? then stored.value
    else if final.Some? then final.value else "AGENT_OK"
  }

  /** One more stage of a start that passed its check. */
  function NextStage(s: System, id: Id, stamp: Id): System
    requires id in s.starts && id in s.db.attempts
  {
    match s.starts[id]
    case Undecided(_) => s
    case Passed(w) => Write(s, id, Admitted, None, stamp).(starts := s.starts[id := AtAdmission(w)])
    case AtAdmission(_) =>
      var parent := s.db.attempts[id].parent;
      if parent.None? then s.(starts := s.starts[id := AtAttachment])
      else if parent.value !in s.db.attempts || (parent.value, id) in s.db.links then s
      else s.(db := AttachChild(s.db, parent.value, id, stamp), starts := s.starts[id := AtAttachment])
    case AtAttachment => Write(s, id, AdapterResolved, None, stamp).(starts := s.starts[id := AtAdapter])
    case AtAdapter => s.(sessions := s.sessions + {id}, starts := s.starts[id := AtSession])
    case AtSession => Write(s, id, Registered, None, stamp).(starts := s.starts[id := AtRegistration])
    case AtRegistration => Write(s, id, Starting, None, stamp).(starts := s.starts - {id}, live := s.live + {id})
  }

  /** `observe`: a session that reports ready is believed in any state, even after its end. */
  function AfterObservation(s: System, id: Id, seen: Observed, stamp: Id): System
    requires id in s.db.attempts
  {
    var state := s.db.attempts[id].state;
    match seen
    case ReadySeen => Write(s, id, Ready, None, stamp)
    case ActivitySeen => if state == Ready then Write(s, id, Active, None, stamp) else s
    case CompletedSeen => if Settling(state) then s else Write(s, id, CompletedObserved, Some("AGENT_OK"), stamp)
    case FailedSeen(code) => if Settling(state) then s else Write(s, id, FailedObserved, Some(code), stamp)
  }

  ghost function Serve(s: System, a: Action): System {
    match a
    case Ask(r) =>
      if s.admission != Enabled || r.role !in s.db.roles || (r.parent.Some? && r.parent.value !in s.db.attempts) then s
      else
        var parent := if r.parent.Some? then Some(Parent(r.parent.value, s.db.attempts[r.parent.value])) else None;
        s.(waiting := s.waiting + multiset{Waiting(r, parent)})
    case Insert(w, mode, sequence, operation, id, stamp) =>
      if w !in s.waiting || !ModeFits(w, mode, sequence, operation) || id in s.db.attempts then s
      else s.(db := InsertAttempt(s.db, w, mode, sequence, operation, id, stamp),
              waiting := s.waiting - multiset{w}, starts := s.starts[id := Undecided(w)])
    case Decide(id, policy, stamp, code) =>
      if id !in s.starts || !s.starts[id].Undecided? then s
      else if Allowed(s.db, s.starts[id].waiting, policy)
      then s.(starts := s.starts[id := Passed(s.starts[id].waiting)], passed := s.passed + {id})
      else Write(s, id, Cleaned, Some(code), stamp).(starts := s.starts - {id})
    case Advance(id, stamp) => if id in s.starts && id in s.db.attempts then NextStage(s, id, stamp) else s
    case FailStart(id, residue, stamp, code) =>
      if id !in s.starts || s.starts[id].Undecided? then s
      else if residue then
        Write(s, id, CleanupFailed, Some("CLEANUP_FAILED"), stamp).(starts := s.starts - {id}, admission := Blocked)
      else Write(s, id, Cleaned, Some(code), stamp).(starts := s.starts - {id})
    case Observe(id, seen, stamp) =>
      if id in s.sessions && id in s.db.attempts then AfterObservation(s, id, seen, stamp) else s
    case Expire(id, stamp, code) => if id in s.live then Write(s, id, TimedOut, Some(code), stamp) else s
    case Break(id, stamp, code) => if id in s.live then Write(s, id, FailedObserved, Some(code), stamp) else s
    case BeginClean(id, final, stamp) =>
      if id !in s.live || id in s.cleaning || id !in s.db.attempts then s
      else Write(s, id, Cleaning, final, stamp)
           .(cleaning := s.cleaning[id := Prior(s.db.attempts[id].code, final)])
    case EndClean(id, clean, stamp) =>
      if id !in s.cleaning then s
      else if clean then
        Write(s, id, Cleaned, Some(s.cleaning[id]), stamp).(cleaning := s.cleaning - {id}, live := s.live - {id})
      else
        Write(s, id, CleanupFailed, Some("CLEANUP_FAILED"), stamp)
        .(cleaning := s.cleaning - {id}, live := s.live - {id}, admission := Blocked)
    case _ => s
  }

  function Boot(): System {
    System(Db(map[], map[], {}, [], 0), Down, Recovering, multiset{}, map[], {}, {}, map[], {})
  }

  ghost function Run(actions: seq<Action>): System {
    if actions == [] then Boot() else Step(Run(actions[..|actions| - 1]), actions[|actions| - 1])
  }

  // Invariant -----------------------------------------------------------------------------------------

  /** Parents come before their children and share their root. */
  predicate Grounded(attempts: map<Id, Attempt>) {
    forall a :: a in attempts ==>
      && attempts[a].rank < |attempts|
      && match attempts[a].parent
         case None => attempts[a].root == a
         case Some(p) => p in attempts && attempts[p].rank < attempts[a].rank && attempts[p].root == attempts[a].root
  }

  predicate RowTraced(events: seq<Event>, a: Id, row: Attempt) {
    && CountOf(events, a) == row.revision && LastNamed(events, a) == Some(row.state)
    && row.mode != UnknownMode && row.operation != UnknownOperation
    && FirstEventValid(row, FirstOf(events, a))
  }

  predicate Traced(db: Db) {
    && Chained(db.events)
    && (forall a :: a in db.attempts ==> RowTraced(db.events, a, db.attempts[a]))
    && (forall k :: 0 <= k < |db.events| ==> db.events[k].attempt.None? || db.events[k].attempt.value in db.attempts)
  }

  /** The ids on the way to the root, the attempt itself first. */
  function Path(attempts: map<Id, Attempt>, a: Id): seq<Id>
    requires Grounded(attempts) && a in attempts
    decreases attempts[a].rank
  {
    [a] + match attempts[a].parent
          case None => []
          case Some(p) => Path(attempts, p)
  }

  /** What passing the check fixed about an attempt and its parent. */
  predicate PassedOk(db: Db, passed: set<Id>, a: Id)
    requires Grounded(db.attempts) && a in db.attempts
  {
    var row := db.attempts[a];
    && row.role in db.roles && row.root in passed
    && match row.parent
       case None => true
       case Some(p) =>
         && p in passed && db.attempts[p].role in db.roles
         && Contained(db.roles[row.role], db.roles[db.attempts[p].role])
         && |Path(db.attempts, p)| < 4
         && forall b :: b in Path(db.attempts, p) ==> b in db.attempts && db.attempts[b].role != row.role
  }

  ghost predicate TreeOk(db: Db, passed: set<Id>) {
    && Grounded(db.attempts)
    && (forall a :: a in passed ==> a in db.attempts && PassedOk(db, passed, a))
    && (forall a :: a in db.attempts && Running(db.attempts[a].state) ==> a in passed)
    && forall r :: |Under(db.attempts, r) * passed| <= 31
  }

  /** A captured parent row is still the row but for what transitions change. */
  predicate ParentOk(db: Db, passed: set<Id>, p: Parent) {
    && p.id in db.attempts
    && var row := db.attempts[p.id];
       row.root == p.row.root && row.role == p.row.role && (p.row.state in {Starting, Ready, Active} ==> p.id in passed)
  }

  predicate InsertedOk(db: Db, passed: set<Id>, id: Id, w: Waiting) {
    && id in db.attempts && db.attempts[id].role == w.request.role
    && match w.parent
       case None => db.attempts[id].parent == None
       case Some(p) =>
         && db.attempts[id].parent == Some(p.id) && ParentOk(db, passed, p)
         && db.attempts[id].root == p.row.root
  }

  /** A start beyond its check has passed it. */
  predicate StageOk(db: Db, passed: set<Id>, id: Id, stage: Stage) {
    match stage
    case Undecided(w) => InsertedOk(db, passed, id, w)
    case _ => id in passed
  }

  ghost predicate SystemOk(s: System) {
    && Traced(s.db) && TreeOk(s.db, s.passed)
    && (forall w :: w in s.waiting && w.parent.Some? ==> ParentOk(s.db, s.passed, w.parent.value))
    && (forall id :: id in s.starts ==> StageOk(s.db, s.passed, id, s.starts[id]))
    && s.sessions <= s.passed && s.live <= s.passed
  }
}
