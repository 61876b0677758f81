/** What holds of the attempt registry over every run, with crashes after any commit. */
module AgentTheorems {
  import opened Wrappers
  import opened AgentTables
  import opened AgentRuns

  // The log ------------------------------------------------------------------------------------------

  lemma AfterRecord(events: seq<Event>, id: Id, attempt: Option<Id>, kind: Kind, code: Id, fields: Fields, v: Id)
    ensures var log := Record(events, id, attempt, kind, code, fields);
      && CountOf(log, v) == CountOf(events, v) + (if attempt == Some(v) then 1 else 0)
      && LastNamed(log, v) == (if attempt == Some(v) && kind.OfAttempt? then Some(kind.state) else LastNamed(events, v))
      && (FirstOf(events, v).Some? ==> FirstOf(log, v) == FirstOf(events, v))
      && (FirstOf(events, v).None? && attempt == Some(v) ==>
            FirstOf(log, v).Some? && FirstOf(log, v).value.kind == kind && FirstOf(log, v).value.fields == fields)
  {
    assert Record(events, id, attempt, kind, code, fields)[..|events|] == events;
  }

  lemma ChainedAfter(events: seq<Event>, id: Id, attempt: Option<Id>, kind: Kind, code: Id, fields: Fields)
    requires Chained(events)
    ensures Chained(Record(events, id, attempt, kind, code, fields))
  {
    assert Record(events, id, attempt, kind, code, fields)[..|events|] == events;
  }

  lemma {:induction false} NoEvents(events: seq<Event>, a: Id)
    requires forall k :: 0 <= k < |events| ==> events[k].attempt != Some(a)
    ensures CountOf(events, a) == 0 && LastNamed(events, a) == None && FirstOf(events, a) == None
  {
    if events != [] { NoEvents(events[..|events| - 1], a); }
  }

  /** The rows an event leaves alone, and the one it is about. */
  lemma TracedAfter(db: Db, after: Db, id: Id, attempt: Option<Id>, kind: Kind, code: Id, fields: Fields)
    requires Traced(db) && after.events == Record(db.events, id, attempt, kind, code, fields)
    requires db.attempts.Keys <= after.attempts.Keys && (attempt.Some? ==> attempt.value in after.attempts)
    requires forall v :: v in after.attempts && attempt != Some(v) ==>
               v in db.attempts && after.attempts[v] == db.attempts[v]
    requires attempt.Some? ==> RowTraced(after.events, attempt.value, after.attempts[attempt.value])
    ensures Traced(after)
  {
    hide RowTraced, Chained, Record;
    ChainedAfter(db.events, id, attempt, kind, code, fields);
    forall v | v in after.attempts ensures RowTraced(after.events, v, after.attempts[v]) {
      if attempt != Some(v) { RowStays(db.events, id, attempt, kind, code, fields, v, db.attempts[v]); }
    }
    EventsKnown(db, after, id, attempt, kind, code, fields);
  }

  lemma RowStays(events: seq<Event>, id: Id, attempt: Option<Id>, kind: Kind, code: Id, fields: Fields, v: Id,
      row: Attempt)
    requires RowTraced(events, v, row) && attempt != Some(v)
    ensures RowTraced(Record(events, id, attempt, kind, code, fields), v, row)
  {
    hide CountOf, LastNamed, FirstOf;
    AfterRecord(events, id, attempt, kind, code, fields, v);
  }

  lemma EventsKnown(db: Db, after: Db, id: Id, attempt: Option<Id>, kind: Kind, code: Id, fields: Fields)
    requires after.events == Record(db.events, id, attempt, kind, code, fields)
               && db.attempts.Keys <= after.attempts.Keys
    requires attempt.Some? ==> attempt.value in after.attempts
    requires forall k :: 0 <= k < |db.events| ==>
               db.events[k].attempt.None? || db.events[k].attempt.value in db.attempts
    ensures forall k :: 0 <= k < |after.events| ==>
              after.events[k].attempt.None? || after.events[k].attempt.value in after.attempts
  {
    forall k | 0 <= k < |after.events|
      ensures after.events[k].attempt.None? || after.events[k].attempt.value in after.attempts
    {
      if k < |db.events| { assert after.events[k] == db.events[k]; }
    }
  }

  lemma TransitionTraced(db: Db, a: Id, state: AttemptState, given: Option<Id>, stamp: Id)
    requires Traced(db) && a in db.attempts
    ensures Traced(Transition(db, a, state, given, stamp))
  {
    hide Traced, CountOf, LastNamed, FirstOf, Record;
    var after := Transition(db, a, state, given, stamp);
    var code := after.attempts[a].code;
    RowOf(db, a);
    AfterRecord(db.events, stamp, Some(a), OfAttempt(state), if code.Some? then code.value else "AGENT_OK", NoFields,
                a);
    TracedAfter(db, after, stamp, Some(a), OfAttempt(state), if code.Some? then code.value else "AGENT_OK", NoFields);
  }

  lemma RowOf(db: Db, a: Id)
    requires Traced(db) && a in db.attempts
    ensures RowTraced(db.events, a, db.attempts[a])
  {
    hide RowTraced, Chained;
  }

  lemma AttachTraced(db: Db, parent: Id, child: Id, stamp: Id)
    requires Traced(db) && parent in db.attempts
    ensures Traced(AttachChild(db, parent, child, stamp))
  {
    hide Traced, CountOf, LastNamed, FirstOf, Record;
    RowOf(db, parent);
    AfterRecord(db.events, stamp, Some(parent), ChildAttached, "AGENT_OK", Child(child), parent);
    TracedAfter(db, AttachChild(db, parent, child, stamp), stamp, Some(parent), ChildAttached, "AGENT_OK",
                Child(child));
  }

  lemma InsertTraced(db: Db, w: Waiting, mode: Mode, sequence: nat, operation: Operation, a: Id, stamp: Id)
    requires Traced(db) && a !in db.attempts && ModeFits(w, mode, sequence, operation)
    ensures Traced(InsertAttempt(db, w, mode, sequence, operation, a, stamp))
  {
    NewIsUnheardOf(db, a);
    hide Traced, CountOf, LastNamed, FirstOf, Record;
    var fields := Authority(mode, sequence, operation);
    AfterRecord(db.events, stamp, Some(a), OfAttempt(Requested), "AGENT_OK", fields, a);
    TracedAfter(db, InsertAttempt(db, w, mode, sequence, operation, a, stamp), stamp, Some(a), OfAttempt(Requested),
                "AGENT_OK", fields);
  }

  lemma NewIsUnheardOf(db: Db, a: Id)
    requires Traced(db) && a !in db.attempts
    ensures CountOf(db.events, a) == 0 && FirstOf(db.events, a) == None
  {
    hide Chained, RowTraced;
    NoEvents(db.events, a);
  }

  // The tree -------------------------------------------------------------------------------------------

  /** Rows that keep their place in the tree keep their path. */
  predicate SamePlaces(attempts: map<Id, Attempt>, after: map<Id, Attempt>) {
    forall a :: a in attempts ==>
      && a in after && after[a].rank == attempts[a].rank && after[a].parent == attempts[a].parent
      && after[a].root == attempts[a].root && after[a].role == attempts[a].role
  }

  lemma {:induction false} PathStays(attempts: map<Id, Attempt>, after: map<Id, Attempt>, a: Id)
    requires Grounded(attempts) && Grounded(after) && SamePlaces(attempts, after) && a in attempts
    ensures Path(after, a) == Path(attempts, a)
    decreases attempts[a].rank
  {
    if attempts[a].parent.Some? { PathStays(attempts, after, attempts[a].parent.value); }
  }

  lemma {:induction false} PathIsInTable(attempts: map<Id, Attempt>, a: Id)
    requires Grounded(attempts) && a in attempts
    ensures forall b :: b in Path(attempts, a) ==> b in attempts && attempts[b].rank <= attempts[a].rank
    ensures Path(attempts, a) != [] && Path(attempts, a)[0] == a
    decreases attempts[a].rank
  {
    if attempts[a].parent.Some? { PathIsInTable(attempts, attempts[a].parent.value); }
  }

  lemma PassedStays(db: Db, after: Db, passed: set<Id>, more: set<Id>, a: Id)
    requires Grounded(db.attempts) && Grounded(after.attempts) && SamePlaces(db.attempts, after.attempts)
    requires passed <= more && a in db.attempts && PassedOk(db, passed, a)
    requires forall r :: r in db.roles ==> r in after.roles && after.roles[r] == db.roles[r]
    ensures PassedOk(after, more, a)
  {
    hide Contained;
    if db.attempts[a].parent.Some? {
      var p := db.attempts[a].parent.value;
      PathStays(db.attempts, after.attempts, p);
      PathIsInTable(db.attempts, p);
    }
  }

  /** Steps that keep every place, every role and the passed attempts keep the tree. */
  lemma TreeStays(db: Db, after: Db, passed: set<Id>)
    requires TreeOk(db, passed) && Grounded(after.attempts) && SamePlaces(db.attempts, after.attempts)
    requires forall r :: r in db.roles ==> r in after.roles && after.roles[r] == db.roles[r]
    requires forall a :: a in after.attempts && Running(after.attempts[a].state) ==> a in passed
    ensures TreeOk(after, passed)
  {
    hide PassedOk, Grounded, SamePlaces, Under, Running;
    forall a | a in passed ensures a in after.attempts && PassedOk(after, passed, a) {
      StaysInTable(db.attempts, after.attempts, a);
      PassedStays(db, after, passed, passed, a);
    }
    CountStays(db, after.attempts, passed);
  }

  lemma CountStays(db: Db, after: map<Id, Attempt>, passed: set<Id>)
    requires TreeOk(db, passed) && SamePlaces(db.attempts, after)
    ensures forall r :: |Under(after, r) * passed| <= 31
  {
    hide PassedOk, Grounded, SamePlaces, Under, Running;
    forall r ensures |Under(after, r) * passed| <= 31 {
      UnderStays(db.attempts, after, passed, r);
    }
  }

  lemma StaysInTable(attempts: map<Id, Attempt>, after: map<Id, Attempt>, a: Id)
    requires SamePlaces(attempts, after) && a in attempts
    ensures a in after
  {
  }

  lemma UnderStays(attempts: map<Id, Attempt>, after: map<Id, Attempt>, passed: set<Id>, r: Id)
    requires SamePlaces(attempts, after) && passed <= attempts.Keys
    ensures Under(after, r) * passed == Under(attempts, r) * passed
  {
    forall a | a in passed ensures a in Under(after, r) <==> a in Under(attempts, r) {
      assert a in attempts;
    }
  }

  lemma {:induction false} PathIsUnique(attempts: map<Id, Attempt>, a: Id, rows: seq<Id>)
    requires Grounded(attempts) && a in attempts && IsPath(attempts, a, rows)
    ensures rows == Path(attempts, a)
    decreases attempts[a].rank
  {
    hide Grounded, Path, IsPath;
    GroundedAt(attempts, a);
    PathSplits(attempts, a);
    PathTail(attempts, a, rows);
    if attempts[a].parent.Some? { PathIsUnique(attempts, attempts[a].parent.value, rows[1..]); }
  }

  lemma PathTail(attempts: map<Id, Attempt>, a: Id, rows: seq<Id>)
    requires a in attempts && IsPath(attempts, a, rows)
    ensures match attempts[a].parent
            case None => rows == [a]
            case Some(p) => rows == [a] + rows[1..] && IsPath(attempts, p, rows[1..])
  {
    var next := if |rows| > 1 then Some(rows[1]) else None;
    assert attempts[rows[0]].parent == next;
    if next.Some? {
      var rest := rows[1..];
      forall i | 0 <= i < |rest| - 1 ensures attempts[rest[i]].parent == Some(rest[i + 1]) {
        assert attempts[rows[i + 1]].parent == Some(rows[i + 1 + 1]);
      }
    }
  }

  /** The path of a grounded table is a path, and ends at the recorded root. */
  lemma {:induction false} PathIsPath(attempts: map<Id, Attempt>, a: Id)
    requires Grounded(attempts) && a in attempts
    ensures var rows := Path(attempts, a); IsPath(attempts, a, rows) && rows[|rows| - 1] == attempts[a].root
    decreases attempts[a].rank
  {
    PathIsInTable(attempts, a);
    if attempts[a].parent.Some? {
      var p := attempts[a].parent.value;
      PathIsPath(attempts, p);
      PathIsInTable(attempts, p);
      var rows, above := Path(attempts, a), Path(attempts, p);
      assert rows == [a] + above;
      forall i | 0 <= i < |rows| ensures rows[i] in attempts && (i > 0 ==> attempts[rows[i]].rank < attempts[a].rank) {
        if i > 0 { assert rows[i] == above[i - 1] && above[i - 1] in above; }
      }
    }
  }

  // Passing the check ----------------------------------------------------------------------------------

  /** Only a passed root has anything passed under it. */
  lemma NothingUnderUnpassedRoot(db: Db, passed: set<Id>, r: Id)
    requires TreeOk(db, passed) && r !in passed
    ensures Under(db.attempts, r) * passed == {}
  {
    hide Contained;
    forall a | a in passed ensures a !in Under(db.attempts, r) {
      assert PassedOk(db, passed, a);
    }
  }

  lemma PassingKeepsCount(db: Db, passed: set<Id>, c: Id, r: Id)
    requires TreeOk(db, passed) && c in db.attempts
    requires db.attempts[c].parent == None || |Under(db.attempts, db.attempts[c].root)| < 32
    ensures |Under(db.attempts, r) * (passed + {c})| <= 31
  {
    hide PassedOk;
    var under := Under(db.attempts, r);
    assert |under * passed| <= 31;
    if db.attempts[c].root != r || c in passed {
      assert under * (passed + {c}) == under * passed;
    } else if db.attempts[c].parent == None {
      assert r == c;
      NothingUnderUnpassedRoot(db, passed, r);
      assert under * (passed + {c}) == {c};
    } else {
      SubsetSize(under * (passed + {c}), under);
    }
  }

  lemma {:induction false} SubsetSize(a: set<Id>, b: set<Id>)
    requires a <= b
    ensures |a| <= |b|
  {
    if a != {} {
      var x :| x in a;
      SubsetSize(a - {x}, b - {x});
    }
  }

  /** What `requireChild` established, on the parent as it is now. */
  lemma CheckedChild(db: Db, passed: set<Id>, id: Id, w: Waiting)
    requires TreeOk(db, passed) && InsertedOk(db, passed, id, w) && Allowed(db, w, true)
    ensures PassedOk(db, passed + {id}, id)
    ensures db.attempts[id].parent == None || |Under(db.attempts, db.attempts[id].root)| < 32
  {
    hide Contained, Grounded, PassedOk, ChildAllowed, Under;
    if w.parent.Some? {
      var p := w.parent.value;
      var rows :| IsPath(db.attempts, p.id, rows) && ChildAllowed(db, p.row, rows, w.request.role, w.request.task);
      PathIsUnique(db.attempts, p.id, rows);
      CheckedUnder(db, passed, id, w, rows);
    } else {
      CheckedRoot(db, passed, id, w);
    }
  }

  lemma CheckedRoot(db: Db, passed: set<Id>, id: Id, w: Waiting)
    requires Grounded(db.attempts) && InsertedOk(db, passed, id, w) && Allowed(db, w, true) && w.parent == None
    ensures PassedOk(db, passed + {id}, id)
  {
    GroundedAt(db.attempts, id);
    hide Grounded;
  }

  lemma CheckedUnder(db: Db, passed: set<Id>, id: Id, w: Waiting, rows: seq<Id>)
    requires Grounded(db.attempts) && InsertedOk(db, passed, id, w) && w.parent.Some? && w.request.role in db.roles
    requires var p := w.parent.value;
             && (p.id in passed ==> PassedOk(db, passed, p.id))
             && rows == Path(db.attempts, p.id)
             && (forall i :: 0 <= i < |rows| ==> rows[i] in db.attempts)
             && ChildAllowed(db, p.row, rows, w.request.role, w.request.task)
    ensures PassedOk(db, passed + {id}, id)
    ensures |Under(db.attempts, db.attempts[id].root)| < 32
  {
    hide Grounded, Contained, Path, Under;
  }

  lemma PassingKeeps(db: Db, passed: set<Id>, id: Id, w: Waiting)
    requires TreeOk(db, passed) && InsertedOk(db, passed, id, w) && Allowed(db, w, true)
    ensures TreeOk(db, passed + {id})
  {
    hide PassedOk, Allowed, InsertedOk;
    InsertedIsThere(db, passed, id, w);
    CheckedChild(db, passed, id, w);
    forall a | a in passed + {id} ensures a in db.attempts && PassedOk(db, passed + {id}, a) {
      if a in passed { PassedStays(db, db, passed, passed + {id}, a); }
    }
    forall r ensures |Under(db.attempts, r) * (passed + {id})| <= 31 {
      PassingKeepsCount(db, passed, id, r);
    }
  }

  lemma InsertedIsThere(db: Db, passed: set<Id>, id: Id, w: Waiting)
    requires InsertedOk(db, passed, id, w)
    ensures id in db.attempts
  {
  }

  // Steps -----------------------------------------------------------------------------------------------

  /** Captured parents and starts stay what they were. */
  lemma CapturesStay(s: System, after: System)
    requires SystemOk(s) && SamePlaces(s.db.attempts, after.db.attempts) && s.passed <= after.passed
    ensures forall w :: w in s.waiting && w.parent.Some? ==> ParentOk(after.db, after.passed, w.parent.value)
    ensures forall id :: id in s.starts ==> StageOk(after.db, after.passed, id, s.starts[id])
  {
    hide TreeOk, Traced;
  }

  /** Starts that end, and control state that comes and goes within what is known. */
  lemma ControlKeeps(s: System, t: System)
    requires SystemOk(s) && t.db == s.db && t.passed == s.passed && t.waiting <= s.waiting
    requires forall id :: id in t.starts ==> StageOk(s.db, s.passed, id, t.starts[id])
    requires t.sessions <= s.passed && t.live <= s.passed
    ensures SystemOk(t)
  {
    hide TreeOk, Traced, ParentOk, StageOk;
  }

  lemma WriteKeeps(s: System, a: Id, state: AttemptState, given: Option<Id>, stamp: Id)
    requires SystemOk(s) && (Running(state) ==> a in s.passed)
    ensures SystemOk(Write(s, a, state, given, stamp))
    ensures Write(s, a, state, given, stamp) == s.(db := Write(s, a, state, given, stamp).db)
  {
    hide Traced, Grounded, ParentOk, InsertedOk, Record, PassedOk, Under;
    if a in s.db.attempts {
      var after := s.(db := Transition(s.db, a, state, given, stamp));
      TransitionTraced(s.db, a, state, given, stamp);
      CapturesStay(s, after);
      GroundedStays(s.db.attempts, after.db.attempts);
      TreeStays(s.db, after.db, s.passed);
    }
  }

  lemma GroundedStays(attempts: map<Id, Attempt>, after: map<Id, Attempt>)
    requires Grounded(attempts) && after.Keys == attempts.Keys && SamePlaces(attempts, after)
    ensures Grounded(after)
  {
    assert |after| == |after.Keys| == |attempts.Keys| == |attempts|;
  }

  lemma AttachKeeps(s: System, parent: Id, child: Id, stamp: Id)
    requires SystemOk(s) && parent in s.db.attempts
    ensures SystemOk(s.(db := AttachChild(s.db, parent, child, stamp)))
  {
    hide Traced, Grounded, ParentOk, InsertedOk, Record, PassedOk, Under;
    var after := s.(db := AttachChild(s.db, parent, child, stamp));
    AttachTraced(s.db, parent, child, stamp);
    CapturesStay(s, after);
    GroundedStays(s.db.attempts, after.db.attempts);
    TreeStays(s.db, after.db, s.passed);
  }

  lemma InsertKeeps(s: System, w: Waiting, mode: Mode, sequence: nat, operation: Operation, a: Id, stamp: Id)
    requires SystemOk(s) && w in s.waiting && ModeFits(w, mode, sequence, operation) && a !in s.db.attempts
    ensures SystemOk(Serve(s, Insert(w, mode, sequence, operation, a, stamp)))
  {
    hide Traced, Grounded, Record, PassedOk, ModeFits, Under, ParentOk;
    var after := Serve(s, Insert(w, mode, sequence, operation, a, stamp));
    InsertTraced(s.db, w, mode, sequence, operation, a, stamp);
    assert w.parent.Some? ==> ParentOk(s.db, s.passed, w.parent.value);
    InsertGrounded(s.db, s.passed, w, mode, sequence, operation, a, stamp);
    CapturesStay(s, after.(starts := s.starts));
    if w.parent.Some? { ParentIsCaptured(s.db, after.db, s.passed, w.parent.value); }
    TreeStays(s.db, after.db, s.passed);
  }

  lemma ParentIsCaptured(db: Db, after: Db, passed: set<Id>, p: Parent)
    requires ParentOk(db, passed, p) && SamePlaces(db.attempts, after.attempts)
    ensures ParentOk(after, passed, p)
  {
  }

  lemma InsertGrounded(db: Db, passed: set<Id>, w: Waiting, mode: Mode, sequence: nat, operation: Operation, a: Id,
      stamp: Id)
    requires Grounded(db.attempts) && a !in db.attempts && (w.parent.Some? ==> ParentOk(db, passed, w.parent.value))
    ensures Grounded(InsertAttempt(db, w, mode, sequence, operation, a, stamp).attempts)
  {
    hide Record, Grounded;
    var after := InsertAttempt(db, w, mode, sequence, operation, a, stamp).attempts;
    assert after.Keys == db.attempts.Keys + {a};
    assert |after| == |after.Keys| == |db.attempts| + 1;
    if w.parent.Some? { GroundedAt(db.attempts, w.parent.value.id); }
    GroundedMore(db.attempts, a, after[a]);
  }

  lemma GroundedAt(attempts: map<Id, Attempt>, a: Id)
    requires Grounded(attempts) && a in attempts
    ensures attempts[a].rank < |attempts|
    ensures match attempts[a].parent
            case None => attempts[a].root == a
            case Some(p) => p in attempts && attempts[p].rank < attempts[a].rank && attempts[p].root == attempts[a].root
  {
  }

  lemma GroundedMore(attempts: map<Id, Attempt>, a: Id, row: Attempt)
    requires Grounded(attempts) && a !in attempts && row.rank == |attempts|
    requires |attempts[a := row]| == |attempts| + 1
    requires match row.parent
             case None => row.root == a
             case Some(p) => p in attempts && attempts[p].rank < |attempts| && attempts[p].root == row.root
    ensures Grounded(attempts[a := row])
  {
    var after := attempts[a := row];
    hide Grounded;
    forall b | b in after
      ensures after[b].rank < |after|
      ensures match after[b].parent
              case None => after[b].root == b
              case Some(p) => p in after && after[p].rank < after[b].rank && after[p].root == after[b].root
    {
      if b != a { GroundedAt(attempts, b); }
    }
    GroundedFrom(after);
  }

  lemma GroundedFrom(attempts: map<Id, Attempt>)
    requires forall a :: a in attempts ==>
               && attempts[a].rank < |attempts|
               && match attempts[a].parent
                  case None => attempts[a].root == a
                  case Some(p) =>
                    && p in attempts && attempts[p].rank < attempts[a].rank
                    && attempts[p].root == attempts[a].root
    ensures Grounded(attempts)
  {
  }

  function RoleAdded(db: Db, id: Id, role: Role, stamp: Id): Db {
    db.(roles := db.roles[id := role], revision := db.revision + 1,
        events := Record(db.events, stamp, None, RoleCreated, "AGENT_OK", OfRole(id)))
  }

  lemma AddRoleKeeps(s: System, id: Id, role: Role, stamp: Id)
    requires SystemOk(s) && id !in s.db.roles
    ensures SystemOk(s.(db := RoleAdded(s.db, id, role, stamp)))
  {
    hide Record, PassedOk, RowTraced, Chained, StageOk, ParentOk, Grounded, Under;
    var after := s.(db := RoleAdded(s.db, id, role, stamp));
    TracedAfter(s.db, after.db, stamp, None, RoleCreated, "AGENT_OK", OfRole(id));
    CapturesStay(s, after);
    TreeStays(s.db, after.db, s.passed);
  }

  lemma DecideKeeps(s: System, id: Id, policy: bool, stamp: Id, code: Id)
    requires SystemOk(s)
    ensures SystemOk(Serve(s, Decide(id, policy, stamp, code)))
  {
    hide Traced, TreeOk, Allowed, InsertedOk, ParentOk, Write;
    if id in s.starts && s.starts[id].Undecided? {
      var w := s.starts[id].waiting;
      assert StageOk(s.db, s.passed, id, s.starts[id]);
      if Allowed(s.db, w, policy) {
        PolicyHolds(s.db, w, policy);
        PassingKeeps(s.db, s.passed, id, w);
        CapturesStay(s, s.(passed := s.passed + {id}));
      } else {
        WriteKeeps(s, id, Cleaned, Some(code), stamp);
        var written := Write(s, id, Cleaned, Some(code), stamp);
        ControlKeeps(written, written.(starts := s.starts - {id}));
      }
    }
  }

  lemma PolicyHolds(db: Db, w: Waiting, policy: bool)
    requires Allowed(db, w, policy)
    ensures policy && Allowed(db, w, true)
  {
  }

  /** Every stage beyond the check is that of an attempt that passed it: so it may run. */
  lemma AdvanceKeeps(s: System, id: Id, stamp: Id)
    requires SystemOk(s) && id in s.starts && id in s.db.attempts
    ensures SystemOk(NextStage(s, id, stamp))
  {
    hide Traced, TreeOk, InsertedOk, ParentOk, Write, AttachChild;
    assert StageOk(s.db, s.passed, id, s.starts[id]);
    match s.starts[id]
    case Undecided(_) =>
    case Passed(w) => WroteStage(s, id, Admitted, AtAdmission(w), stamp);
    case AtAdmission(_) =>
      ControlKeeps(s, s.(starts := s.starts[id := AtAttachment]));
      if s.db.attempts[id].parent.Some? && s.db.attempts[id].parent.value in s.db.attempts {
        AttachKeeps(s.(starts := s.starts[id := AtAttachment]), s.db.attempts[id].parent.value, id, stamp);
      }
    case AtAttachment => WroteStage(s, id, AdapterResolved, AtAdapter, stamp);
    case AtAdapter => ControlKeeps(s, s.(sessions := s.sessions + {id}, starts := s.starts[id := AtSession]));
    case AtSession => WroteStage(s, id, Registered, AtRegistration, stamp);
    case AtRegistration =>
      WriteKeeps(s, id, Starting, None, stamp);
      var written := Write(s, id, Starting, None, stamp);
      ControlKeeps(written, written.(starts := s.starts - {id}, live := s.live + {id}));
  }

  lemma WroteStage(s: System, id: Id, state: AttemptState, stage: Stage, stamp: Id)
    requires SystemOk(s) && id in s.passed && !stage.Undecided?
    ensures SystemOk(Write(s, id, state, None, stamp).(starts := s.starts[id := stage]))
  {
    hide Traced, TreeOk, InsertedOk, ParentOk, Write;
    WriteKeeps(s, id, state, None, stamp);
    var written := Write(s, id, state, None, stamp);
    ControlKeeps(written, written.(starts := s.starts[id := stage]));
  }

  lemma ObserveKeeps(s: System, id: Id, seen: Observed, stamp: Id)
    requires SystemOk(s) && id in s.sessions && id in s.db.attempts
    ensures SystemOk(AfterObservation(s, id, seen, stamp))
  {
    hide Traced, TreeOk, StageOk, ParentOk, Write;
    match seen
    case ReadySeen => WriteKeeps(s, id, Ready, None, stamp);
    case ActivitySeen => WriteKeeps(s, id, Active, None, stamp);
    case CompletedSeen => WriteKeeps(s, id, CompletedObserved, Some("AGENT_OK"), stamp);
    case FailedSeen(code) => WriteKeeps(s, id, FailedObserved, Some(code), stamp);
  }

  lemma AskKeeps(s: System, r: StartRequest)
    requires SystemOk(s)
    ensures SystemOk(Serve(s, Ask(r)))
  {
    hide Traced, InsertedOk, PassedOk;
  }

  /** A transition to no running state, and then less control state. */
  lemma SettleKeeps(s: System, id: Id, state: AttemptState, given: Option<Id>, stamp: Id, t: System)
    requires SystemOk(s) && !Running(state) && t.db == Write(s, id, state, given, stamp).db && t.passed == s.passed
    requires t.waiting <= s.waiting && t.starts.Keys <= s.starts.Keys
    requires forall v :: v in t.starts ==> t.starts[v] == s.starts[v]
    requires t.sessions <= s.sessions && t.live <= s.live
    ensures SystemOk(t)
  {
    hide Traced, TreeOk, StageOk, ParentOk, Write;
    WriteKeeps(s, id, state, given, stamp);
    ControlKeeps(Write(s, id, state, given, stamp), t);
  }

  lemma ServeKeeps(s: System, a: Action)
    requires SystemOk(s)
    ensures SystemOk(Serve(s, a))
  {
    hide Traced, TreeOk, Allowed, StageOk, ParentOk, ModeFits, Write, NextStage, AfterObservation, Prior;
    match a
    case Ask(r) => AskKeeps(s, r);
    case Insert(w, mode, sequence, operation, id, stamp) =>
      if w in s.waiting && ModeFits(w, mode, sequence, operation) && id !in s.db.attempts {
        InsertKeeps(s, w, mode, sequence, operation, id, stamp);
      }
    case Decide(id, policy, stamp, code) => DecideKeeps(s, id, policy, stamp, code);
    case Advance(id, stamp) => if id in s.starts && id in s.db.attempts { AdvanceKeeps(s, id, stamp); }
    case FailStart(id, residue, stamp, code) =>
      if id in s.starts && !s.starts[id].Undecided? {
        if residue { SettleKeeps(s, id, CleanupFailed, Some("CLEANUP_FAILED"), stamp, Serve(s, a)); }
        else { SettleKeeps(s, id, Cleaned, Some(code), stamp, Serve(s, a)); }
      }
    case Observe(id, seen, stamp) => if id in s.sessions && id in s.db.attempts { ObserveKeeps(s, id, seen, stamp); }
    case Expire(id, stamp, code) => WriteKeeps(s, id, TimedOut, Some(code), stamp);
    case Break(id, stamp, code) => WriteKeeps(s, id, FailedObserved, Some(code), stamp);
    case BeginClean(id, final, stamp) =>
      if id in s.live && id !in s.cleaning && id in s.db.attempts {
        SettleKeeps(s, id, Cleaning, final, stamp, Serve(s, a));
      }
    case EndClean(id, clean, stamp) =>
      if id in s.cleaning {
        if clean { SettleKeeps(s, id, Cleaned, Some(s.cleaning[id]), stamp, Serve(s, a)); }
        else { SettleKeeps(s, id, CleanupFailed, Some("CLEANUP_FAILED"), stamp, Serve(s, a)); }
      }
    case _ =>
  }

  lemma RecoveryKeeps(s: System, a: Action)
    requires SystemOk(s) && (a.BeginRecovery? || a.Reconcile? || a.EndRecovery?)
    ensures SystemOk(Step(s, a))
  {
    hide SystemOk, Write;
    if Step(s, a) != s {
      match a
      case BeginRecovery(id, stamp) =>
        SettleKeeps(s, id, RecoveryRequired, Some("RECOVERY_REQUIRED"), stamp, Step(s, a));
      case Reconcile(id, stamp) => SettleKeeps(s, id, Reconciling, None, stamp, Step(s, a));
      case EndRecovery(id, clean, stamp) =>
        if clean { SettleKeeps(s, id, RecoveredTerminal, Some("RECOVERY_REQUIRED"), stamp, Step(s, a)); }
        else { SettleKeeps(s, id, UnverifiedResidual, Some("RESOURCE_IDENTITY_UNVERIFIED"), stamp, Step(s, a)); }
    }
  }

  lemma StepKeeps(s: System, a: Action)
    requires SystemOk(s)
    ensures SystemOk(Step(s, a))
  {
    hide Traced, TreeOk, StageOk, ParentOk, Intact, Write, Serve, Open;
    match a
    case Crash => ControlKeeps(s, Step(s, a));
    case Start => ControlKeeps(s, Step(s, a));
    case FinishStart => ControlKeeps(s, Step(s, a));
    case AddRole(id, role, stamp) => if id !in s.db.roles { AddRoleKeeps(s, id, role, stamp); }
    case Cancel(id, byParent, stamp) =>
      WriteKeeps(s, id, Cleaned, Some("RECOVERY_REQUIRED"), stamp);
      WriteKeeps(s, id, Cancelling, Some("CANCELLED"), stamp);
    case BeginRecovery(_, _) => RecoveryKeeps(s, a);
    case Reconcile(_, _) => RecoveryKeeps(s, a);
    case EndRecovery(_, _, _) => RecoveryKeeps(s, a);
    case _ => if s.status.Up? { ServeKeeps(s, a); }
  }

  lemma {:induction false} RunIsOk(actions: seq<Action>)
    ensures SystemOk(Run(actions))
  {
    hide Step, Traced, PassedOk;
    if actions == [] {
      BootIsOk();
    } else {
      RunIsOk(actions[..|actions| - 1]);
      StepKeeps(Run(actions[..|actions| - 1]), actions[|actions| - 1]);
    }
  }

  lemma BootIsOk()
    ensures SystemOk(Boot())
  {
    forall r: Id ensures |Under(map[], r) * {}| <= 31 { assert Under(map[], r) * {} == {}; }
  }

  // What one step writes ------------------------------------------------------------------------------------

  /** One transition of one attempt, or nothing. */
  ghost predicate OneWrite(db: Db, after: Db) {
    after == db || exists a, state, given, stamp :: Wrote(db, after, a, state, given, stamp)
  }

  predicate Wrote(db: Db, after: Db, a: Id, state: AttemptState, given: Option<Id>, stamp: Id) {
    a in db.attempts && after == Transition(db, a, state, given, stamp)
  }

  /** The one place where a start attaches its attempt to the parent. */
  predicate Attaches(s: System, id: Id, stamp: Id, after: Db) {
    && id in s.starts && s.starts[id].AtAdmission? && id in s.db.attempts && s.db.attempts[id].parent.Some?
    && var p := s.db.attempts[id].parent.value;
       p in s.db.attempts && (p, id) !in s.db.links && after == AttachChild(s.db, p, id, stamp)
  }

  ghost predicate Writes(s: System, a: Action, after: Db) {
    match a
    case AddRole(id, role, stamp) => after == s.db || (id !in s.db.roles && after == RoleAdded(s.db, id, role, stamp))
    case Insert(w, mode, sequence, operation, id, stamp) =>
      || after == s.db
      || (&& w in s.waiting && ModeFits(w, mode, sequence, operation) && id !in s.db.attempts
          && after == InsertAttempt(s.db, w, mode, sequence, operation, id, stamp))
    case Advance(id, stamp) => OneWrite(s.db, after) || Attaches(s, id, stamp, after)
    case _ => OneWrite(s.db, after)
  }

  lemma WriteIsOne(s: System, a: Id, state: AttemptState, given: Option<Id>, stamp: Id)
    ensures OneWrite(s.db, Write(s, a, state, given, stamp).db)
  {
    hide Transition;
    if a in s.db.attempts { assert Wrote(s.db, Write(s, a, state, given, stamp).db, a, state, given, stamp); }
  }

  lemma ServeWrites(s: System, a: Action)
    requires !a.AddRole?
    ensures Writes(s, a, Serve(s, a).db) && s.passed <= Serve(s, a).passed
  {
    hide OneWrite, Write, Allowed, ModeFits, InsertAttempt, AttachChild, Record, NextCode, Settling, Prior;
    NothingIsOne(s.db);
    match a
    case Decide(id, policy, stamp, code) => WriteIsOne(s, id, Cleaned, Some(code), stamp);
    case Advance(id, stamp) =>
      WriteIsOne(s, id, Admitted, None, stamp);
      WriteIsOne(s, id, AdapterResolved, None, stamp);
      WriteIsOne(s, id, Registered, None, stamp);
      WriteIsOne(s, id, Starting, None, stamp);
    case FailStart(id, residue, stamp, code) =>
      WriteIsOne(s, id, CleanupFailed, Some("CLEANUP_FAILED"), stamp);
      WriteIsOne(s, id, Cleaned, Some(code), stamp);
    case Observe(id, seen, stamp) => if id in s.db.attempts { ObservationIsOne(s, id, seen, stamp); }
    case Expire(id, stamp, code) => WriteIsOne(s, id, TimedOut, Some(code), stamp);
    case Break(id, stamp, code) => WriteIsOne(s, id, FailedObserved, Some(code), stamp);
    case BeginClean(id, final, stamp) => WriteIsOne(s, id, Cleaning, final, stamp);
    case EndClean(id, clean, stamp) =>
      if id in s.cleaning { WriteIsOne(s, id, Cleaned, Some(s.cleaning[id]), stamp); }
      WriteIsOne(s, id, CleanupFailed, Some("CLEANUP_FAILED"), stamp);
    case _ =>
  }

  lemma StepWrites(s: System, a: Action)
    ensures Writes(s, a, Step(s, a).db) && s.passed <= Step(s, a).passed
  {
    hide OneWrite, Write, Serve, Intact, Allowed, ModeFits, Open, InsertAttempt, AttachChild, Record, NextCode,
      Settling, Prior;
    NothingIsOne(s.db);
    match a
    case Cancel(id, byParent, stamp) =>
      WriteIsOne(s, id, Cleaned, Some("RECOVERY_REQUIRED"), stamp);
      WriteIsOne(s, id, Cancelling, Some("CANCELLED"), stamp);
    case BeginRecovery(id, stamp) => WriteIsOne(s, id, RecoveryRequired, Some("RECOVERY_REQUIRED"), stamp);
    case Reconcile(id, stamp) => WriteIsOne(s, id, Reconciling, None, stamp);
    case EndRecovery(id, clean, stamp) =>
      WriteIsOne(s, id, RecoveredTerminal, Some("RECOVERY_REQUIRED"), stamp);
      WriteIsOne(s, id, UnverifiedResidual, Some("RESOURCE_IDENTITY_UNVERIFIED"), stamp);
    case AddRole(_, _, _) =>
    case _ => if s.status.Up? { ServeWrites(s, a); }
  }

  lemma NothingIsOne(db: Db)
    ensures OneWrite(db, db)
  {
  }

  lemma ObservationIsOne(s: System, id: Id, seen: Observed, stamp: Id)
    requires id in s.db.attempts
    ensures OneWrite(s.db, AfterObservation(s, id, seen, stamp).db)
  {
    hide OneWrite, Write, Settling;
    NothingIsOne(s.db);
    match seen
    case ReadySeen => WriteIsOne(s, id, Ready, None, stamp);
    case ActivitySeen => WriteIsOne(s, id, Active, None, stamp);
    case CompletedSeen => WriteIsOne(s, id, CompletedObserved, Some("AGENT_OK"), stamp);
    case FailedSeen(code) => WriteIsOne(s, id, FailedObserved, Some(code), stamp);
  }

  // Theorems ----------------------------------------------------------------------------------------------

  /** The startup self-check accepts the database whatever ran before and wherever it crashed. */
  lemma IntegrityAlwaysHolds(actions: seq<Action>)
    ensures Intact(Run(actions).db)
    ensures Run(actions).status.Down? ==> Step(Run(actions), Start).status.Recovery?
  {
    hide Run, Step, PassedOk;
    RunIsOk(actions);
    var db := Run(actions).db;
    hide Chained, CountOf, LastNamed, FirstOf;
    forall a | a in db.attempts ensures AttemptIntact(db, a) {
      assert RowTraced(db.events, a, db.attempts[a]);
      PathIsPath(db.attempts, a);
    }
    StartsWhenIntact(Run(actions));
  }

  lemma StartsWhenIntact(s: System)
    requires Intact(s.db)
    ensures s.status.Down? ==> Step(s, Start).status.Recovery?
  {
    hide Intact;
  }

  /**
   Every attempt that passed the child check may use only what each of its ancestors may use, no
   role revision repeats on its way to the root, and that way has at most four attempts.
   */
  lemma ChildrenAreContained(actions: seq<Action>, a: Id)
    requires a in Run(actions).passed
    ensures var s := Run(actions);
            && Grounded(s.db.attempts) && a in s.db.attempts
            && var rows := Path(s.db.attempts, a);
               && 1 <= |rows| <= 4 && rows[|rows| - 1] == s.db.attempts[a].root
               && (forall i :: 0 <= i < |rows| ==>
                     rows[i] in s.passed && rows[i] in s.db.attempts && s.db.attempts[rows[i]].role in s.db.roles)
               && (forall i, j :: 0 <= i < j < |rows| ==>
                     && Contained(s.db.roles[s.db.attempts[rows[i]].role], s.db.roles[s.db.attempts[rows[j]].role])
                     && s.db.attempts[rows[i]].role != s.db.attempts[rows[j]].role)
  {
    hide Run;
    RunIsOk(actions);
    PathIsPath(Run(actions).db.attempts, a);
    ContainedAlongPath(Run(actions).db, Run(actions).passed, a);
  }

  lemma {:induction false} ContainedAlongPath(db: Db, passed: set<Id>, a: Id)
    requires TreeOk(db, passed) && a in passed
    ensures a in db.attempts
    ensures var rows := Path(db.attempts, a);
            && |rows| <= 4
            && (forall i :: 0 <= i < |rows| ==>
                  rows[i] in passed && rows[i] in db.attempts && db.attempts[rows[i]].role in db.roles)
            && (forall i, j :: 0 <= i < j < |rows| ==>
                  && Contained(db.roles[db.attempts[rows[i]].role], db.roles[db.attempts[rows[j]].role])
                  && db.attempts[rows[i]].role != db.attempts[rows[j]].role)
    decreases if a in db.attempts then db.attempts[a].rank else 0
  {
    hide Contained, Grounded, Path, Under, PassedOk;
    assert PassedOk(db, passed, a);
    GroundedAt(db.attempts, a);
    PathSplits(db.attempts, a);
    PassedParent(db, passed, a);
    if db.attempts[a].parent.Some? {
      var p := db.attempts[a].parent.value;
      ContainedAlongPath(db, passed, p);
      PathIsInTable(db.attempts, p);
      ContainedBelow(db, passed, a, p, Path(db.attempts, p));
    }
  }

  lemma PathSplits(attempts: map<Id, Attempt>, a: Id)
    requires Grounded(attempts) && a in attempts
    ensures match attempts[a].parent
            case None => Path(attempts, a) == [a]
            case Some(p) => p in attempts && Path(attempts, a) == [a] + Path(attempts, p)
  {
    GroundedAt(attempts, a);
    hide Grounded;
  }

  lemma PassedParent(db: Db, passed: set<Id>, a: Id)
    requires Grounded(db.attempts) && a in db.attempts && PassedOk(db, passed, a)
    ensures db.attempts[a].role in db.roles
    ensures match db.attempts[a].parent
            case None => true
            case Some(p) =>
              && p in passed && p in db.attempts && db.attempts[p].role in db.roles
              && Contained(db.roles[db.attempts[a].role], db.roles[db.attempts[p].role])
              && |Path(db.attempts, p)| < 4
              && forall b :: b in Path(db.attempts, p) ==>
                  b in db.attempts && db.attempts[b].role != db.attempts[a].role
  {
    GroundedAt(db.attempts, a);
    hide Grounded, Path, Contained;
  }

  /** One more attempt below a contained path. */
  lemma ContainedBelow(db: Db, passed: set<Id>, a: Id, p: Id, above: seq<Id>)
    requires a in passed && a in db.attempts && db.attempts[a].role in db.roles && above != [] && above[0] == p
    requires forall i :: 0 <= i < |above| ==>
               above[i] in passed && above[i] in db.attempts && db.attempts[above[i]].role in db.roles
    requires forall i, j :: 0 <= i < j < |above| ==>
               && Contained(db.roles[db.attempts[above[i]].role], db.roles[db.attempts[above[j]].role])
               && db.attempts[above[i]].role != db.attempts[above[j]].role
    requires Contained(db.roles[db.attempts[a].role], db.roles[db.attempts[p].role])
    requires forall b :: b in above ==> b in db.attempts && db.attempts[b].role != db.attempts[a].role
    ensures var rows := [a] + above;
            && (forall i :: 0 <= i < |rows| ==>
                  rows[i] in passed && rows[i] in db.attempts && db.attempts[rows[i]].role in db.roles)
            && (forall i, j :: 0 <= i < j < |rows| ==>
                  && Contained(db.roles[db.attempts[rows[i]].role], db.roles[db.attempts[rows[j]].role])
                  && db.attempts[rows[i]].role != db.attempts[rows[j]].role)
  {
    hide Contained;
    var rows := [a] + above;
    forall j | 0 < j < |rows|
      ensures Contained(db.roles[db.attempts[a].role], db.roles[db.attempts[rows[j]].role])
    {
      if j > 1 {
        ContainedChains(db.roles[db.attempts[a].role], db.roles[db.attempts[p].role],
                        db.roles[db.attempts[above[j - 1]].role]);
      }
    }
  }

  lemma ContainedChains(a: Role, b: Role, c: Role)
    requires Contained(a, b) && Contained(b, c)
    ensures Contained(a, c)
  {
  }

  /** At most 31 attempts under one root ever pass: the root and thirty others. */
  lemma {:induction false} AtMostThirtyOnePerRoot(actions: seq<Action>, root: Id)
    ensures |Under(Run(actions).db.attempts, root) * Run(actions).passed| <= 31
  {
    hide Run, Traced, PassedOk;
    RunIsOk(actions);
  }

  /** An attempt that is running passed its check. */
  lemma {:induction false} RunningHasPassed(actions: seq<Action>, a: Id)
    requires a in Run(actions).db.attempts && Running(Run(actions).db.attempts[a].state)
    ensures a in Run(actions).passed
  {
    hide Run, Traced, PassedOk;
    RunIsOk(actions);
  }

  // Counters ----------------------------------------------------------------------------------------------

  function LinksOf(links: set<(Id, Id)>, p: Id): set<(Id, Id)> { set l | l in links && l.0 == p }

  /** A link joins a passed attempt to its parent. */
  predicate LinkOk(db: Db, passed: set<Id>, l: (Id, Id)) {
    l.0 in db.attempts && l.1 in passed && l.1 in db.attempts && db.attempts[l.1].parent == Some(l.0)
  }

  ghost predicate CountsOk(db: Db, passed: set<Id>) {
    && db.revision == |db.events|
    && (forall l :: l in db.links ==> LinkOk(db, passed, l))
    && (forall p :: p in db.attempts ==> db.attempts[p].children == |LinksOf(db.links, p)|)
  }

  lemma AttachCounts(db: Db, passed: set<Id>, parent: Id, child: Id, stamp: Id)
    requires CountsOk(db, passed) && parent in db.attempts && child in passed && child in db.attempts
    requires db.attempts[child].parent == Some(parent) && (parent, child) !in db.links
    ensures CountsOk(AttachChild(db, parent, child, stamp), passed)
  {
    hide LinksOf;
    var after := AttachChild(db, parent, child, stamp);
    forall l | l in after.links ensures LinkOk(after, passed, l) {
      assert l != (parent, child) ==> LinkOk(db, passed, l);
    }
    forall p | p in after.attempts ensures after.attempts[p].children == |LinksOf(after.links, p)| {
      LinkAdded(db.links, parent, child, p);
    }
  }

  lemma LinkAdded(links: set<(Id, Id)>, parent: Id, child: Id, p: Id)
    requires (parent, child) !in links
    ensures |LinksOf(links + {(parent, child)}, p)| == |LinksOf(links, p)| + if p == parent then 1 else 0
  {
    var after := links + {(parent, child)};
    if p == parent {
      assert LinksOf(after, p) == LinksOf(links, p) + {(parent, child)};
    } else {
      assert LinksOf(after, p) == LinksOf(links, p);
    }
  }

  lemma InsertCounts(db: Db, passed: set<Id>, w: Waiting, mode: Mode, sequence: nat, operation: Operation, a: Id,
      stamp: Id)
    requires CountsOk(db, passed) && a !in db.attempts
    ensures CountsOk(InsertAttempt(db, w, mode, sequence, operation, a, stamp), passed)
  {
    var after := InsertAttempt(db, w, mode, sequence, operation, a, stamp);
    forall l | l in after.links ensures LinkOk(after, passed, l) {
      assert LinkOk(db, passed, l);
    }
    assert LinksOf(db.links, a) == {} by {
      forall l | l in db.links ensures l.0 != a { assert LinkOk(db, passed, l); }
    }
  }

  lemma TransitionCounts(db: Db, passed: set<Id>, a: Id, state: AttemptState, given: Option<Id>, stamp: Id)
    requires CountsOk(db, passed) && a in db.attempts
    ensures CountsOk(Transition(db, a, state, given, stamp), passed)
  {
    hide LinksOf;
    var after := Transition(db, a, state, given, stamp);
    forall l | l in after.links ensures LinkOk(after, passed, l) {
      assert LinkOk(db, passed, l);
    }
  }

  lemma PassingCounts(db: Db, passed: set<Id>, more: set<Id>)
    requires CountsOk(db, passed) && passed <= more
    ensures CountsOk(db, more)
  {
    hide LinksOf;
    forall l | l in db.links ensures LinkOk(db, more, l) {
      assert LinkOk(db, passed, l);
    }
  }

  lemma WriteCounts(db: Db, after: Db, passed: set<Id>)
    requires CountsOk(db, passed) && OneWrite(db, after)
    ensures CountsOk(after, passed)
  {
    hide CountsOk, Transition;
    if after != db {
      var a, state, given, stamp :| Wrote(db, after, a, state, given, stamp);
      TransitionCounts(db, passed, a, state, given, stamp);
    }
  }

  lemma StepCounts(s: System, a: Action)
    requires SystemOk(s) && CountsOk(s.db, s.passed)
    ensures CountsOk(Step(s, a).db, Step(s, a).passed)
  {
    StepWrites(s, a);
    hide CountsOk, OneWrite, Step, Write, ModeFits, InsertAttempt, AttachChild, RoleAdded;
    var after := Step(s, a).db;
    match a {
      case AddRole(id, role, stamp) => if after != s.db { RoleCounts(s.db, s.passed, id, role, stamp); }
      case Insert(w, mode, sequence, operation, id, stamp) =>
        if after != s.db { InsertCounts(s.db, s.passed, w, mode, sequence, operation, id, stamp); }
      case Advance(id, stamp) =>
        if !OneWrite(s.db, after) {
          assert StageOk(s.db, s.passed, id, s.starts[id]);
          AttachCounts(s.db, s.passed, s.db.attempts[id].parent.value, id, stamp);
        } else {
          WriteCounts(s.db, after, s.passed);
        }
      case _ => WriteCounts(s.db, after, s.passed);
    }
    PassingCounts(after, s.passed, Step(s, a).passed);
  }

  lemma RoleCounts(db: Db, passed: set<Id>, id: Id, role: Role, stamp: Id)
    requires CountsOk(db, passed)
    ensures CountsOk(RoleAdded(db, id, role, stamp), passed)
  {
    hide LinksOf;
    forall l | l in db.links
      ensures l.0 in db.attempts && l.1 in passed && l.1 in db.attempts && db.attempts[l.1].parent == Some(l.0)
    {
      assert LinkOk(db, passed, l);
    }
  }

  /**
   The registry revision counts the events, an attempt's child counter counts its recorded links,
   and every link joins an attempt that passed its check to the parent it was started under.
   */
  lemma {:induction false} CountersAgree(actions: seq<Action>)
    ensures CountsOk(Run(actions).db, Run(actions).passed)
  {
    hide Step, LinksOf, LinkOk;
    if actions != [] {
      CountersAgree(actions[..|actions| - 1]);
      RunIsOk(actions[..|actions| - 1]);
      hide SystemOk;
      StepCounts(Run(actions[..|actions| - 1]), actions[|actions| - 1]);
    }
  }

  // Histories ---------------------------------------------------------------------------------------------

  /** What one step leaves of the past: the log so far, every row's identity, and a code once given. */
  ghost predicate Later(db: Db, after: Db) {
    && db.events <= after.events
    && SamePlaces(db.attempts, after.attempts)
    && forall a :: a in db.attempts ==>
         && a in after.attempts && db.attempts[a].revision <= after.attempts[a].revision
         && (db.attempts[a].code.Some? ==> after.attempts[a].code.Some?)
         && after.attempts[a].mode == db.attempts[a].mode && after.attempts[a].sequence == db.attempts[a].sequence
         && after.attempts[a].operation == db.attempts[a].operation
  }

  lemma WriteIsLater(db: Db, after: Db)
    requires OneWrite(db, after)
    ensures Later(db, after)
  {
    hide Later, Transition;
    SameIsLater(db);
    if after != db {
      var a, state, given, stamp :| Wrote(db, after, a, state, given, stamp);
      TransitionIsLater(db, a, state, given, stamp);
    }
  }

  lemma StepIsLater(s: System, a: Action)
    ensures Later(s.db, Step(s, a).db)
  {
    StepWrites(s, a);
    hide Later, OneWrite, Step, Write, ModeFits, InsertAttempt, AttachChild, RoleAdded;
    SameIsLater(s.db);
    var after := Step(s, a).db;
    match a
    case AddRole(id, role, stamp) => RoleIsLater(s.db, id, role, stamp);
    case Insert(w, mode, sequence, operation, id, stamp) =>
      if after != s.db { InsertIsLater(s.db, w, mode, sequence, operation, id, stamp); }
    case Advance(id, stamp) =>
      if !OneWrite(s.db, after) { AttachIsLater(s.db, s.db.attempts[id].parent.value, id, stamp); }
      else { WriteIsLater(s.db, after); }
    case _ => WriteIsLater(s.db, after);
  }

  lemma SameIsLater(db: Db)
    ensures Later(db, db)
  {
  }

  lemma RoleIsLater(db: Db, id: Id, role: Role, stamp: Id)
    ensures Later(db, RoleAdded(db, id, role, stamp))
  {
  }

  lemma InsertIsLater(db: Db, w: Waiting, mode: Mode, sequence: nat, operation: Operation, a: Id, stamp: Id)
    requires a !in db.attempts
    ensures Later(db, InsertAttempt(db, w, mode, sequence, operation, a, stamp))
  {
  }

  lemma AttachIsLater(db: Db, parent: Id, child: Id, stamp: Id)
    requires parent in db.attempts
    ensures Later(db, AttachChild(db, parent, child, stamp))
  {
  }

  lemma TransitionIsLater(db: Db, a: Id, state: AttemptState, given: Option<Id>, stamp: Id)
    requires a in db.attempts
    ensures Later(db, Transition(db, a, state, given, stamp))
  {
  }

  /** Nothing a run recorded is forgotten by what follows, crashes included. */
  lemma {:induction false} HistoryIsKept(actions: seq<Action>, more: seq<Action>)
    ensures Later(Run(actions).db, Run(actions + more).db)
    decreases |more|
  {
    hide Step;
    if more == [] {
      assert actions + more == actions;
    } else {
      var init, last := more[..|more| - 1], more[|more| - 1];
      HistoryIsKept(actions, init);
      assert (actions + more)[..|actions + more| - 1] == actions + init;
      StepIsLater(Run(actions + init), last);
      LaterChains(Run(actions).db, Run(actions + init).db, Run(actions + more).db);
    }
  }

  lemma LaterChains(a: Db, b: Db, c: Db)
    requires Later(a, b) && Later(b, c)
    ensures Later(a, c)
  {
  }

  // Mode authority ----------------------------------------------------------------------------------------

  predicate SameAuthority(a: Attempt, b: Attempt) {
    a.mode == b.mode && a.sequence == b.sequence && a.operation == b.operation
  }

  predicate AuthorityKept(attempts: map<Id, Attempt>, a: Id)
    requires a in attempts
  {
    && !(attempts[a].operation == PrivateMutate && attempts[a].mode == Plan)
    && match attempts[a].parent
       case None => true
       case Some(p) => p in attempts && SameAuthority(attempts[a], attempts[p])
  }

  predicate ParentCaptured(attempts: map<Id, Attempt>, w: Waiting) {
    w.parent.Some? ==> w.parent.value.id in attempts && SameAuthority(w.parent.value.row, attempts[w.parent.value.id])
  }

  predicate AuthoritiesOk(s: System) {
    && (forall a :: a in s.db.attempts ==> AuthorityKept(s.db.attempts, a))
    && (forall w :: w in s.waiting ==> ParentCaptured(s.db.attempts, w))
  }

  /** Rows that keep their parent and their authority, and no new ones. */
  predicate AuthoritiesStay(attempts: map<Id, Attempt>, after: map<Id, Attempt>) {
    && after.Keys == attempts.Keys
    && forall a :: a in attempts ==> after[a].parent == attempts[a].parent && SameAuthority(after[a], attempts[a])
  }

  lemma AuthoritiesFollow(s: System, t: System)
    requires AuthoritiesOk(s) && AuthoritiesStay(s.db.attempts, t.db.attempts) && t.waiting <= s.waiting
    ensures AuthoritiesOk(t)
  {
    forall a | a in t.db.attempts ensures AuthorityKept(t.db.attempts, a) {
      assert AuthorityKept(s.db.attempts, a);
    }
    forall w | w in t.waiting ensures ParentCaptured(t.db.attempts, w) {
      assert ParentCaptured(s.db.attempts, w);
    }
  }

  lemma InsertAuthorities(s: System, w: Waiting, mode: Mode, sequence: nat, operation: Operation, id: Id, stamp: Id)
    requires AuthoritiesOk(s) && w in s.waiting && ModeFits(w, mode, sequence, operation) && id !in s.db.attempts
    ensures AuthoritiesOk(Serve(s, Insert(w, mode, sequence, operation, id, stamp)))
  {
    hide Record;
    var t := Serve(s, Insert(w, mode, sequence, operation, id, stamp));
    assert ParentCaptured(s.db.attempts, w);
    forall a | a in t.db.attempts ensures AuthorityKept(t.db.attempts, a) {
      if a != id { assert AuthorityKept(s.db.attempts, a); }
    }
    forall v | v in t.waiting ensures ParentCaptured(t.db.attempts, v) {
      assert ParentCaptured(s.db.attempts, v);
    }
  }

  lemma AskAuthorities(s: System, r: StartRequest)
    requires AuthoritiesOk(s)
    ensures AuthoritiesOk(Step(s, Ask(r)))
  {
    hide AuthorityKept;
    var t := Step(s, Ask(r));
    forall w | w in t.waiting ensures ParentCaptured(t.db.attempts, w) {
      if w in s.waiting { assert ParentCaptured(s.db.attempts, w); }
    }
  }

  lemma WriteStays(db: Db, after: Db)
    requires OneWrite(db, after)
    ensures AuthoritiesStay(db.attempts, after.attempts)
  {
    hide Record, NextCode;
    if after != db {
      var a, state, given, stamp :| Wrote(db, after, a, state, given, stamp);
    }
  }

  /** Every step but an insertion leaves all authorities alone. */
  lemma StepStays(s: System, a: Action)
    requires !a.Insert?
    ensures AuthoritiesStay(s.db.attempts, Step(s, a).db.attempts)
  {
    StepWrites(s, a);
    hide AuthoritiesStay, OneWrite, Step, Write, ModeFits, RoleAdded, AttachChild;
    var after := Step(s, a).db;
    NothingIsOne(s.db);
    WriteStays(s.db, s.db);
    match a
    case AddRole(id, role, stamp) => RoleKeepsRows(s.db, id, role, stamp);
    case Advance(id, stamp) =>
      if OneWrite(s.db, after) { WriteStays(s.db, after); } else { AttachStays(s, id, stamp, after); }
    case _ => WriteStays(s.db, after);
  }

  lemma StepAuthorities(s: System, a: Action)
    requires AuthoritiesOk(s)
    ensures AuthoritiesOk(Step(s, a))
  {
    hide AuthoritiesOk, AuthoritiesStay, Step, ModeFits, InsertAttempt;
    match a
    case Ask(r) => AskAuthorities(s, r);
    case Insert(w, mode, sequence, operation, id, stamp) => InsertStep(s, w, mode, sequence, operation, id, stamp);
    case _ =>
      StepStays(s, a);
      WaitingShrinks(s, a);
      AuthoritiesFollow(s, Step(s, a));
  }

  lemma InsertStep(s: System, w: Waiting, mode: Mode, sequence: nat, operation: Operation, id: Id, stamp: Id)
    requires AuthoritiesOk(s)
    ensures AuthoritiesOk(Step(s, Insert(w, mode, sequence, operation, id, stamp)))
  {
    hide AuthoritiesOk, ModeFits, InsertAttempt;
    if w in s.waiting && ModeFits(w, mode, sequence, operation) && id !in s.db.attempts {
      InsertAuthorities(s, w, mode, sequence, operation, id, stamp);
    }
  }

  lemma RoleKeepsRows(db: Db, id: Id, role: Role, stamp: Id)
    ensures RoleAdded(db, id, role, stamp).attempts == db.attempts
  {
  }

  lemma AttachStays(s: System, id: Id, stamp: Id, after: Db)
    requires Attaches(s, id, stamp, after)
    ensures AuthoritiesStay(s.db.attempts, after.attempts)
  {
    hide Record;
  }

  lemma WaitingShrinks(s: System, a: Action)
    requires !a.Ask?
    ensures Step(s, a).waiting <= s.waiting
  {
    hide Transition, Intact, Allowed, ModeFits, Open, InsertAttempt, AttachChild, Record, Settling, Prior;
  }

  lemma {:induction false} AuthoritiesHold(actions: seq<Action>)
    ensures AuthoritiesOk(Run(actions))
  {
    hide Step, AuthoritiesOk;
    if actions == [] {
      NoAuthorities();
    } else {
      AuthoritiesHold(actions[..|actions| - 1]);
      StepAuthorities(Run(actions[..|actions| - 1]), actions[|actions| - 1]);
    }
  }

  lemma NoAuthorities()
    ensures AuthoritiesOk(Boot())
  {
  }

  /**
   Every attempt acts under the mode, sequence and operation of the root of its tree, however starts
   interleave, and none mutates under the plan mode.
   */
  lemma {:induction false} OneAuthorityPerTree(actions: seq<Action>, a: Id)
    requires a in Run(actions).db.attempts
    ensures var attempts := Run(actions).db.attempts;
            && attempts[a].root in attempts && SameAuthority(attempts[a], attempts[attempts[a].root])
            && !(attempts[a].operation == PrivateMutate && attempts[a].mode == Plan)
  {
    hide Run, Traced, PassedOk, Grounded;
    RunIsOk(actions);
    AuthoritiesHold(actions);
    AuthorityOfRoot(Run(actions), a);
    assert AuthorityKept(Run(actions).db.attempts, a);
  }

  lemma {:induction false} AuthorityOfRoot(s: System, a: Id)
    requires AuthoritiesOk(s) && Grounded(s.db.attempts) && a in s.db.attempts
    ensures s.db.attempts[a].root in s.db.attempts
              && SameAuthority(s.db.attempts[a], s.db.attempts[s.db.attempts[a].root])
    decreases s.db.attempts[a].rank
  {
    GroundedAt(s.db.attempts, a);
    hide Grounded;
    assert AuthorityKept(s.db.attempts, a);
    if s.db.attempts[a].parent.Some? { AuthorityOfRoot(s, s.db.attempts[a].parent.value); }
  }
}
