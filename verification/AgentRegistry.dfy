/**
 The registry as the program runs it: tables updated in place, the walk up the tree and the startup
 self-check as loops.
 */
module AgentRegistry {
  import opened Wrappers
  import opened AgentTables
  import AgentRuns
  import AgentTheorems

  // The walk up the tree ---------------------------------------------------------------------------

  /** A stretch of the way up from `start`. */
  predicate Climbs(attempts: map<Id, Attempt>, start: Id, rows: seq<Id>) {
    && rows != [] && rows[0] == start
    && (forall i :: 0 <= i < |rows| ==> rows[i] in attempts)
    && (forall i :: 0 <= i < |rows| - 1 ==> attempts[rows[i]].parent == Some(rows[i + 1]))
    && (forall i, j :: 0 <= i < j < |rows| ==> rows[i] != rows[j])
  }

  /** A path that begins with the stretch goes on to the parent of its last row. */
  lemma PathGoesOn(attempts: map<Id, Attempt>, start: Id, rows: seq<Id>, path: seq<Id>)
    requires Climbs(attempts, start, rows) && IsPath(attempts, start, path) && rows <= path
    ensures match attempts[rows[|rows| - 1]].parent
            case None => path == rows
            case Some(p) => p in attempts && p !in rows && rows + [p] <= path
  {
    var last := |rows| - 1;
    assert path[last] == rows[last];
    if last + 1 < |path| {
      assert attempts[path[last]].parent == Some(path[last + 1]);
      forall i | 0 <= i < |rows| ensures rows[i] != path[last + 1] {
        assert rows[i] == path[i];
      }
    }
  }

  lemma {:induction false} DistinctFit(rows: seq<Id>, ids: set<Id>)
    requires (forall i :: 0 <= i < |rows| ==> rows[i] in ids)
               && (forall i, j :: 0 <= i < j < |rows| ==> rows[i] != rows[j])
    ensures |rows| <= |ids|
  {
    if rows != [] {
      var last := |rows| - 1;
      DistinctFit(rows[..last], ids - {rows[last]});
    }
  }

  /** What recovery makes of a row: three events to a terminal state, or nothing when it already is in one. */
  predicate RecoveredRow(before: Attempt, after: Attempt, clean: bool) {
    if Terminal(before.state) then after == before
    else
      && after.state == (if clean then RecoveredTerminal else UnverifiedResidual)
      && after.code == Some(if clean then "RECOVERY_REQUIRED" else "RESOURCE_IDENTITY_UNVERIFIED")
      && after == before.(state := after.state, code := after.code, revision := before.revision + 3)
  }

  class Registry {
    var roles: map<Id, Role>
    var attempts: map<Id, Attempt>
    var links: set<(Id, Id)>
    var events: seq<Event>
    var revision: nat
    var admission: Admission

    function Snapshot(): Db
      reads this
    {
      Db(roles, attempts, links, events, revision)
    }

    constructor ()
      ensures Snapshot() == AgentRuns.Boot().db && admission == Recovering
    {
      roles, attempts, links, events, revision, admission := map[], map[], {}, [], 0, Recovering;
    }

    /** The path to the root, or nothing when a parent is missing or comes twice: then there is none. */
    method AncestorRows(start: Id) returns (rows: Option<seq<Id>>)
      ensures rows.Some? ==> IsPath(attempts, start, rows.value)
      ensures rows.None? ==> forall path :: !IsPath(attempts, start, path)
    {
      if start !in attempts {
        return None;
      }
      var found := [start];
      var current := start;
      while attempts[current].parent.Some?
        invariant Climbs(attempts, start, found) && current == found[|found| - 1]
        invariant forall path :: IsPath(attempts, start, path) ==> found <= path
        decreases |attempts.Keys| - |found|
      {
        hide IsPath;
        forall path | IsPath(attempts, start, path)
          ensures attempts[current].parent.value in attempts && attempts[current].parent.value !in found
          ensures found + [attempts[current].parent.value] <= path
        {
          PathGoesOn(attempts, start, found, path);
        }
        current := attempts[current].parent.value;
        if current !in attempts || current in found {
          return None;
        }
        found := found + [current];
        DistinctFit(found, attempts.Keys);
      }
      return Some(found);
    }

    /** `requireChild` on the parent row `parent` of `id`: accepts exactly the allowed children. */
    method RequireChild(id: Id, parent: Attempt, child: Id, task: Id) returns (allowed: bool)
      requires child in roles
      ensures allowed <==> AllowedUnder(Snapshot(), id, parent, child, task)
    {
      if parent.state !in {Starting, Ready, Active} || parent.task != task || parent.role !in roles {
        return false;
      }
      var grant, wanted := roles[parent.role], roles[child];
      if !grant.mayCreateChildren || wanted.key !in grant.childRoleKeys || !Contained(wanted, grant) {
        return false;
      }
      var found := AncestorRows(id);
      if found.None? {
        return false;
      }
      var rows := found.value;
      OnlyPathDecides(Snapshot(), id, rows, parent, child, task);
      if |rows| >= Least(4, grant.maxChildDepth) || parent.children >= Least(8, grant.maxDirectChildren)
         || |Under(attempts, parent.root)| >= 32 {
        return false;
      }
      return forall i :: 0 <= i < |rows| ==> attempts[rows[i]].role != child;
    }

    // Writes -------------------------------------------------------------------------------------------

    method Log(stamp: Id, attempt: Option<Id>, kind: Kind, code: Id, fields: Fields)
      modifies `events
      ensures events == Record(old(events), stamp, attempt, kind, code, fields)
    {
      var previous := if |events| > 0 then events[|events| - 1].digest else Beginning;
      var draft := Event(stamp, attempt, kind, code, fields, previous, Beginning);
      events := events + [draft.(digest := SourceDigest(draft))];
    }

    method BumpRegistry()
      modifies `revision
      ensures revision == old(revision) + 1
    {
      revision := revision + 1;
    }

    /** What every write keeps: the self-check's verdict, the log so far, and every row's place in the tree. */
    twostate predicate Kept()
      reads this
    {
      && (old(Intact(Snapshot())) ==> Intact(Snapshot()))
      && old(events) <= events && |events| == |old(events)| + 1
      && AgentTheorems.SamePlaces(old(attempts), attempts)
    }

    /** `transition`: to any state, as its last event says; a code that was given stays or is replaced. */
    method Transition(id: Id, state: AttemptState, given: Option<Id>, stamp: Id)
      requires id in attempts
      modifies `attempts, `events, `revision
      ensures Snapshot() == AgentRuns.Transition(old(Snapshot()), id, state, given, stamp)
      ensures Kept() && attempts.Keys == old(attempts).Keys
      ensures LastNamed(events, id) == Some(state) && (old(attempts[id].code).Some? ==> attempts[id].code.Some?)
    {
      hide Record, Intact, LastNamed, AgentTheorems.SamePlaces;
      ghost var db := Snapshot();
      var row := attempts[id];
      BumpRegistry();
      var escalated := row.code == Some("CANCELLED") && given == Some("CANCEL_GRACE_EXPIRED");
      var next := given;
      if state == Cleaning {
        if !escalated && row.code.Some? {
          next := row.code;
        }
      } else if given.None? {
        next := row.code;
      }
      attempts := attempts[id := row.(state := state, code := next, revision := row.revision + 1)];
      Log(stamp, Some(id), OfAttempt(state), if next.Some? then next.value else "AGENT_OK", NoFields);
      TransitionKept(db, id, state, given, stamp);
    }

    /** `attachChild`: one link and one more child of the parent; the parent's state is not told anew. */
    method AttachChild(parent: Id, child: Id, stamp: Id)
      requires parent in attempts
      modifies `attempts, `links, `events, `revision
      ensures Snapshot() == AgentRuns.AttachChild(old(Snapshot()), parent, child, stamp)
      ensures Kept() && LastNamed(events, parent) == old(LastNamed(events, parent))
    {
      hide Record, Intact, LastNamed;
      ghost var db := Snapshot();
      BumpRegistry();
      links := links + {(parent, child)};
      var row := attempts[parent];
      attempts := attempts[parent := row.(children := row.children + 1, revision := row.revision + 1)];
      Log(stamp, Some(parent), ChildAttached, "AGENT_OK", Child(child));
      AgentTheorems.AfterRecord(db.events, stamp, Some(parent), ChildAttached, "AGENT_OK", Child(child), parent);
      RecordExtends(db.events, stamp, Some(parent), ChildAttached, "AGENT_OK", Child(child));
      if Intact(db) {
        AttachIntact(db, parent, child, stamp);
      }
    }

    /** The insertion of `startAttempt`: a new row below its parent, and the event its history begins with. */
    method InsertAttempt(w: AgentRuns.Waiting, mode: Mode, sequence: nat, operation: Operation, id: Id, stamp: Id)
      requires id !in attempts && AgentRuns.ModeFits(w, mode, sequence, operation) && CapturedParent(attempts, w)
      modifies `attempts, `events, `revision
      ensures Snapshot() == AgentRuns.InsertAttempt(old(Snapshot()), w, mode, sequence, operation, id, stamp)
      ensures old(Unheard(events, id)) ==> Kept()
    {
      hide Record, Intact, LastNamed;
      ghost var db := Snapshot();
      var root, parent := id, None;
      if w.parent.Some? {
        root, parent := w.parent.value.row.root, Some(w.parent.value.id);
      }
      BumpRegistry();
      attempts := attempts[id := Attempt(|attempts|, root, parent, 1, w.request.task, mode, sequence, operation,
                                         w.request.role,
                                         Requested, None, 0)];
      Log(stamp, Some(id), OfAttempt(Requested), "AGENT_OK", Authority(mode, sequence, operation));
      RecordExtends(db.events, stamp, Some(id), OfAttempt(Requested), "AGENT_OK", Authority(mode, sequence, operation));
      if Intact(db) && Unheard(db.events, id) {
        InsertIntact(db, w, mode, sequence, operation, id, stamp);
      }
    }

    // The self-check -----------------------------------------------------------------------------------

    method CheckEvents() returns (ok: bool)
      ensures ok == Chained(events)
    {
      var i, previous := 0, Beginning;
      while i < |events|
        invariant 0 <= i <= |events|
        invariant Chained(events[..i]) && previous == LastDigest(events[..i])
      {
        assert events[..i + 1][..i] == events[..i];
        if events[i].previous != previous || events[i].digest != SourceDigest(events[i]) {
          BrokenStays(events, i + 1);
          return false;
        }
        previous := events[i].digest;
        i := i + 1;
      }
      assert events[..i] == events;
      return true;
    }

    /** One pass over an attempt's events: how many, the last state they name, and the first. */
    method EventsOf(id: Id) returns (count: nat, named: Option<AttemptState>, first: Option<Event>)
      ensures count == CountOf(events, id) && named == LastNamed(events, id) && first == FirstOf(events, id)
    {
      count, named, first := 0, None, None;
      var i := 0;
      while i < |events|
        invariant 0 <= i <= |events|
        invariant count == CountOf(events[..i], id) && named == LastNamed(events[..i], id)
                    && first == FirstOf(events[..i], id)
      {
        assert events[..i + 1][..i] == events[..i];
        var e := events[i];
        if e.attempt == Some(id) {
          count := count + 1;
          if first.None? {
            first := Some(e);
          }
          if e.kind.OfAttempt? {
            named := Some(e.kind.state);
          }
        }
        i := i + 1;
      }
      assert events[..i] == events;
    }

    method CheckAttempt(id: Id) returns (ok: bool)
      requires id in attempts
      ensures ok <==> AttemptIntact(Snapshot(), id)
    {
      hide IsPath, CountOf, LastNamed, FirstOf, FirstEventValid, AuthorityValid;
      var row := attempts[id];
      var count, named, first := EventsOf(id);
      if count != row.revision || named != Some(row.state) {
        return false;
      }
      var found := AncestorRows(id);
      if found.None? {
        return false;
      }
      PathEnds(attempts, id, found.value, row.root);
      if found.value[|found.value| - 1] != row.root {
        return false;
      }
      return AuthorityValid(row) && FirstEventValid(row, first);
    }

    /** `assertIntegrity` accepts exactly the intact databases. */
    method AssertIntegrity() returns (ok: bool)
      ensures ok <==> Intact(Snapshot())
    {
      hide AttemptIntact, Chained;
      ok := CheckEvents();
      if !ok {
        return;
      }
      var todo := attempts.Keys;
      while todo != {}
        invariant todo <= attempts.Keys
        invariant forall id :: id in attempts && id !in todo ==> AttemptIntact(Snapshot(), id)
        decreases todo
      {
        var id :| id in todo;
        ok := CheckAttempt(id);
        if !ok {
          return;
        }
        todo := todo - {id};
      }
      ok := true;
    }

    // Startup ------------------------------------------------------------------------------------------

    /** One turn of the recovery loop. */
    method RecoverAttempt(id: Id, clean: bool, stamps: (Id, Id, Id))
      requires id in attempts && !Terminal(attempts[id].state) && Intact(Snapshot())
      modifies `attempts, `events, `revision
      ensures Intact(Snapshot()) && roles == old(roles) && links == old(links) && old(events) <= events
      ensures id in attempts && RecoveredRow(old(attempts[id]), attempts[id], clean)
      ensures attempts == old(attempts)[id := attempts[id]]
    {
      hide Intact, RecoveredRow, Terminal, AgentRuns.Transition;
      ghost var before := Snapshot();
      RecoveryIntact(before, id, clean, stamps);
      Transition(id, RecoveryRequired, Some("RECOVERY_REQUIRED"), stamps.0);
      Transition(id, Reconciling, None, stamps.1);
      if clean {
        Transition(id, RecoveredTerminal, Some("RECOVERY_REQUIRED"), stamps.2);
      } else {
        Transition(id, UnverifiedResidual, Some("RESOURCE_IDENTITY_UNVERIFIED"), stamps.2);
      }
      assert Snapshot() == Recovered(before, id, clean, stamps);
    }

    /**
     `onStart`: after the self-check every attempt still under way is brought to a terminal state.
     `clean` are the attempts without resources or whose owners proved them gone. Admission is
     blocked exactly when one of the attempts recovered here is not among them.
     */
    method Start(clean: set<Id>, stamps: map<Id, (Id, Id, Id)>) returns (ok: bool)
      requires attempts.Keys <= stamps.Keys
      modifies this
      ensures ok <==> old(Intact(Snapshot()))
      ensures !ok ==> Snapshot() == old(Snapshot()) && admission == Blocked
      ensures ok ==> Intact(Snapshot()) && roles == old(roles) && links == old(links) && old(events) <= events
      ensures ok ==> attempts.Keys == old(attempts).Keys
                     && forall id :: id in old(attempts) ==> RecoveredRow(old(attempts)[id], attempts[id], id in clean)
      ensures ok ==> (admission == Blocked <==>
                        exists id :: id in old(attempts) && !Terminal(old(attempts)[id].state) && id !in clean)
      ensures ok ==> forall id :: id in attempts ==> Terminal(attempts[id].state)
      ensures ok ==> (admission == Enabled <==> admission != Blocked)
    {
      hide Intact, RecoveredRow, Terminal;
      ok := AssertIntegrity();
      if !ok {
        admission := Blocked;
        return;
      }
      var todo := set id | id in attempts && !Terminal(attempts[id].state);
      ghost var all := todo;
      var residual := 0;
      forall id | id in attempts && id !in todo ensures RecoveredRow(attempts[id], attempts[id], id in clean) {
        TerminalStays(attempts[id], id in clean);
      }
      while todo != {}
        invariant todo <= all && all <= attempts.Keys && attempts.Keys == old(attempts).Keys
        invariant Intact(Snapshot()) && roles == old(roles) && links == old(links) && old(events) <= events
        invariant forall id :: id in todo ==> attempts[id] == old(attempts)[id]
        invariant forall id :: id in attempts && id !in todo
                    ==> RecoveredRow(old(attempts)[id], attempts[id], id in clean)
        invariant residual > 0 <==> exists id :: id in all && id !in todo && id !in clean
        decreases todo
      {
        var id :| id in todo;
        RecoverAttempt(id, id in clean, stamps[id]);
        todo := todo - {id};
        if id !in clean {
          residual := residual + 1;
        }
      }
      admission := if residual > 0 then Blocked else Enabled;
      forall id | id in attempts ensures Terminal(attempts[id].state) {
        RecoveredIsTerminal(old(attempts)[id], attempts[id], id in clean);
      }
    }
  }

  /** The three transitions of one recovery. */
  function Recovered(db: Db, id: Id, clean: bool, stamps: (Id, Id, Id)): Db
    requires id in db.attempts
  {
    var asked := AgentRuns.Transition(db, id, RecoveryRequired, Some("RECOVERY_REQUIRED"), stamps.0);
    var reconciled := AgentRuns.Transition(asked, id, Reconciling, None, stamps.1);
    if clean then AgentRuns.Transition(reconciled, id, RecoveredTerminal, Some("RECOVERY_REQUIRED"), stamps.2)
    else AgentRuns.Transition(reconciled, id, UnverifiedResidual, Some("RESOURCE_IDENTITY_UNVERIFIED"), stamps.2)
  }

  lemma RecoveryIntact(db: Db, id: Id, clean: bool, stamps: (Id, Id, Id))
    requires id in db.attempts && !Terminal(db.attempts[id].state) && Intact(db)
    ensures var after := Recovered(db, id, clean, stamps);
            && Intact(after) && after.roles == db.roles && after.links == db.links && db.events <= after.events
            && id in after.attempts && RecoveredRow(db.attempts[id], after.attempts[id], clean)
            && after.attempts == db.attempts[id := after.attempts[id]]
  {
    hide Intact, Record;
    var asked := AgentRuns.Transition(db, id, RecoveryRequired, Some("RECOVERY_REQUIRED"), stamps.0);
    TransitionIntact(db, id, RecoveryRequired, Some("RECOVERY_REQUIRED"), stamps.0);
    var reconciled := AgentRuns.Transition(asked, id, Reconciling, None, stamps.1);
    TransitionIntact(asked, id, Reconciling, None, stamps.1);
    var state := if clean then RecoveredTerminal else UnverifiedResidual;
    var code := if clean then "RECOVERY_REQUIRED" else "RESOURCE_IDENTITY_UNVERIFIED";
    TransitionIntact(reconciled, id, state, Some(code), stamps.2);
  }

  lemma RecoveredIsTerminal(before: Attempt, after: Attempt, clean: bool)
    requires RecoveredRow(before, after, clean)
    ensures Terminal(after.state)
  {
  }

  lemma TerminalStays(row: Attempt, clean: bool)
    requires Terminal(row.state)
    ensures RecoveredRow(row, row, clean)
  {
  }

  lemma TransitionKept(db: Db, id: Id, state: AttemptState, given: Option<Id>, stamp: Id)
    requires id in db.attempts
    ensures var after := AgentRuns.Transition(db, id, state, given, stamp);
            && (Intact(db) ==> Intact(after))
            && db.events <= after.events && |after.events| == |db.events| + 1
            && AgentTheorems.SamePlaces(db.attempts, after.attempts) && LastNamed(after.events, id) == Some(state)
            && (db.attempts[id].code.Some? ==> after.attempts[id].code.Some?)
  {
    TransitionTells(db, id, state, given, stamp);
    hide *;
    if Intact(db) { TransitionIntact(db, id, state, given, stamp); }
  }

  lemma TransitionTells(db: Db, id: Id, state: AttemptState, given: Option<Id>, stamp: Id)
    requires id in db.attempts
    ensures var after := AgentRuns.Transition(db, id, state, given, stamp);
            && db.events <= after.events && |after.events| == |db.events| + 1 && id in after.attempts
            && AgentTheorems.SamePlaces(db.attempts, after.attempts) && LastNamed(after.events, id) == Some(state)
            && (db.attempts[id].code.Some? ==> after.attempts[id].code.Some?)
  {
    AgentTheorems.TransitionIsLater(db, id, state, given, stamp);
    TransitionNames(db, id, state, given, stamp);
    hide AgentRuns.Transition, LastNamed, AgentTheorems.SamePlaces;
  }

  lemma TransitionNames(db: Db, id: Id, state: AttemptState, given: Option<Id>, stamp: Id)
    requires id in db.attempts
    ensures var events := AgentRuns.Transition(db, id, state, given, stamp).events;
            LastNamed(events, id) == Some(state) && |events| == |db.events| + 1
  {
    hide LastNamed, CountOf, FirstOf, AgentRuns.NextCode;
    var code := AgentRuns.NextCode(db.attempts[id].code, state, given);
    var told := if code.Some? then code.value else "AGENT_OK";
    AgentTheorems.AfterRecord(db.events, stamp, Some(id), OfAttempt(state), told, NoFields, id);
  }

  lemma RecordExtends(events: seq<Event>, id: Id, attempt: Option<Id>, kind: Kind, code: Id, fields: Fields)
    ensures var log := Record(events, id, attempt, kind, code, fields); events <= log && |log| == |events| + 1
  {
  }

  /** The parent a start captured is there, with the root it was read with. */
  predicate CapturedParent(attempts: map<Id, Attempt>, w: AgentRuns.Waiting) {
    w.parent.Some? ==> w.parent.value.id in attempts && attempts[w.parent.value.id].root == w.parent.value.row.root
  }

  /** No event names the attempt yet. */
  predicate Unheard(events: seq<Event>, id: Id) {
    forall k :: 0 <= k < |events| ==> events[k].attempt != Some(id)
  }

  lemma {:induction false} AttachIntact(db: Db, parent: Id, child: Id, stamp: Id)
    requires Intact(db) && parent in db.attempts
    ensures Intact(AgentRuns.AttachChild(db, parent, child, stamp))
  {
    hide IsPath, CountOf, LastNamed, FirstOf, Chained, FirstEventValid, AuthorityValid;
    var after := AgentRuns.AttachChild(db, parent, child, stamp);
    AgentTheorems.ChainedAfter(db.events, stamp, Some(parent), ChildAttached, "AGENT_OK", Child(child));
    forall a | a in after.attempts ensures AttemptIntact(after, a) {
      AgentTheorems.AfterRecord(db.events, stamp, Some(parent), ChildAttached, "AGENT_OK", Child(child), a);
      AttemptStaysIntact(db, after, parent, a);
    }
  }

  /** A new attempt below an intact parent is intact, and so is everything else. */
  lemma {:induction false} InsertIntact(db: Db, w: AgentRuns.Waiting, mode: Mode, sequence: nat, operation: Operation,
      id: Id,
      stamp: Id)
    requires Intact(db) && id !in db.attempts && AgentRuns.ModeFits(w, mode, sequence, operation)
    requires CapturedParent(db.attempts, w) && Unheard(db.events, id)
    ensures Intact(AgentRuns.InsertAttempt(db, w, mode, sequence, operation, id, stamp))
  {
    hide IsPath, CountOf, LastNamed, FirstOf, Chained, Unheard, Record;
    var after := AgentRuns.InsertAttempt(db, w, mode, sequence, operation, id, stamp);
    var fields := Authority(mode, sequence, operation);
    AgentTheorems.ChainedAfter(db.events, stamp, Some(id), OfAttempt(Requested), "AGENT_OK", fields);
    forall a | a in after.attempts ensures AttemptIntact(after, a) {
      AgentTheorems.AfterRecord(db.events, stamp, Some(id), OfAttempt(Requested), "AGENT_OK", fields, a);
      if a == id {
        UnheardCounts(db.events, id);
        NewPath(db, w, after.attempts, id);
      } else {
        hide FirstEventValid, AuthorityValid;
        OldPath(db.attempts, after.attempts, a);
      }
    }
  }

  lemma UnheardCounts(events: seq<Event>, id: Id)
    requires Unheard(events, id)
    ensures CountOf(events, id) == 0 && FirstOf(events, id) == None
  {
    AgentTheorems.NoEvents(events, id);
  }

  lemma OldPath(attempts: map<Id, Attempt>, after: map<Id, Attempt>, a: Id)
    requires attempts.Keys <= after.Keys && forall b :: b in attempts ==> after[b] == attempts[b]
    requires a in attempts && exists rows :: IsPath(attempts, a, rows) && rows[|rows| - 1] == attempts[a].root
    ensures exists rows :: IsPath(after, a, rows) && rows[|rows| - 1] == after[a].root
  {
    var rows :| IsPath(attempts, a, rows) && rows[|rows| - 1] == attempts[a].root;
    assert IsPath(after, a, rows);
  }

  lemma NewPath(db: Db, w: AgentRuns.Waiting, after: map<Id, Attempt>, id: Id)
    requires Intact(db) && id !in db.attempts && CapturedParent(db.attempts, w) && id in after
    requires after == db.attempts[id := after[id]]
    requires after[id].parent == if w.parent.Some? then Some(w.parent.value.id) else None
    requires after[id].root == if w.parent.Some? then w.parent.value.row.root else id
    ensures exists rows :: IsPath(after, id, rows) && rows[|rows| - 1] == after[id].root
  {
    hide CountOf, LastNamed, FirstOf, Chained, FirstEventValid, AuthorityValid, IsPath;
    if w.parent.Some? {
      var p := w.parent.value.id;
      var above := PathOf(db, p);
      PathBelow(db.attempts, after, id, p, above);
    } else {
      RootPath(after, id);
    }
  }

  lemma PathOf(db: Db, a: Id) returns (rows: seq<Id>)
    requires Intact(db) && a in db.attempts
    ensures IsPath(db.attempts, a, rows) && rows != [] && rows[|rows| - 1] == db.attempts[a].root
  {
    hide CountOf, LastNamed, FirstOf, Chained, FirstEventValid, AuthorityValid;
    assert AttemptIntact(db, a);
    rows :| IsPath(db.attempts, a, rows) && rows[|rows| - 1] == db.attempts[a].root;
  }

  lemma RootPath(after: map<Id, Attempt>, id: Id)
    requires id in after && after[id].parent == None
    ensures IsPath(after, id, [id])
  {
  }

  lemma PathBelow(attempts: map<Id, Attempt>, after: map<Id, Attempt>, id: Id, p: Id, above: seq<Id>)
    requires IsPath(attempts, p, above) && id !in attempts && id in after && after[id].parent == Some(p)
    requires after == attempts[id := after[id]]
    ensures IsPath(after, id, [id] + above) && ([id] + above)[|above|] == above[|above| - 1]
  {
    var rows := [id] + above;
    forall i | 0 <= i < |rows| - 1 ensures after[rows[i]].parent == Some(rows[i + 1]) {
      if i > 0 { assert attempts[above[i - 1]].parent == Some(above[i]); }
    }
  }

  /** A transition keeps the self-check's verdict, whatever state it writes. */
  lemma {:induction false} TransitionIntact(db: Db, id: Id, state: AttemptState, given: Option<Id>, stamp: Id)
    requires Intact(db) && id in db.attempts
    ensures Intact(AgentRuns.Transition(db, id, state, given, stamp))
    ensures db.events <= AgentRuns.Transition(db, id, state, given, stamp).events
  {
    hide IsPath, CountOf, LastNamed, FirstOf, Chained, FirstEventValid, AuthorityValid;
    var after := AgentRuns.Transition(db, id, state, given, stamp);
    var code := after.attempts[id].code;
    var told := if code.Some? then code.value else "AGENT_OK";
    AgentTheorems.ChainedAfter(db.events, stamp, Some(id), OfAttempt(state), told, NoFields);
    forall a | a in after.attempts ensures AttemptIntact(after, a) {
      AgentTheorems.AfterRecord(db.events, stamp, Some(id), OfAttempt(state), told, NoFields, a);
      AttemptStaysIntact(db, after, id, a);
    }
  }

  lemma AttemptStaysIntact(db: Db, after: Db, id: Id, a: Id)
    requires id in db.attempts && a in db.attempts && after.attempts.Keys == db.attempts.Keys && AttemptIntact(db, a)
    requires forall b :: b in db.attempts ==> after.attempts[b].parent == db.attempts[b].parent
    requires var row, then_ := db.attempts[a], after.attempts[a];
             && then_ == row.(state := then_.state, code := then_.code, revision := then_.revision,
                              children := then_.children)
             && then_.revision == CountOf(after.events, a) && LastNamed(after.events, a) == Some(then_.state)
    requires FirstOf(db.events, a).Some? ==> FirstOf(after.events, a) == FirstOf(db.events, a)
    ensures AttemptIntact(after, a)
  {
    hide CountOf, LastNamed, FirstOf;
    var rows :| IsPath(db.attempts, a, rows) && rows[|rows| - 1] == db.attempts[a].root;
    PathStands(db.attempts, after.attempts, a, rows);
  }

  lemma PathStands(attempts: map<Id, Attempt>, after: map<Id, Attempt>, a: Id, rows: seq<Id>)
    requires IsPath(attempts, a, rows) && attempts.Keys == after.Keys
    requires forall b :: b in attempts ==> after[b].parent == attempts[b].parent
    ensures IsPath(after, a, rows)
  {
  }

  /** The child check of a run, on the one path there is. */
  ghost predicate AllowedUnder(db: Db, id: Id, parent: Attempt, child: Id, task: Id)
    requires child in db.roles
  {
    exists rows :: IsPath(db.attempts, id, rows) && ChildAllowed(db, parent, rows, child, task)
  }

  lemma {:induction false} PathsAgree(attempts: map<Id, Attempt>, a: Id, one: seq<Id>, other: seq<Id>)
    requires IsPath(attempts, a, one) && IsPath(attempts, a, other)
    ensures one == other
    decreases |one|
  {
    hide IsPath;
    PathHead(attempts, a, one);
    AgentTheorems.PathTail(attempts, a, one);
    AgentTheorems.PathTail(attempts, a, other);
    if attempts[a].parent.Some? { PathsAgree(attempts, attempts[a].parent.value, one[1..], other[1..]); }
  }

  lemma PathHead(attempts: map<Id, Attempt>, a: Id, rows: seq<Id>)
    requires IsPath(attempts, a, rows)
    ensures a in attempts && rows != []
  {
  }

  lemma OnlyPathDecides(db: Db, id: Id, rows: seq<Id>, parent: Attempt, child: Id, task: Id)
    requires child in db.roles && IsPath(db.attempts, id, rows)
    ensures AllowedUnder(db, id, parent, child, task) <==> ChildAllowed(db, parent, rows, child, task)
  {
    hide ChildAllowed;
    if AllowedUnder(db, id, parent, child, task) {
      var path :| IsPath(db.attempts, id, path) && ChildAllowed(db, parent, path, child, task);
      PathsAgree(db.attempts, id, path, rows);
    }
  }

  lemma PathEnds(attempts: map<Id, Attempt>, id: Id, rows: seq<Id>, root: Id)
    requires IsPath(attempts, id, rows)
    ensures rows != []
    ensures (exists path :: IsPath(attempts, id, path) && path[|path| - 1] == root) <==> rows[|rows| - 1] == root
  {
    hide IsPath;
    PathHead(attempts, id, rows);
    forall path | IsPath(attempts, id, path) ensures path == rows {
      PathsAgree(attempts, id, path, rows);
    }
  }

  /** A log with a broken prefix is broken. */
  lemma {:induction false} BrokenStays(events: seq<Event>, n: nat)
    requires n <= |events| && !Chained(events[..n])
    ensures !Chained(events)
    decreases |events| - n
  {
    if n < |events| {
      assert events[..n + 1][..n] == events[..n];
      BrokenStays(events, n + 1);
    } else {
      assert events[..n] == events;
    }
  }
}
