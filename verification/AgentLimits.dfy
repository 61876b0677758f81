/** How far starts that overlap can go: the cap on direct children, and the bound on the attempts of a root. */
module AgentLimits {
  import opened Wrappers
  import opened AgentTables
  import opened AgentRuns
  import opened AgentTheorems
  import opened AgentRecovery
  import opened AgentWitness

  // The cap on direct children ----------------------------------------------------------------------------

  /** How many direct children the check allows an attempt. */
  function Cap(db: Db, p: Id): nat
    requires p in db.attempts && db.attempts[p].role in db.roles
  {
    Least(8, db.roles[db.attempts[p].role].maxDirectChildren)
  }

  /** The step attaches a started child to this parent. */
  predicate AttachesTo(s: System, act: Action, p: Id) {
    && act.Advance? && s.status.Up? && act.starting in s.starts && s.starts[act.starting].AtAdmission?
    && act.starting in s.db.attempts && s.db.attempts[act.starting].parent == Some(p)
    && p in s.db.attempts && (p, act.starting) !in s.db.links
  }

  /** It does so although the parent has no room for it. */
  predicate AttachesLate(s: System, act: Action, p: Id) {
    && AttachesTo(s, act, p) && s.db.attempts[p].role in s.db.roles && s.db.attempts[p].children >= Cap(s.db, p)
  }

  ghost predicate LateAt(actions: seq<Action>, k: nat, p: Id)
    requires k < |actions|
  {
    AttachesLate(Run(actions[..k]), actions[k], p)
  }

  /** When the start read its parent, that had room for a child. */
  predicate RoomRead(db: Db, id: Id, w: Waiting) {
    && id in db.attempts
    && match w.parent
       case None => db.attempts[id].parent == None
       case Some(q) =>
         && db.attempts[id].parent == Some(q.id) && q.id in db.attempts && db.attempts[q.id].role in db.roles
         && q.row.children < Cap(db, q.id)
  }

  predicate Beyond(stage: Stage) { stage.Passed? || stage.AtAdmission? }

  ghost predicate LimitsOk(s: System) {
    && (forall w :: w in s.waiting ==> w.request.role in s.db.roles)
    && (forall a :: a in s.db.attempts ==> s.db.attempts[a].role in s.db.roles)
    && (forall id :: id in s.starts && Beyond(s.starts[id]) ==> RoomRead(s.db, id, s.starts[id].waiting))
  }

  predicate SameRoles(roles: map<Id, Role>, after: map<Id, Role>) {
    forall r :: r in roles ==> r in after && after[r] == roles[r]
  }

  lemma RolesStay(s: System, act: Action)
    ensures SameRoles(s.db.roles, Step(s, act).db.roles)
  {
    StepWrites(s, act);
    hide Record, NextCode, Step, Write, ModeFits;
  }

  lemma RoomStays(db: Db, after: Db, id: Id, w: Waiting)
    requires RoomRead(db, id, w) && SamePlaces(db.attempts, after.attempts) && SameRoles(db.roles, after.roles)
    ensures RoomRead(after, id, w)
  {
  }

  /** Stages beyond the check come from such stages, or from a check that the start passed. */
  lemma StagesComeFrom(s: System, act: Action, id: Id)
    requires id in Step(s, act).starts && Beyond(Step(s, act).starts[id])
    ensures id in s.starts
    ensures var stage := Step(s, act).starts[id];
            || (Beyond(s.starts[id]) && s.starts[id].waiting == stage.waiting)
            || (&& act.Decide? && act.candidate == id && s.starts[id] == Undecided(stage.waiting)
                && Allowed(s.db, stage.waiting, act.policy))
  {
    hide Write, Intact, Open, Transition, Serve, Terminal;
    match act
    case Ask(_) => if s.status.Up? { ServedStagesComeFrom(s, act, id); }
    case Insert(_, _, _, _, _, _) => if s.status.Up? { ServedStagesComeFrom(s, act, id); }
    case Decide(_, _, _, _) => if s.status.Up? { ServedStagesComeFrom(s, act, id); }
    case Advance(_, _) => if s.status.Up? { ServedStagesComeFrom(s, act, id); }
    case FailStart(_, _, _, _) => if s.status.Up? { ServedStagesComeFrom(s, act, id); }
    case Observe(_, _, _) => if s.status.Up? { ServedStagesComeFrom(s, act, id); }
    case Expire(_, _, _) => if s.status.Up? { ServedStagesComeFrom(s, act, id); }
    case Break(_, _, _) => if s.status.Up? { ServedStagesComeFrom(s, act, id); }
    case BeginClean(_, _, _) => if s.status.Up? { ServedStagesComeFrom(s, act, id); }
    case EndClean(_, _, _) => if s.status.Up? { ServedStagesComeFrom(s, act, id); }
    case _ =>
  }

  lemma ServedStagesComeFrom(s: System, act: Action, id: Id)
    requires id in Serve(s, act).starts && Beyond(Serve(s, act).starts[id])
    ensures id in s.starts
    ensures var stage := Serve(s, act).starts[id];
            || (Beyond(s.starts[id]) && s.starts[id].waiting == stage.waiting)
            || (&& act.Decide? && act.candidate == id && s.starts[id] == Undecided(stage.waiting)
                && Allowed(s.db, stage.waiting, act.policy))
  {
    hide Write, InsertAttempt, AttachChild, Allowed, ModeFits, Prior, AfterObservation;
    if act.Observe? && act.session in s.db.attempts { ObservationKeepsControl(s, act.session, act.seen, act.stamp); }
  }

  /** What the check found of the parent. */
  lemma CheckedRoom(db: Db, passed: set<Id>, id: Id, w: Waiting, policy: bool)
    requires InsertedOk(db, passed, id, w) && Allowed(db, w, policy)
    ensures RoomRead(db, id, w)
  {
    hide Contained, Under;
  }

  lemma NewRowsAreKnown(s: System, act: Action, a: Id)
    requires LimitsOk(s) && a in Step(s, act).db.attempts
    ensures Step(s, act).db.attempts[a].role in Step(s, act).db.roles
  {
    hide Record, Step, Write, ModeFits, RoomRead, OneWrite;
    RolesStay(s, act);
    StepWrites(s, act);
    if a in s.db.attempts { StepIsLater(s, act); } else if !act.Insert? { StepStays(s, act); }
  }

  lemma WaitingIsKnown(s: System, act: Action, w: Waiting)
    requires LimitsOk(s) && w in Step(s, act).waiting
    ensures w.request.role in s.db.roles
  {
    if act.Ask? { hide RoomRead; } else { WaitingShrinks(s, act); hide Step, RoomRead; }
  }

  lemma StepKeepsLimits(s: System, act: Action)
    requires SystemOk(s) && LimitsOk(s)
    ensures LimitsOk(Step(s, act))
  {
    hide Step, RoomRead, Traced, TreeOk, InsertedOk, Allowed;
    var t := Step(s, act);
    RolesStay(s, act);
    StepIsLater(s, act);
    forall w | w in t.waiting ensures w.request.role in t.db.roles { WaitingIsKnown(s, act, w); }
    forall a | a in t.db.attempts ensures t.db.attempts[a].role in t.db.roles { NewRowsAreKnown(s, act, a); }
    forall id | id in t.starts && Beyond(t.starts[id]) ensures RoomRead(t.db, id, t.starts[id].waiting) {
      StagesComeFrom(s, act, id);
      var w := t.starts[id].waiting;
      if !Beyond(s.starts[id]) {
        assert StageOk(s.db, s.passed, id, s.starts[id]);
        CheckedRoom(s.db, s.passed, id, w, act.policy);
      }
      RoomStays(s.db, t.db, id, w);
    }
  }

  lemma {:induction false} LimitsInOrder(actions: seq<Action>)
    ensures LimitsOk(Run(actions))
  {
    hide Step;
    if actions != [] {
      var init := actions[..|actions| - 1];
      LimitsInOrder(init);
      RunIsOk(init);
      hide LimitsOk, SystemOk;
      StepKeepsLimits(Run(init), actions[|actions| - 1]);
    }
  }

  /** One step adds a child to the counter of a parent exactly when it attaches one. */
  lemma ChildrenCount(s: System, act: Action, p: Id)
    requires p in s.db.attempts
    ensures var t := Step(s, act);
            && p in t.db.attempts
            && t.db.attempts[p].children == s.db.attempts[p].children + if AttachesTo(s, act, p) then 1 else 0
  {
    if AttachesTo(s, act, p) {
      AdvanceIs(s, act.starting, act.stamp);
      hide Step, Record;
    } else {
      StepWrites(s, act);
      hide Record, NextCode, Step, Write, ModeFits;
      if act.Advance? && s.status.Up? { AdvanceIs(s, act.starting, act.stamp); }
    }
  }

  /** A row that a step inserts has no children. */
  lemma NewRowsAreChildless(s: System, act: Action, p: Id)
    requires p !in s.db.attempts && p in Step(s, act).db.attempts
    ensures Step(s, act).db.attempts[p].children == 0
  {
    StepWrites(s, act);
    hide Record, NextCode, Step, Write, ModeFits;
  }

  lemma CapStays(s: System, act: Action, p: Id)
    requires p in s.db.attempts && s.db.attempts[p].role in s.db.roles
    ensures var t := Step(s, act);
            p in t.db.attempts && t.db.attempts[p].role in t.db.roles && Cap(t.db, p) == Cap(s.db, p)
  {
    StepIsLater(s, act);
    RolesStay(s, act);
    hide Step;
  }

  lemma LateMore(actions: seq<Action>, act: Action, p: Id)
    ensures (exists k :: 0 <= k < |actions| + 1 && LateAt(actions + [act], k, p)) <==>
              (exists k :: 0 <= k < |actions| && LateAt(actions, k, p)) || AttachesLate(Run(actions), act, p)
  {
    hide Run, AttachesLate;
    var longer := actions + [act];
    forall k | 0 <= k < |actions| ensures LateAt(longer, k, p) <==> LateAt(actions, k, p) {
      assert longer[..k] == actions[..k];
    }
    assert longer[..|actions|] == actions;
    assert LateAt(longer, |actions|, p) <==> AttachesLate(Run(actions), act, p);
    if k :| 0 <= k < |actions| && LateAt(actions, k, p) { assert LateAt(longer, k, p); }
  }

  ghost predicate SomeLate(actions: seq<Action>, p: Id) {
    exists k :: 0 <= k < |actions| && LateAt(actions, k, p)
  }

  /** The counter and the late attachments agree; an attempt that is not there yet had none. */
  ghost predicate CapCounts(actions: seq<Action>, p: Id) {
    var db := Run(actions).db;
    if p in db.attempts then
      db.attempts[p].role in db.roles && (db.attempts[p].children > Cap(db, p) <==> SomeLate(actions, p))
    else !SomeLate(actions, p)
  }

  lemma {:induction false} CapCountsInRun(actions: seq<Action>, p: Id)
    ensures CapCounts(actions, p)
  {
    if actions != [] {
      var init, act := actions[..|actions| - 1], actions[|actions| - 1];
      CapCountsInRun(init, p);
      LimitsInOrder(init);
      assert actions == init + [act];
      LateMore(init, act, p);
      OneMore(init, act);
      hide Run, Step, LateAt, RoomRead;
      CapGoesOn(Run(init), act, p);
    }
  }

  lemma CapGoesOn(s: System, act: Action, p: Id)
    requires LimitsOk(s)
    ensures var t := Step(s, act);
            if p in s.db.attempts then
              && s.db.attempts[p].role in s.db.roles && p in t.db.attempts && t.db.attempts[p].role in t.db.roles
              && (t.db.attempts[p].children > Cap(t.db, p) <==>
                    s.db.attempts[p].children > Cap(s.db, p) || AttachesLate(s, act, p))
            else
              && !AttachesLate(s, act, p)
              && (p in t.db.attempts ==>
                    t.db.attempts[p].role in t.db.roles && t.db.attempts[p].children <= Cap(t.db, p))
  {
    hide Step, RoomRead;
    if p in s.db.attempts {
      ChildrenCount(s, act, p);
      CapStays(s, act, p);
    } else if p in Step(s, act).db.attempts {
      NewRowsAreChildless(s, act, p);
      NewRowsAreKnown(s, act, p);
    }
  }

  /**
   In every run an attempt has more direct children than the cap if and only if a start attached one
   when there was no room left. Each such start had read the parent while there still was.
   */
  lemma {:induction false} ChildrenExceedCapIff(actions: seq<Action>, p: Id)
    requires p in Run(actions).db.attempts
    ensures var db := Run(actions).db;
            && db.attempts[p].role in db.roles
            && (db.attempts[p].children > Cap(db, p) <==>
                  exists k :: 0 <= k < |actions| && LateAt(actions, k, p))
    ensures forall k :: 0 <= k < |actions| && LateAt(actions, k, p) ==>
              var s, w := Run(actions[..k]), Run(actions[..k]).starts[actions[k].starting].waiting;
              w.parent.Some? && w.parent.value.id == p && w.parent.value.row.children < Cap(s.db, p)
  {
    CapCountsInRun(actions, p);
    hide Run, Cap;
    forall k | 0 <= k < |actions| && LateAt(actions, k, p)
      ensures var s, w := Run(actions[..k]), Run(actions[..k]).starts[actions[k].starting].waiting;
              w.parent.Some? && w.parent.value.id == p && w.parent.value.row.children < Cap(s.db, p)
    {
      LimitsInOrder(actions[..k]);
      var s := Run(actions[..k]);
      assert RoomRead(s.db, actions[k].starting, s.starts[actions[k].starting].waiting);
    }
  }

  // Thirty children -----------------------------------------------------------------------------------------

  /** Ids of different lengths, all longer than that of the root. */
  function Nth(n: nat): (id: Id)
    ensures |id| == 8 + n
  {
    seq(8 + n, _ => 'c')
  }

  const CHILD_REQUEST: StartRequest := StartRequest("child", Some("attempt"), "task")

  function Child(root: Attempt): Waiting { Waiting(CHILD_REQUEST, Some(Parent("attempt", root))) }

  /** The root as its children read it: live, and without a child. */
  predicate Parental(root: Attempt) {
    && root.root == "attempt" && root.parent == None && root.children == 0 && root.role == "role" && root.task == "task"
    && root.mode == Build && root.sequence == 1 && root.operation == Research && root.state == Starting
  }

  /** The root with `n` more attempts inserted under it; `m` starts have read it and wait. */
  predicate Family(s: System, root: Attempt, n: nat, m: nat) {
    && s.status.Up? && s.admission == Enabled && Parental(root)
    && "role" in s.db.roles && s.db.roles["role"] == ROLE && "child" in s.db.roles && s.db.roles["child"] == ROLE
    && "attempt" in s.db.attempts && s.db.attempts["attempt"] == root && "attempt" in s.passed
    && |s.db.attempts| == n + 1 && s.db.links == {} && s.waiting[Child(root)] >= m
    && (forall a :: a in s.db.attempts ==> |a| < 8 + n && s.db.attempts[a].root == "attempt")
    && (forall i :: 0 <= i < n ==> Nth(i) in s.db.attempts && s.db.attempts[Nth(i)].parent == Some("attempt"))
  }

  /** The first `n` of them passed the check. */
  predicate Passing(s: System, root: Attempt, n: nat) {
    forall i :: 0 <= i < n ==> Nth(i) in s.starts && s.starts[Nth(i)] == Passed(Child(root)) && Nth(i) in s.passed
  }

  lemma OneFamily() returns (actions: seq<Action>, root: Attempt)
    ensures Family(Run(actions), root, 0, 0)
  {
    hide Run, Step;
    actions := OneLive();
    root := Run(actions).db.attempts["attempt"];
    FamilyBegins(Run(actions));
    OneMore(actions, AddRole("child", ROLE, "event"));
    actions := actions + [AddRole("child", ROLE, "event")];
  }

  lemma FamilyBegins(s: System)
    requires IsLive(s, None)
    ensures Family(Step(s, AddRole("child", ROLE, "event")), s.db.attempts["attempt"], 0, 0)
  {
    LiveRoot(s);
    hide Step, Record, Nth, Parental, IsLive;
    RoleIsAdded(s);
    OneRow(s.db.attempts);
    FamilyOfNone(Step(s, AddRole("child", ROLE, "event")), s.db.attempts["attempt"]);
  }

  lemma OneRow(attempts: map<Id, Attempt>)
    requires attempts.Keys == {"attempt"}
    ensures |attempts| == 1 && forall a :: a in attempts ==> a == "attempt"
  {
    assert |attempts| == |attempts.Keys|;
  }

  lemma FamilyOfNone(t: System, root: Attempt)
    requires t.status.Up? && t.admission == Enabled && Parental(root) && root.root == "attempt"
    requires "role" in t.db.roles && t.db.roles["role"] == ROLE && "child" in t.db.roles && t.db.roles["child"] == ROLE
    requires "attempt" in t.db.attempts && t.db.attempts["attempt"] == root && "attempt" in t.passed
    requires |t.db.attempts| == 1 && t.db.links == {} && forall a :: a in t.db.attempts ==> a == "attempt"
    ensures Family(t, root, 0, 0)
  {
    hide Nth, Parental;
  }

  lemma LiveRoot(s: System)
    requires IsLive(s, None)
    ensures s.status.Up? && s.admission == Enabled && "role" in s.db.roles && s.db.roles["role"] == ROLE
    ensures "child" !in s.db.roles && s.db.links == {} && s.db.attempts.Keys == {"attempt"} && "attempt" in s.passed
    ensures Parental(s.db.attempts["attempt"]) && s.db.attempts["attempt"].root == "attempt"
  {
  }

  lemma RoleIsAdded(s: System)
    requires s.status.Up? && "child" !in s.db.roles
    ensures Step(s, AddRole("child", ROLE, "event")) == s.(db := RoleAdded(s.db, "child", ROLE, "event"))
  {
    hide Record;
  }

  lemma Distinct(i: nat, j: nat)
    ensures Nth(i) != "attempt" && (i != j ==> Nth(i) != Nth(j))
  {
    assert |Nth(i)| > |"attempt"| && (i != j ==> |Nth(i)| != |Nth(j)|);
  }

  /** Thirty starts read the root before any of them goes on. */
  lemma ThirtyAsk() returns (actions: seq<Action>, root: Attempt)
    ensures Family(Run(actions), root, 0, 30)
  {
    hide Run, Step, Family;
    actions, root := OneFamily();
    var m := 0;
    while m < 30
      invariant m <= 30 && Family(Run(actions), root, 0, m)
    {
      ChildAsks(Run(actions), root, m);
      OneMore(actions, Ask(CHILD_REQUEST));
      actions := actions + [Ask(CHILD_REQUEST)];
      m := m + 1;
    }
  }

  lemma ChildAsks(s: System, root: Attempt, m: nat)
    requires Family(s, root, 0, m)
    ensures Family(Step(s, Ask(CHILD_REQUEST)), root, 0, m + 1)
  {
  }

  function Inserts(root: Attempt, n: nat): Action { Insert(Child(root), Build, 1, Research, Nth(n), "event") }

  lemma InsertIs(s: System, root: Attempt, n: nat)
    requires s.status.Up? && Child(root) in s.waiting && Parental(root) && Nth(n) !in s.db.attempts
    ensures Step(s, Inserts(root, n))
            == s.(db := InsertAttempt(s.db, Child(root), Build, 1, Research, Nth(n), "event"),
                  waiting := s.waiting - multiset{Child(root)}, starts := s.starts[Nth(n) := Undecided(Child(root))])
  {
    hide Record;
  }

  lemma ChildInserted(s: System, root: Attempt, n: nat, m: nat)
    requires Family(s, root, n, m) && m > 0 && Passing(s, root, n)
    ensures var t := Step(s, Inserts(root, n));
            && Family(t, root, n + 1, m - 1) && Passing(t, root, n)
            && Nth(n) in t.starts && t.starts[Nth(n)] == Undecided(Child(root))
  {
    hide Step, Family, Passing, InsertAttempt, Child, Nth, Parental, Inserts;
    NextIsNew(s, root, n, m);
    InsertIs(s, root, n);
    var t := Step(s, Inserts(root, n));
    FamilyGrows(s, t, root, n, m);
    PassingStays(s, t, root, n);
  }

  lemma NextIsNew(s: System, root: Attempt, n: nat, m: nat)
    requires Family(s, root, n, m) && m > 0
    ensures s.status.Up? && Parental(root) && Nth(n) !in s.db.attempts && Child(root) in s.waiting
  {
    hide Nth, Parental;
  }

  lemma FamilyGrows(s: System, t: System, root: Attempt, n: nat, m: nat)
    requires Family(s, root, n, m) && m > 0
    requires t.status == s.status && t.admission == s.admission && t.passed == s.passed
    requires t.db == InsertAttempt(s.db, Child(root), Build, 1, Research, Nth(n), "event")
    requires t.waiting == s.waiting - multiset{Child(root)}
    ensures Family(t, root, n + 1, m - 1)
  {
    hide Record, Nth, Parental;
    Distinct(n, n);
    assert Nth(n) !in s.db.attempts;
    assert t.db.attempts.Keys == s.db.attempts.Keys + {Nth(n)};
    assert |t.db.attempts| == |t.db.attempts.Keys| == |s.db.attempts.Keys| + 1;
    RootOfParental(root);
    forall i | 0 <= i < n + 1 ensures Nth(i) in t.db.attempts && t.db.attempts[Nth(i)].parent == Some("attempt") {
      Distinct(i, n);
    }
  }

  lemma RootOfParental(root: Attempt)
    requires Parental(root)
    ensures root.root == "attempt"
  {
  }

  lemma PassingStays(s: System, t: System, root: Attempt, n: nat)
    requires Passing(s, root, n) && t.passed == s.passed && t.starts == s.starts[Nth(n) := Undecided(Child(root))]
    ensures Passing(t, root, n)
  {
    hide Nth;
    forall i | 0 <= i < n
      ensures Nth(i) in t.starts && t.starts[Nth(i)] == Passed(Child(root)) && Nth(i) in t.passed
    {
      Distinct(i, n);
    }
  }

  /** The check finds nothing against one of at most thirty. */
  lemma ChildIsAllowed(s: System, root: Attempt, n: nat, m: nat)
    requires Family(s, root, n, m) && n <= 30
    ensures Allowed(s.db, Child(root), true)
  {
    var rows := ["attempt"];
    assert IsPath(s.db.attempts, "attempt", rows);
    assert Under(s.db.attempts, "attempt") == s.db.attempts.Keys;
    assert |s.db.attempts.Keys| == |s.db.attempts|;
    assert ChildAllowed(s.db, root, rows, "child", "task");
  }

  lemma DecideIs(s: System, id: Id)
    requires s.status.Up? && id in s.starts && s.starts[id].Undecided? && Allowed(s.db, s.starts[id].waiting, true)
    ensures Step(s, Decide(id, true, "event", "code"))
            == s.(starts := s.starts[id := Passed(s.starts[id].waiting)], passed := s.passed + {id})
  {
    hide Allowed;
  }

  lemma ChildDecided(s: System, root: Attempt, n: nat, m: nat)
    requires Family(s, root, n + 1, m) && n < 30 && Passing(s, root, n)
    requires Nth(n) in s.starts && s.starts[Nth(n)] == Undecided(Child(root))
    ensures var t := Step(s, Decide(Nth(n), true, "event", "code"));
            Family(t, root, n + 1, m) && Passing(t, root, n + 1)
  {
    hide Allowed, Step, Family, Passing, Nth, Child;
    ChildIsAllowed(s, root, n + 1, m);
    FamilyIsUp(s, root, n + 1, m);
    DecideIs(s, Nth(n));
    var t := Step(s, Decide(Nth(n), true, "event", "code"));
    FamilyStays(s, t, root, n + 1, m);
    PassingGrows(s, t, root, n);
  }

  lemma FamilyIsUp(s: System, root: Attempt, n: nat, m: nat)
    requires Family(s, root, n, m)
    ensures s.status.Up?
  {
  }

  lemma FamilyStays(s: System, t: System, root: Attempt, n: nat, m: nat)
    requires Family(s, root, n, m) && s.passed <= t.passed
    requires t.db == s.db && t.status == s.status && t.admission == s.admission && t.waiting == s.waiting
    ensures Family(t, root, n, m)
  {
    hide Nth, Parental;
  }

  lemma PassingGrows(s: System, t: System, root: Attempt, n: nat)
    requires Passing(s, root, n) && t.starts == s.starts[Nth(n) := Passed(Child(root))]
    requires t.passed == s.passed + {Nth(n)}
    ensures Passing(t, root, n + 1)
  {
    hide Nth;
    forall i | 0 <= i < n + 1
      ensures Nth(i) in t.starts && t.starts[Nth(i)] == Passed(Child(root)) && Nth(i) in t.passed
    {
      Distinct(i, n);
    }
  }

  /** A run in which thirty children pass beside their root. */
  lemma ThirtyPass() returns (actions: seq<Action>, root: Attempt)
    ensures Family(Run(actions), root, 30, 0) && Passing(Run(actions), root, 30)
  {
    hide Run, Step, Family;
    actions, root := ThirtyAsk();
    var n := 0;
    while n < 30
      invariant n <= 30 && Family(Run(actions), root, n, 30 - n) && Passing(Run(actions), root, n)
    {
      hide Passing;
      ChildInserted(Run(actions), root, n, 30 - n);
      OneMore(actions, Inserts(root, n));
      actions := actions + [Inserts(root, n)];
      ChildDecided(Run(actions), root, n, 30 - n - 1);
      OneMore(actions, Decide(Nth(n), true, "event", "code"));
      actions := actions + [Decide(Nth(n), true, "event", "code")];
      n := n + 1;
    }
  }

  /** The bound on the attempts of one root is reached. */
  lemma ThirtyOneUnderOneRoot() returns (actions: seq<Action>)
    ensures |Under(Run(actions).db.attempts, "attempt") * Run(actions).passed| == 31
  {
    hide Run;
    var root;
    actions, root := ThirtyPass();
    AtMostThirtyOnePerRoot(actions, "attempt");
    AllHavePassed(Run(actions), root);
  }

  lemma AllHavePassed(s: System, root: Attempt)
    requires Family(s, root, 30, 0) && Passing(s, root, 30)
    ensures |Under(s.db.attempts, "attempt") * s.passed| >= 31
  {
    var some := Ids(30) + {"attempt"};
    DistinctIds(30);
    forall a | a in some ensures a in Under(s.db.attempts, "attempt") * s.passed {
      if a != "attempt" { var i :| 0 <= i < 30 && a == Nth(i); }
    }
    SubsetSize(some, Under(s.db.attempts, "attempt") * s.passed);
  }

  function Ids(n: nat): set<Id> { set i | 0 <= i < n :: Nth(i) }

  lemma {:induction false} DistinctIds(n: nat)
    ensures |Ids(n)| == n && "attempt" !in Ids(n) && |Ids(n) + {"attempt"}| == n + 1
  {
    forall a | a in Ids(n) ensures 8 <= |a| < 8 + n {}
    if n > 0 {
      DistinctIds(n - 1);
      assert Nth(n - 1) !in Ids(n - 1) by {
        forall a | a in Ids(n - 1) ensures |a| < 8 + n - 1 {}
      }
      assert Ids(n) == Ids(n - 1) + {Nth(n - 1)};
    }
  }

  // And all of them attached ------------------------------------------------------------------------------

  /** `j` of the thirty are attached, the others still wait for that. */
  predicate Attaching(s: System, root: Attempt, j: nat) {
    && s.status.Up? && "role" in s.db.roles && s.db.roles["role"] == ROLE
    && "attempt" in s.db.attempts && s.db.attempts["attempt"].role == "role" && s.db.attempts["attempt"].children == j
    && (forall i :: j <= i < 30 ==>
          && Nth(i) in s.starts && s.starts[Nth(i)] == Passed(Child(root))
          && Nth(i) in s.db.attempts && s.db.attempts[Nth(i)].parent == Some("attempt")
          && ("attempt", Nth(i)) !in s.db.links)
  }

  /** One of them goes on to its attachment. */
  predicate Next(s: System, root: Attempt, j: nat) {
    && j < 30 && s.status.Up? && "role" in s.db.roles && s.db.roles["role"] == ROLE
    && "attempt" in s.db.attempts && s.db.attempts["attempt"].role == "role" && s.db.attempts["attempt"].children == j
    && Nth(j) in s.starts && s.starts[Nth(j)] == AtAdmission(Child(root))
    && Nth(j) in s.db.attempts && s.db.attempts[Nth(j)].parent == Some("attempt")
    && ("attempt", Nth(j)) !in s.db.links
    && (forall i :: j < i < 30 ==>
          && Nth(i) in s.starts && s.starts[Nth(i)] == Passed(Child(root))
          && Nth(i) in s.db.attempts && s.db.attempts[Nth(i)].parent == Some("attempt")
          && ("attempt", Nth(i)) !in s.db.links)
  }

  lemma ChildAdmitted(s: System, root: Attempt, j: nat)
    requires Attaching(s, root, j) && j < 30
    ensures Next(Step(s, Advance(Nth(j), "event")), root, j)
  {
    AdvanceIs(s, Nth(j), "event");
    hide Step, Record, Nth;
    forall i | j < i < 30 ensures Nth(i) != Nth(j) { Distinct(i, j); }
    Distinct(j, j);
  }

  lemma ChildAttached(s: System, root: Attempt, j: nat)
    requires Next(s, root, j)
    ensures var t := Step(s, Advance(Nth(j), "event")); Attaching(t, root, j + 1) && Resolving(t, j)
  {
    AdvanceIs(s, Nth(j), "event");
    hide Step, Record, Nth;
    forall i | j < i < 30 ensures Nth(i) != Nth(j) && Nth(i) != "attempt" { Distinct(i, j); }
    Distinct(j, j);
  }

  predicate Resolving(s: System, j: nat) {
    Nth(j) in s.starts && s.starts[Nth(j)] == AtAttachment && Nth(j) in s.db.attempts
  }

  /** Its adapter is resolved without a wait after that. */
  lemma ChildResolved(s: System, root: Attempt, j: nat)
    requires Attaching(s, root, j + 1) && Resolving(s, j)
    ensures Attaching(Step(s, Advance(Nth(j), "event")), root, j + 1)
  {
    AdvanceIs(s, Nth(j), "event");
    hide Step, Record, Nth;
    forall i | j < i < 30 ensures Nth(i) != Nth(j) && Nth(i) != "attempt" { Distinct(i, j); }
    Distinct(j, j);
  }

  /** A run that attaches thirty children to a parent that may have eight. */
  lemma CapIsExceeded() returns (actions: seq<Action>)
    ensures var db := Run(actions).db;
            && "attempt" in db.attempts && db.attempts["attempt"].role in db.roles
            && Cap(db, "attempt") == 8 && db.attempts["attempt"].children == 30
  {
    hide Run, Step;
    var root;
    actions, root := ThirtyPass();
    AttachingBegins(Run(actions), root);
    hide Family, Passing, Attaching, Next, Resolving;
    var j := 0;
    while j < 30
      invariant j <= 30 && Attaching(Run(actions), root, j)
    {
      ChildAdmitted(Run(actions), root, j);
      OneMore(actions, Advance(Nth(j), "event"));
      actions := actions + [Advance(Nth(j), "event")];
      ChildAttached(Run(actions), root, j);
      OneMore(actions, Advance(Nth(j), "event"));
      actions := actions + [Advance(Nth(j), "event")];
      ChildResolved(Run(actions), root, j);
      OneMore(actions, Advance(Nth(j), "event"));
      actions := actions + [Advance(Nth(j), "event")];
      j := j + 1;
    }
    AttachingEnds(Run(actions), root);
  }

  lemma AttachingBegins(s: System, root: Attempt)
    requires Family(s, root, 30, 0) && Passing(s, root, 30)
    ensures Attaching(s, root, 0)
  {
  }

  lemma AttachingEnds(s: System, root: Attempt)
    requires Attaching(s, root, 30)
    ensures "attempt" in s.db.attempts && s.db.attempts["attempt"].role in s.db.roles
    ensures Cap(s.db, "attempt") == 8 && s.db.attempts["attempt"].children == 30
  {
  }
}
