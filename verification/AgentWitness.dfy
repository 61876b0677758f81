/** Runs that reach what the theorems about recoveries and ended attempts speak of. */
module AgentWitness {
  import opened Wrappers
  import opened AgentTables
  import opened AgentRuns
  import opened AgentRecovery

  // A residual ---------------------------------------------------------------------------------------------

  const ROLE: Role := Role("key", [], [], [], [], true, ["key"], 4, 8)
  const REQUEST: StartRequest := StartRequest("role", None, "task")
  const ASKED: Waiting := Waiting(REQUEST, None)

  /** An up process with no attempts and one role. */
  predicate Prepared(s: System) {
    && s.status.Up? && s.admission == Enabled && s.db.attempts == map[]
    && "role" in s.db.roles && s.db.roles["role"] == ROLE && "child" !in s.db.roles
    && s.live == {} && s.cleaning == map[] && s.db.links == {}
  }

  /** An up process with the one attempt, under no parent and with no children. */
  predicate OneAttempt(s: System) {
    && s.status.Up? && s.admission == Enabled && s.db.attempts.Keys == {"attempt"}
    && "role" in s.db.roles && s.db.roles["role"] == ROLE && "child" !in s.db.roles && s.db.links == {}
    && var row := s.db.attempts["attempt"];
       && row.root == "attempt" && row.parent == None && row.children == 0
       && row.role == "role" && row.task == "task"
       && row.mode == Build && row.sequence == 1 && row.operation == Research
  }

  /** A start of the one attempt, with this code stored so far. */
  predicate AtStage(s: System, stage: Stage, code: Option<Id>) {
    && OneAttempt(s) && "attempt" in s.starts && s.starts["attempt"] == stage
    && s.db.attempts["attempt"].code == code && "attempt" !in s.live && "attempt" !in s.cleaning
    && (!stage.Undecided? ==> "attempt" in s.passed)
    && (stage in {AtSession, AtRegistration} ==> "attempt" in s.sessions)
  }

  /** It is live, with this code. */
  predicate IsLive(s: System, code: Option<Id>) {
    && OneAttempt(s) && s.db.attempts["attempt"].state == Starting && s.db.attempts["attempt"].code == code
    && "attempt" in s.passed && "attempt" in s.live && "attempt" !in s.cleaning && "attempt" in s.sessions
  }

  lemma PreparedRun() returns (actions: seq<Action>)
    ensures Prepared(Run(actions))
  {
    hide Intact, Record, Step;
    var before: seq<Action> := [];
    StartsRecovering(before);
    OneMore(before, Start);
    StartKeepsDb(Run(before));
    OneMore(before + [Start], FinishStart);
    Finishing(Run(before + [Start]));
    OneMore(before + [Start] + [FinishStart], AddRole("role", ROLE, "event"));
    AddingRole(Run(before + [Start] + [FinishStart]));
    actions := before + [Start] + [FinishStart] + [AddRole("role", ROLE, "event")];
  }

  lemma Finishing(s: System)
    requires s.status == Recovery({}, {}, None, None, {}, 0)
    ensures Step(s, FinishStart) == s.(status := Up, admission := Enabled)
  {
  }

  lemma AddingRole(s: System)
    requires s.status.Up? && s.admission == Enabled && s.db.attempts == map[] && s.live == {} && s.cleaning == map[]
    requires s.db.roles == map[] && s.db.links == {}
    ensures Prepared(Step(s, AddRole("role", ROLE, "event")))
  {
    hide Record;
  }

  lemma Asking(s: System)
    requires Prepared(s)
    ensures var t := Step(s, Ask(REQUEST)); Prepared(t) && ASKED in t.waiting
  {
  }

  lemma Inserting(s: System)
    requires Prepared(s) && ASKED in s.waiting
    ensures var t := Step(s, Insert(ASKED, Build, 1, Research, "attempt", "event"));
            AtStage(t, Undecided(ASKED), None) && t.db.attempts["attempt"].state == Requested
  {
    hide Record;
  }

  /** A run that inserts one attempt. */
  lemma OneInserted() returns (actions: seq<Action>)
    ensures var s := Run(actions);
            AtStage(s, Undecided(ASKED), None) && s.db.attempts["attempt"].state == Requested
  {
    hide Run, Step, Prepared;
    actions := PreparedRun();
    Asking(Run(actions));
    OneMore(actions, Ask(REQUEST));
    actions := actions + [Ask(REQUEST)];
    Inserting(Run(actions));
    OneMore(actions, Insert(ASKED, Build, 1, Research, "attempt", "event"));
    actions := actions + [Insert(ASKED, Build, 1, Research, "attempt", "event")];
  }

  /** A run that leaves one attempt under way. */
  lemma LeftUnderWay() returns (actions: seq<Action>)
    ensures var s := Run(actions);
            s.status.Down? && s.db.attempts.Keys == {"attempt"} && s.db.attempts["attempt"].state == Requested
  {
    hide Run, Step;
    actions := OneInserted();
    CrashForgets(Run(actions));
    OneMore(actions, Crash);
    actions := actions + [Crash];
  }

  lemma CrashForgets(s: System)
    ensures var t := Step(s, Crash); t.status.Down? && t.db == s.db
  {
  }

  const RECOVERING: seq<Action> := [BeginRecovery("attempt", "e1"), Reconcile("attempt", "e2"),
                                    EndRecovery("attempt", false, "e3")]

  /** Its recovery, when its owners do not prove it clean. */
  ghost function Unclean(s: System): System {
    Step(Step(Step(s, RECOVERING[0]), RECOVERING[1]), RECOVERING[2])
  }

  lemma Unproved(s: System)
    requires s.status == Recovery({"attempt"}, {"attempt"}, None, None, {}, 0) && "attempt" in s.db.attempts
    ensures var t := Unclean(s);
            && t.status == Recovery({"attempt"}, {}, None, None, {}, 1)
            && "attempt" in t.db.attempts && t.db.attempts["attempt"].state == UnverifiedResidual
  {
    hide Step;
    FirstWrite(s);
    SecondWrite(Step(s, RECOVERING[0]));
    NotProved(Step(Step(s, RECOVERING[0]), RECOVERING[1]));
  }

  lemma FirstWrite(s: System)
    requires s.status == Recovery({"attempt"}, {"attempt"}, None, None, {}, 0) && "attempt" in s.db.attempts
    ensures var t := Step(s, RECOVERING[0]);
            t.status == s.status.(begun := Some("attempt")) && "attempt" in t.db.attempts
  {
    hide Record, NextCode;
  }

  lemma SecondWrite(s: System)
    requires s.status == Recovery({"attempt"}, {"attempt"}, Some("attempt"), None, {}, 0)
    requires "attempt" in s.db.attempts
    ensures var t := Step(s, RECOVERING[1]);
            t.status == s.status.(begun := None, current := Some("attempt")) && "attempt" in t.db.attempts
  {
    hide Record, NextCode;
  }

  lemma NotProved(s: System)
    requires s.status == Recovery({"attempt"}, {"attempt"}, None, Some("attempt"), {}, 0)
    requires "attempt" in s.db.attempts
    ensures var t := Step(s, RECOVERING[2]);
            && t.status == Recovery({"attempt"}, {}, None, None, {}, 1)
            && "attempt" in t.db.attempts && t.db.attempts["attempt"].state == UnverifiedResidual
  {
    hide Record, NextCode;
  }

  /** An attempt left under way and not proved clean: the start blocks admission, and the next one enables it. */
  lemma ResidualBlocksOnce() returns (actions: seq<Action>)
    ensures var t := Run(actions);
            t.status.Up? && t.admission == Blocked
            && (exists a :: a in t.db.attempts && t.db.attempts[a].state == UnverifiedResidual)
    ensures var t := Run(actions + [Crash, Start, FinishStart]);
            t.admission == Enabled && exists a :: a in t.db.attempts && t.db.attempts[a].state == UnverifiedResidual
  {
    hide Run, Step;
    var before := LeftUnderWay();
    StartsRecovering(before);
    OnlyOpen(Run(before).db);
    OneMore(before, Start);
    StartKeepsDb(Run(before));
    var begun := before + [Start];
    OneMore(begun, RECOVERING[0]);
    OneMore(begun + [RECOVERING[0]], RECOVERING[1]);
    OneMore(begun + [RECOVERING[0]] + [RECOVERING[1]], RECOVERING[2]);
    assert begun + [RECOVERING[0]] + [RECOVERING[1]] + [RECOVERING[2]] == begun + RECOVERING;
    Unproved(Run(begun));
    actions := begun + RECOVERING + [FinishStart];
    OneMore(begun + RECOVERING, FinishStart);
    StartEnablesIff(before, RECOVERING);
    FinishBlocks(Run(begun + RECOVERING));
    NextStartEnables(actions);
  }

  lemma OnlyOpen(db: Db)
    requires db.attempts.Keys == {"attempt"} && db.attempts["attempt"].state == Requested
    ensures Open(db) == {"attempt"}
  {
    assert "attempt" in Open(db);
  }

  lemma StartKeepsDb(s: System)
    ensures var t := Step(s, Start); t.db == s.db && t.live == s.live && t.cleaning == s.cleaning
  {
    hide Intact, Open;
  }

  lemma FinishBlocks(s: System)
    requires s.status == Recovery({"attempt"}, {}, None, None, {}, 1)
    ensures var t := Step(s, FinishStart); t.status.Up? && t.admission == Blocked && t.db == s.db
  {
  }

  lemma RecoveryCancelled(s: System)
    requires s.status == Recovery({"attempt"}, {"attempt"}, None, Some("attempt"), {}, 0)
    requires "attempt" in s.db.attempts && s.live == {}
    ensures var t := Step(s, Cancel("attempt", false, "e3"));
            Cleanly(t, "RECOVERY_REQUIRED") && t.status == s.status
  {
    hide Record;
  }

  lemma RecoveryGoesOn(s: System)
    requires s.status == Recovery({"attempt"}, {"attempt"}, None, Some("attempt"), {}, 0) && "attempt" in s.db.attempts
    ensures var t := Step(s, EndRecovery("attempt", false, "e4"));
            && "attempt" in t.db.attempts && t.db.attempts["attempt"].state == UnverifiedResidual
            && t.db.attempts["attempt"].code == Some("RESOURCE_IDENTITY_UNVERIFIED")
  {
    hide Record;
  }

  /** A cancel ends an attempt while its recovery waits for the owners; the recovery ends it once more. */
  lemma CancelDoesNotStopRecovery() returns (actions: seq<Action>)
    ensures Cleanly(Run(actions), "RECOVERY_REQUIRED") && Run(actions).status.Recovery?
    ensures var t := Run(actions + [EndRecovery("attempt", false, "e4")]);
            && "attempt" in t.db.attempts && t.db.attempts["attempt"].state == UnverifiedResidual
            && t.db.attempts["attempt"].code == Some("RESOURCE_IDENTITY_UNVERIFIED")
  {
    hide Run, Step;
    actions := LeftUnderWay();
    StartsRecovering(actions);
    OnlyOpen(Run(actions).db);
    StartKeepsDb(Run(actions));
    OneMore(actions, Start);
    actions := actions + [Start];
    FirstWrite(Run(actions));
    OneMore(actions, RECOVERING[0]);
    actions := actions + [RECOVERING[0]];
    SecondWrite(Run(actions));
    OneMore(actions, RECOVERING[1]);
    actions := actions + [RECOVERING[1]];
    RecoveryInOrder(actions);
    RecoveryCancelled(Run(actions));
    OneMore(actions, Cancel("attempt", false, "e3"));
    actions := actions + [Cancel("attempt", false, "e3")];
    RecoveryGoesOn(Run(actions));
    OneMore(actions, EndRecovery("attempt", false, "e4"));
  }

  // Cancels and reports after the end -------------------------------------------------------------------------------

  lemma DecideStage(s: System)
    requires AtStage(s, Undecided(ASKED), None)
    ensures AtStage(Step(s, Decide("attempt", true, "event", "code")), Passed(ASKED), None)
  {
    hide Record;
    assert Allowed(s.db, ASKED, true);
  }

  const STAGES: seq<Stage> := [Passed(ASKED), AtAdmission(ASKED), AtAttachment, AtAdapter, AtSession, AtRegistration]

  lemma StageAfter(s: System, n: nat, code: Option<Id>)
    requires n < 5 && AtStage(s, STAGES[n], code)
    ensures AtStage(Step(s, Advance("attempt", "event")), STAGES[n + 1], code)
  {
    AdvanceIs(s, "attempt", "event");
    hide Write, Step;
    WriteOfOne(s, Admitted);
    WriteOfOne(s, AdapterResolved);
    WriteOfOne(s, Registered);
  }

  lemma WriteOfOne(s: System, state: AttemptState)
    requires OneAttempt(s) && state != Cleaning
    ensures var t := Write(s, "attempt", state, None, "event");
            && OneAttempt(t) && t.db.attempts["attempt"].state == state
            && t.db.attempts["attempt"].code == s.db.attempts["attempt"].code
  {
    hide Record;
  }

  lemma LiveAfter(s: System, code: Option<Id>)
    requires AtStage(s, AtRegistration, code)
    ensures IsLive(Step(s, Advance("attempt", "event")), code)
  {
    AdvanceIs(s, "attempt", "event");
    hide Write, Step;
    WriteOfOne(s, Starting);
  }

  /** A run with the one attempt beyond its check. */
  lemma OneDecided() returns (actions: seq<Action>)
    ensures AtStage(Run(actions), Passed(ASKED), None)
  {
    hide Run, Step, AtStage;
    actions := OneInserted();
    DecideStage(Run(actions));
    OneMore(actions, Decide("attempt", true, "event", "code"));
    actions := actions + [Decide("attempt", true, "event", "code")];
  }

  /** Six more stages make it live. */
  lemma GoesLive(before: seq<Action>, code: Option<Id>) returns (actions: seq<Action>)
    requires AtStage(Run(before), Passed(ASKED), code)
    ensures actions == before + seq(6, _ => Advance("attempt", "event")) && IsLive(Run(actions), code)
  {
    hide Run, Step, AtStage, IsLive;
    actions := before;
    var n := 0;
    while n < 5
      invariant n <= 5 && AtStage(Run(actions), STAGES[n], code)
      invariant actions == before + seq(n, _ => Advance("attempt", "event"))
    {
      StageAfter(Run(actions), n, code);
      OneMore(actions, Advance("attempt", "event"));
      actions := actions + [Advance("attempt", "event")];
      n := n + 1;
    }
    LiveAfter(Run(actions), code);
    OneMore(actions, Advance("attempt", "event"));
    actions := actions + [Advance("attempt", "event")];
  }

  /** A run with the one attempt live. */
  lemma OneLive() returns (actions: seq<Action>)
    ensures IsLive(Run(actions), None)
  {
    hide Run, Step, AtStage, IsLive;
    var before := OneDecided();
    actions := GoesLive(before, None);
  }

  lemma CleanedThenCancelled(s: System)
    requires IsLive(s, None)
    ensures var t := Step(Step(s, BeginClean("attempt", None, "e1")), EndClean("attempt", true, "e2"));
            && Cleanly(t, "AGENT_OK")
            && Cleanly(Step(t, Cancel("attempt", false, "e3")), "RECOVERY_REQUIRED")
            && IsReady(Step(t, Observe("attempt", ReadySeen, "e3")))
  {
    var t := Step(Step(s, BeginClean("attempt", None, "e1")), EndClean("attempt", true, "e2"));
    CleanedWell(s);
    hide Step;
    CancelledLate(t);
  }

  /** The attempt is cleaned, and this is its code. */
  predicate Cleanly(s: System, code: Id) {
    && "attempt" in s.db.attempts && s.db.attempts["attempt"].state == Cleaned
    && s.db.attempts["attempt"].code == Some(code)
  }

  predicate IsReady(s: System) { "attempt" in s.db.attempts && s.db.attempts["attempt"].state == Ready }

  lemma CleanedWell(s: System)
    requires IsLive(s, None)
    ensures var t := Step(Step(s, BeginClean("attempt", None, "e1")), EndClean("attempt", true, "e2"));
            Cleanly(t, "AGENT_OK") && t.status.Up? && "attempt" !in t.live && "attempt" in t.sessions
  {
    hide Record;
  }

  lemma CancelledLate(t: System)
    requires t.status.Up? && "attempt" in t.db.attempts && "attempt" !in t.live && "attempt" in t.sessions
    ensures Cleanly(Step(t, Cancel("attempt", false, "e3")), "RECOVERY_REQUIRED")
    ensures IsReady(Step(t, Observe("attempt", ReadySeen, "e3")))
  {
    hide Record;
  }

  /**
   An attempt that ended well, the cancel that stores the code of a recovery over that, and the late
   report that takes it out of its end.
   */
  lemma EndIsOverwritten() returns (actions: seq<Action>)
    ensures Cleanly(Run(actions), "AGENT_OK")
    ensures Cleanly(Run(actions + [Cancel("attempt", false, "e3")]), "RECOVERY_REQUIRED")
    ensures IsReady(Run(actions + [Observe("attempt", ReadySeen, "e3")]))
  {
    hide Run, Step;
    var before := OneLive();
    CleanedThenCancelled(Run(before));
    OneMore(before, BeginClean("attempt", None, "e1"));
    actions := before + [BeginClean("attempt", None, "e1")];
    OneMore(actions, EndClean("attempt", true, "e2"));
    actions := actions + [EndClean("attempt", true, "e2")];
    OneMore(actions, Cancel("attempt", false, "e3"));
    OneMore(actions, Observe("attempt", ReadySeen, "e3"));
  }

  lemma StageCancelled(s: System)
    requires AtStage(s, Passed(ASKED), None)
    ensures var t := Step(s, Cancel("attempt", false, "e1"));
            AtStage(t, Passed(ASKED), Some("RECOVERY_REQUIRED")) && Cleanly(t, "RECOVERY_REQUIRED")
  {
    hide Record;
  }

  lemma StageFails(s: System)
    requires AtStage(s, Passed(ASKED), Some("RECOVERY_REQUIRED"))
    ensures Cleanly(Step(s, FailStart("attempt", false, "e2", "WORKSPACE_UNTRUSTED")), "WORKSPACE_UNTRUSTED")
  {
    hide Record;
  }

  /**
   An attempt that a cancel ended while its start went on: the start takes it out of its end, up to a
   live session, or fails and stores another code.
   */
  lemma CancelDoesNotStop() returns (actions: seq<Action>)
    ensures Cleanly(Run(actions), "RECOVERY_REQUIRED") && "attempt" in Run(actions).starts
    ensures var t := Run(actions + seq(6, _ => Advance("attempt", "event")));
            && "attempt" in t.db.attempts && t.db.attempts["attempt"].state == Starting
            && "attempt" in t.live && "attempt" in t.sessions
    ensures Cleanly(Run(actions + [FailStart("attempt", false, "e2", "WORKSPACE_UNTRUSTED")]), "WORKSPACE_UNTRUSTED")
  {
    hide Run, Step;
    actions := OneDecided();
    StageCancelled(Run(actions));
    OneMore(actions, Cancel("attempt", false, "e1"));
    actions := actions + [Cancel("attempt", false, "e1")];
    var _ := GoesLive(actions, Some("RECOVERY_REQUIRED"));
    StageFails(Run(actions));
    OneMore(actions, FailStart("attempt", false, "e2", "WORKSPACE_UNTRUSTED"));
  }
}
