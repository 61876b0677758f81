/** With which code an attempt ends, and what replaces that code or takes the attempt out of its end. */
module AgentEnds {
  import opened Wrappers
  import opened AgentTables
  import opened AgentRuns
  import opened AgentRecovery

  // The code of a cleaned attempt --------------------------------------------------------------------------

  /** The code a step stores over the end of an attempt: a refused cancel, a failed cleanup, or a recovery. */
  function Overwrites(s: System, act: Action, a: Id): Option<Id> {
    match act
    case Cancel(id, false, _) => if id == a && Listens(s) && a !in s.live then Some("RECOVERY_REQUIRED") else None
    case EndClean(id, false, _) =>
      if id == a && s.status.Up? && a in s.cleaning then Some("CLEANUP_FAILED") else None
    case EndRecovery(id, clean, _) =>
      if id == a && s.status.Recovery? && s.status.current == Some(a)
      then Some(if clean then "RECOVERY_REQUIRED" else "RESOURCE_IDENTITY_UNVERIFIED") else None
    case _ => None
  }

  function EndAfter(s: System, act: Action, a: Id, end: Id): Id {
    var code := Overwrites(s, act, a);
    if code.Some? then code.value else end
  }

  /** The code of the last step of `more` that overwrites, or else the one decided when the cleaning began. */
  ghost function CodeAtEnd(before: seq<Action>, more: seq<Action>, a: Id, prior: Id): Id {
    if more == [] then prior
    else
      var init := more[..|more| - 1];
      EndAfter(Run(before + init), more[|more| - 1], a, CodeAtEnd(before, init, a, prior))
  }

  /** Its start is over, it is live just while it is cleaned, with the code fixed, and it ends with `end`. */
  predicate Fate(s: System, a: Id, prior: Id, end: Id) {
    && a in s.db.attempts && a !in s.starts
    && (a in s.live <==> a in s.cleaning)
    && (a in s.cleaning ==> s.cleaning[a] == prior && end == prior && !Terminal(s.db.attempts[a].state))
    && (a !in s.cleaning && Terminal(s.db.attempts[a].state) ==> s.db.attempts[a].code == Some(end))
  }

  /** One transition: of another attempt, or to a state that is not terminal. */
  lemma WriteKeepsFate(s: System, b: Id, state: AttemptState, given: Option<Id>, stamp: Id, a: Id, prior: Id, end: Id)
    requires Fate(s, a, prior, end) && (b != a || !Terminal(state))
    ensures Fate(Write(s, b, state, given, stamp), a, prior, end)
  {
    hide Record;
  }

  /** One transition that ends the attempt, with this code. */
  lemma WriteEnds(s: System, state: AttemptState, code: Id, stamp: Id, a: Id, prior: Id, end: Id)
    requires Fate(s, a, prior, end) && a !in s.cleaning && Terminal(state)
    ensures Fate(Write(s, a, state, Some(code), stamp), a, prior, code)
  {
    hide Record;
  }

  /** Control state of other attempts does not matter. */
  lemma ControlKeepsFate(s: System, t: System, a: Id, prior: Id, end: Id)
    requires Fate(s, a, prior, end) && t.db == s.db && a !in t.starts
    requires (a in t.live <==> a in s.live) && (a in t.cleaning <==> a in s.cleaning)
    requires a in s.cleaning ==> t.cleaning[a] == s.cleaning[a]
    ensures Fate(t, a, prior, end)
  {
  }

  lemma AdvanceKeepsFate(s: System, id: Id, stamp: Id, a: Id, prior: Id, end: Id)
    requires Fate(s, a, prior, end) && id in s.starts && id in s.db.attempts
    ensures Fate(NextStage(s, id, stamp), a, prior, end)
  {
    hide Write, AttachChild, Record;
    WriteKeepsFate(s, id, Admitted, None, stamp, a, prior, end);
    WriteKeepsFate(s, id, AdapterResolved, None, stamp, a, prior, end);
    WriteKeepsFate(s, id, Registered, None, stamp, a, prior, end);
    WriteKeepsFate(s, id, Starting, None, stamp, a, prior, end);
    if s.starts[id].AtAdmission? && s.db.attempts[id].parent.Some?
      && s.db.attempts[id].parent.value in s.db.attempts {
      AttachKeepsFate(s, s.db.attempts[id].parent.value, id, stamp, a, prior, end);
    }
  }

  lemma AttachKeepsFate(s: System, parent: Id, child: Id, stamp: Id, a: Id, prior: Id, end: Id)
    requires Fate(s, a, prior, end) && parent in s.db.attempts
    ensures Fate(s.(db := AttachChild(s.db, parent, child, stamp)), a, prior, end)
  {
    hide Record;
  }

  lemma InsertKeepsFate(s: System, act: Action, a: Id, prior: Id, end: Id)
    requires Fate(s, a, prior, end) && act.Insert?
    ensures Fate(Serve(s, act), a, prior, end)
  {
    hide Record, ModeFits;
  }

  lemma ObservationKeepsFate(s: System, id: Id, seen: Observed, stamp: Id, a: Id, prior: Id, end: Id)
    requires Fate(s, a, prior, end) && id in s.db.attempts
    ensures Fate(AfterObservation(s, id, seen, stamp), a, prior, end)
  {
    hide Write, Settling, Fate;
    match seen
    case ReadySeen => WriteKeepsFate(s, id, Ready, None, stamp, a, prior, end);
    case ActivitySeen => WriteKeepsFate(s, id, Active, None, stamp, a, prior, end);
    case CompletedSeen => WriteKeepsFate(s, id, CompletedObserved, Some("AGENT_OK"), stamp, a, prior, end);
    case FailedSeen(code) => WriteKeepsFate(s, id, FailedObserved, Some(code), stamp, a, prior, end);
  }

  lemma CleaningKeepsFate(s: System, act: Action, a: Id, prior: Id, end: Id)
    requires Fate(s, a, prior, end) && s.status.Up? && (act.BeginClean? || act.EndClean?)
    ensures Fate(Serve(s, act), a, prior, EndAfter(s, act, a, end))
  {
    hide Record, Prior;
  }

  /** The end of a start, which is not the attempt's own. */
  lemma StartKeepsFate(s: System, act: Action, a: Id, prior: Id, end: Id)
    requires Fate(s, a, prior, end) && (act.Decide? || act.FailStart?)
    ensures Fate(Serve(s, act), a, prior, end)
  {
    hide Write, Allowed;
    match act
    case Decide(id, policy, stamp, code) =>
      if id in s.starts { WriteKeepsFate(s, id, Cleaned, Some(code), stamp, a, prior, end); }
    case FailStart(id, residue, stamp, code) =>
      if id in s.starts {
        WriteKeepsFate(s, id, CleanupFailed, Some("CLEANUP_FAILED"), stamp, a, prior, end);
        WriteKeepsFate(s, id, Cleaned, Some(code), stamp, a, prior, end);
      }
  }

  lemma ServeKeepsFate(s: System, act: Action, a: Id, prior: Id, end: Id)
    requires Fate(s, a, prior, end) && s.status.Up? && !act.Cancel? && !act.EndRecovery?
    ensures Fate(Serve(s, act), a, prior, EndAfter(s, act, a, end))
  {
    hide Write, NextStage, AfterObservation, InsertAttempt, Allowed, ModeFits, Prior;
    match act
    case Ask(r) => ControlKeepsFate(s, Serve(s, act), a, prior, end);
    case Insert(_, _, _, _, _, _) => InsertKeepsFate(s, act, a, prior, end);
    case Decide(_, _, _, _) => StartKeepsFate(s, act, a, prior, end);
    case Advance(id, stamp) =>
      if id in s.starts && id in s.db.attempts { AdvanceKeepsFate(s, id, stamp, a, prior, end); }
    case FailStart(_, _, _, _) => StartKeepsFate(s, act, a, prior, end);
    case Observe(id, seen, stamp) =>
      if id in s.db.attempts { ObservationKeepsFate(s, id, seen, stamp, a, prior, end); }
    case Expire(id, stamp, code) => WriteKeepsFate(s, id, TimedOut, Some(code), stamp, a, prior, end);
    case Break(id, stamp, code) => WriteKeepsFate(s, id, FailedObserved, Some(code), stamp, a, prior, end);
    case BeginClean(_, _, _) => CleaningKeepsFate(s, act, a, prior, end);
    case EndClean(_, _, _) => CleaningKeepsFate(s, act, a, prior, end);
    case _ =>
  }

  lemma RecoveryKeepsFate(s: System, act: Action, a: Id, prior: Id, end: Id)
    requires Fate(s, a, prior, end) && RecoveryOk(s) && (act.BeginRecovery? || act.Reconcile? || act.EndRecovery?)
    ensures Fate(Step(s, act), a, prior, EndAfter(s, act, a, end))
  {
    hide Write, Fate;
    if s.status.Recovery? {
      match act
      case BeginRecovery(id, stamp) =>
        WriteKeepsFate(s, id, RecoveryRequired, Some("RECOVERY_REQUIRED"), stamp, a, prior, end);
        if s.status.begun == None && s.status.current == None && id in s.status.todo {
          var written := Write(s, id, RecoveryRequired, Some("RECOVERY_REQUIRED"), stamp);
          RestatusKeepsFate(written, Step(s, act), a, prior, end);
        }
      case Reconcile(id, stamp) =>
        WriteKeepsFate(s, id, Reconciling, None, stamp, a, prior, end);
        if s.status.begun == Some(id) {
          RestatusKeepsFate(Write(s, id, Reconciling, None, stamp), Step(s, act), a, prior, end);
        }
      case EndRecovery(id, clean, stamp) =>
        var state := if clean then RecoveredTerminal else UnverifiedResidual;
        var code := if clean then "RECOVERY_REQUIRED" else "RESOURCE_IDENTITY_UNVERIFIED";
        if id == a { WriteEnds(s, state, code, stamp, a, prior, end); }
        else { WriteKeepsFate(s, id, state, Some(code), stamp, a, prior, end); }
        if s.status.current == Some(id) {
          var after := if id == a then code else end;
          RestatusKeepsFate(Write(s, id, state, Some(code), stamp), Step(s, act), a, prior, after);
        }
    }
  }

  lemma RestatusKeepsFate(s: System, t: System, a: Id, prior: Id, end: Id)
    requires Fate(s, a, prior, end) && t == s.(status := t.status)
    ensures Fate(t, a, prior, end)
  {
  }

  lemma CancelKeepsFate(s: System, act: Action, a: Id, prior: Id, end: Id)
    requires Fate(s, a, prior, end) && act.Cancel?
    ensures Fate(Step(s, act), a, prior, EndAfter(s, act, a, end))
  {
    hide Write;
    var id, stamp := act.target, act.stamp;
    if id != a {
      WriteKeepsFate(s, id, Cleaned, Some("RECOVERY_REQUIRED"), stamp, a, prior, end);
    } else if a !in s.live {
      WriteEnds(s, Cleaned, "RECOVERY_REQUIRED", stamp, a, prior, end);
    }
    WriteKeepsFate(s, id, Cancelling, Some("CANCELLED"), stamp, a, prior, end);
  }

  lemma StepKeepsFate(s: System, act: Action, a: Id, prior: Id, end: Id)
    requires Fate(s, a, prior, end) && RecoveryOk(s)
    ensures Fate(Step(s, act), a, prior, EndAfter(s, act, a, end))
  {
    hide Write, Serve, Intact, Open, Record, AfterCancel;
    match act
    case Cancel(_, _, _) => CancelKeepsFate(s, act, a, prior, end);
    case BeginRecovery(_, _) => RecoveryKeepsFate(s, act, a, prior, end);
    case Reconcile(_, _) => RecoveryKeepsFate(s, act, a, prior, end);
    case EndRecovery(_, _, _) => RecoveryKeepsFate(s, act, a, prior, end);
    case _ => if s.status.Up? { ServeKeepsFate(s, act, a, prior, end); }
  }

  lemma {:induction false} FateForever(actions: seq<Action>, more: seq<Action>, a: Id, prior: Id)
    requires Fate(Run(actions), a, prior, prior)
    ensures Fate(Run(actions + more), a, prior, CodeAtEnd(actions, more, a, prior))
    decreases |more|
  {
    hide Step, Fate, EndAfter, Run;
    if more == [] {
      assert actions + more == actions;
    } else {
      var init, last := more[..|more| - 1], more[|more| - 1];
      FateForever(actions, init, a, prior);
      RecoveryInOrder(actions + init);
      hide RecoveryOk;
      StepKeepsFate(Run(actions + init), last, a, prior, CodeAtEnd(actions, init, a, prior));
      OneMore(actions + init, last);
      assert actions + init + [last] == actions + more;
    }
  }

  /** Live attempts are there, their start is over and their end is not; what is cleaned is live. */
  predicate LiveOk(s: System) {
    && (forall a :: a in s.live ==> a in s.db.attempts && a !in s.starts)
    && (forall a :: a in s.starts ==> a in s.db.attempts)
    && (forall a :: a in s.live ==> !Terminal(s.db.attempts[a].state)) && s.cleaning.Keys <= s.live
  }

  lemma AdvanceKeepsLive(s: System, id: Id, stamp: Id)
    requires LiveOk(s) && id in s.starts && id in s.db.attempts
    ensures LiveOk(NextStage(s, id, stamp))
  {
    hide Write, AttachChild, LiveOk;
    LiveMeans(s);
    var t := NextStage(s, id, stamp);
    match s.starts[id]
    case Undecided(_) =>
    case Passed(_) => WriteKeepsLive(s, t, id, Admitted, None, stamp);
    case AtAdmission(_) => AttachKeepsLive(s, id, stamp);
    case AtAttachment => WriteKeepsLive(s, t, id, AdapterResolved, None, stamp);
    case AtAdapter => AskKeepsLive(s, t);
    case AtSession => WriteKeepsLive(s, t, id, Registered, None, stamp);
    case AtRegistration =>
      var written := Write(s, id, Starting, None, stamp).(starts := s.starts - {id});
      WriteKeepsLive(s, written, id, Starting, None, stamp);
      WriteStates(s, id, Starting, None, stamp);
      JoinsLive(written, id);
  }

  lemma JoinsLive(s: System, id: Id)
    requires LiveOk(s) && id in s.db.attempts && id !in s.starts && !Terminal(s.db.attempts[id].state)
    ensures LiveOk(s.(live := s.live + {id}))
  {
  }

  lemma AttachKeepsLive(s: System, id: Id, stamp: Id)
    requires LiveOk(s) && id in s.starts && id in s.db.attempts && s.starts[id].AtAdmission?
    ensures LiveOk(NextStage(s, id, stamp))
  {
    hide Record;
  }

  lemma WriteStates(s: System, b: Id, state: AttemptState, given: Option<Id>, stamp: Id)
    ensures var after := Write(s, b, state, given, stamp).db.attempts;
            && after.Keys == s.db.attempts.Keys
            && forall a :: a in after ==> after[a].state == if a == b then state else s.db.attempts[a].state
  {
    hide Record, NextCode;
  }

  /** One transition, after which no more is live, starting or being cleaned than before. */
  lemma WriteKeepsLive(s: System, t: System, b: Id, state: AttemptState, given: Option<Id>, stamp: Id)
    requires LiveOk(s) && t.db == Write(s, b, state, given, stamp).db && (Terminal(state) ==> b !in t.live)
    requires t.live <= s.live && t.starts.Keys <= s.starts.Keys && t.cleaning.Keys <= t.live
    ensures LiveOk(t)
  {
    WriteStates(s, b, state, given, stamp);
    hide Write, Terminal;
  }

  lemma LiveMeans(s: System)
    requires LiveOk(s)
    ensures s.cleaning.Keys <= s.live && s.live !! s.starts.Keys
  {
  }

  lemma ObservingKeepsLive(s: System, id: Id, seen: Observed, stamp: Id)
    requires LiveOk(s) && id in s.db.attempts
    ensures LiveOk(AfterObservation(s, id, seen, stamp))
  {
    hide Write, LiveOk, Settling;
    LiveMeans(s);
    var t := AfterObservation(s, id, seen, stamp);
    if t != s {
      match seen
      case ReadySeen => WriteKeepsLive(s, t, id, Ready, None, stamp);
      case ActivitySeen => WriteKeepsLive(s, t, id, Active, None, stamp);
      case CompletedSeen => WriteKeepsLive(s, t, id, CompletedObserved, Some("AGENT_OK"), stamp);
      case FailedSeen(code) => WriteKeepsLive(s, t, id, FailedObserved, Some(code), stamp);
    }
  }

  lemma InsertKeepsLive(s: System, act: Action)
    requires LiveOk(s) && act.Insert?
    ensures LiveOk(Serve(s, act))
  {
    hide Record, ModeFits;
  }

  lemma AskKeepsLive(s: System, t: System)
    requires LiveOk(s) && t.db == s.db && t.live == s.live && t.cleaning == s.cleaning && t.starts.Keys <= s.starts.Keys
    ensures LiveOk(t)
  {
  }

  lemma ServeKeepsLive(s: System, act: Action)
    requires LiveOk(s)
    ensures LiveOk(Serve(s, act))
  {
    hide Write, Allowed, ModeFits, Prior, NextStage, AfterObservation, InsertAttempt, LiveOk;
    LiveMeans(s);
    var t := Serve(s, act);
    if t != s {
      match act
      case Ask(_) => AskKeepsLive(s, t);
      case Insert(_, _, _, _, _, _) => InsertKeepsLive(s, act);
      case Advance(id, stamp) => AdvanceKeepsLive(s, id, stamp);
      case Decide(id, policy, stamp, code) =>
        if t.db == s.db { AskKeepsLive(s, t); } else { WriteKeepsLive(s, t, id, Cleaned, Some(code), stamp); }
      case FailStart(id, residue, stamp, code) =>
        if residue { WriteKeepsLive(s, t, id, CleanupFailed, Some("CLEANUP_FAILED"), stamp); }
        else { WriteKeepsLive(s, t, id, Cleaned, Some(code), stamp); }
      case Observe(id, seen, stamp) => ObservingKeepsLive(s, id, seen, stamp);
      case Expire(id, stamp, code) => WriteKeepsLive(s, t, id, TimedOut, Some(code), stamp);
      case Break(id, stamp, code) => WriteKeepsLive(s, t, id, FailedObserved, Some(code), stamp);
      case BeginClean(id, final, stamp) => WriteKeepsLive(s, t, id, Cleaning, final, stamp);
      case EndClean(id, clean, stamp) =>
        if clean { WriteKeepsLive(s, t, id, Cleaned, Some(s.cleaning[id]), stamp); }
        else { WriteKeepsLive(s, t, id, CleanupFailed, Some("CLEANUP_FAILED"), stamp); }
      case _ =>
    }
  }

  lemma StepKeepsLive(s: System, act: Action)
    requires LiveOk(s) && RecoveryOk(s)
    ensures LiveOk(Step(s, act))
  {
    hide Record, NextCode, Intact, Settling, Serve;
    if s.status.Up? { ServeKeepsLive(s, act); }
  }

  lemma {:induction false} LiveInOrder(actions: seq<Action>)
    ensures LiveOk(Run(actions))
  {
    hide Step;
    if actions != [] {
      var init := actions[..|actions| - 1];
      LiveInOrder(init);
      RecoveryInOrder(init);
      hide LiveOk, RecoveryOk;
      StepKeepsLive(Run(init), actions[|actions| - 1]);
    }
  }

  /**
   When the cleaning of a live attempt begins, the code it ends with is decided: the one it has, the
   one it was given, or the escalation of a cancel. Whatever comes between, a clean end stores that
   code; and whatever comes later, crashes and recoveries included, an attempt that has ended has
   the code of the last step that overwrites: a cancel of what is not live, a cleanup that failed, a
   recovery. If there was none it is the one decided then.
   */
  lemma {:induction false} CleaningFixesCode(actions: seq<Action>, more: seq<Action>, a: Id, final: Option<Id>,
      stamp: Id)
    requires var s := Run(actions); s.status.Up? && a in s.live && a !in s.cleaning
    ensures var s := Run(actions);
            a in s.db.attempts
            && var prior, before := Prior(s.db.attempts[a].code, final), actions + [BeginClean(a, final, stamp)];
               var t := Run(before + more);
               && a in t.db.attempts
               && (a in t.cleaning ==> t.cleaning[a] == prior)
               && (a !in t.cleaning && Terminal(t.db.attempts[a].state) ==>
                     t.db.attempts[a].code == Some(CodeAtEnd(before, more, a, prior)))
               && ((forall k :: 0 <= k < |more| ==> Overwrites(Run(before + more[..k]), more[k], a) == None) ==>
                     CodeAtEnd(before, more, a, prior) == prior)
               && forall later ::
                    a in t.cleaning && t.status.Up? ==>
                      var u := Step(t, EndClean(a, true, later));
                      a in u.db.attempts && u.db.attempts[a].state == Cleaned && u.db.attempts[a].code == Some(prior)
  {
    var s := Run(actions);
    LiveInOrder(actions);
    var prior, before := Prior(s.db.attempts[a].code, final), actions + [BeginClean(a, final, stamp)];
    OneMore(actions, BeginClean(a, final, stamp));
    CleaningBegins(s, a, final, stamp);
    FateForever(before, more, a, prior);
    var t := Run(before + more);
    hide Run, Prior, Overwrites;
    if forall k :: 0 <= k < |more| ==> Overwrites(Run(before + more[..k]), more[k], a) == None {
      NothingOverwrites(before, more, a, prior);
    }
    forall later | a in t.cleaning && t.status.Up?
      ensures var u := Step(t, EndClean(a, true, later));
              a in u.db.attempts && u.db.attempts[a].state == Cleaned && u.db.attempts[a].code == Some(prior)
    {
      CleaningEnds(t, a, prior, CodeAtEnd(before, more, a, prior), later);
    }
  }

  lemma {:induction false} NothingOverwrites(before: seq<Action>, more: seq<Action>, a: Id, prior: Id)
    requires forall k :: 0 <= k < |more| ==> Overwrites(Run(before + more[..k]), more[k], a) == None
    ensures CodeAtEnd(before, more, a, prior) == prior
    decreases |more|
  {
    hide Run, Overwrites;
    if more != [] {
      var init := more[..|more| - 1];
      forall k | 0 <= k < |init| ensures Overwrites(Run(before + init[..k]), init[k], a) == None {
        assert init[..k] == more[..k];
      }
      NothingOverwrites(before, init, a, prior);
    }
  }

  lemma CleaningBegins(s: System, a: Id, final: Option<Id>, stamp: Id)
    requires s.status.Up? && a in s.live && a !in s.cleaning && a in s.db.attempts && a !in s.starts
    ensures var prior := Prior(s.db.attempts[a].code, final);
            Fate(Step(s, BeginClean(a, final, stamp)), a, prior, prior)
  {
    hide Record, Prior, NextCode;
  }

  lemma CleaningEnds(t: System, a: Id, prior: Id, end: Id, later: Id)
    requires t.status.Up? && a in t.cleaning && Fate(t, a, prior, end)
    ensures var u := Step(t, EndClean(a, true, later));
            a in u.db.attempts && u.db.attempts[a].state == Cleaned && u.db.attempts[a].code == Some(prior)
  {
    hide Record;
  }

  // An attempt that has ended ------------------------------------------------------------------------------

  ghost predicate Ended(s: System, a: Id) { a in s.db.attempts && Terminal(s.db.attempts[a].state) }

  /**
   The code a step stores over that of an ended attempt: a cancel by request that the process takes;
   when a cancel ended the attempt while its start went on, the end of that start; and when one
   ended it while a recovery had it to do, that recovery.
   */
  ghost function Stores(s: System, act: Action, a: Id): Option<Id> {
    match act
    case Cancel(id, false, _) => if id == a && Listens(s) then Some("RECOVERY_REQUIRED") else None
    case FailStart(id, residue, _, code) =>
      if id == a && s.status.Up? && a in s.starts && !s.starts[a].Undecided?
      then Some(if residue then "CLEANUP_FAILED" else code) else None
    case Decide(id, policy, _, code) =>
      if id == a && s.status.Up? && a in s.starts && s.starts[a].Undecided?
         && !Allowed(s.db, s.starts[a].waiting, policy)
      then Some(code) else None
    case BeginRecovery(_, _) => if TakenUp(s, act, a) then Some("RECOVERY_REQUIRED") else None
    case EndRecovery(id, clean, _) =>
      if id == a && s.status.Recovery? && s.status.current == Some(a)
      then Some(if clean then "RECOVERY_REQUIRED" else "RESOURCE_IDENTITY_UNVERIFIED") else None
    case _ => None
  }

  /** A recovery that found the attempt open takes it up. */
  predicate TakenUp(s: System, act: Action, a: Id) {
    && act.BeginRecovery? && act.row == a && s.status.Recovery?
    && s.status.begun == None && s.status.current == None && a in s.status.todo
  }

  /** A session that still reports ready. */
  predicate Revives(s: System, act: Action, a: Id) {
    act.Observe? && act.session == a && act.seen.ReadySeen? && a in s.sessions && s.status.Up?
  }

  /** The start of the attempt goes on to a stage that writes its state. */
  predicate StartGoesOn(s: System, act: Action, a: Id) {
    && act.Advance? && act.starting == a && s.status.Up? && a in s.starts
    && (s.starts[a].Passed? || s.starts[a] in {AtAttachment, AtSession, AtRegistration})
  }

  /**
   In every reachable state: a step replaces the code of an ended attempt exactly when it is a
   cancel by request, or ends a start or belongs to a recovery that an earlier cancel did not stop,
   and stores another code.
   */
  lemma EndedCodeIsReplacedIff(actions: seq<Action>, act: Action, a: Id)
    requires Ended(Run(actions), a)
    ensures var s, t := Run(actions), Run(actions + [act]);
            && a in t.db.attempts
            && (t.db.attempts[a].code != s.db.attempts[a].code <==>
                  Stores(s, act, a).Some? && Stores(s, act, a) != s.db.attempts[a].code)
            && (Stores(s, act, a).Some? ==> t.db.attempts[a].code == Stores(s, act, a))
  {
    hide Run, Step, RecoveryOk, LiveOk, Stores;
    OneMore(actions, act);
    LiveInOrder(actions);
    RecoveryInOrder(actions);
    StepOfEnded(Run(actions), act, a);
  }

  /**
   And a step takes an ended attempt out of its end exactly when its session still reports ready, or
   when a start or a recovery that an earlier cancel did not stop goes on.
   */
  lemma EndIsLeftIff(actions: seq<Action>, act: Action, a: Id)
    requires Ended(Run(actions), a)
    ensures var s, t := Run(actions), Run(actions + [act]);
            && a in t.db.attempts
            && (!Terminal(t.db.attempts[a].state) <==>
                  Revives(s, act, a) || StartGoesOn(s, act, a) || TakenUp(s, act, a))
  {
    hide Run, Step, RecoveryOk, LiveOk, Stores, Revives, StartGoesOn, TakenUp;
    OneMore(actions, act);
    LiveInOrder(actions);
    RecoveryInOrder(actions);
    StepOfEnded(Run(actions), act, a);
  }

  predicate EndStays(s: System, t: System, a: Id) {
    && a in s.db.attempts && a in t.db.attempts
    && t.db.attempts[a].code == s.db.attempts[a].code && t.db.attempts[a].state == s.db.attempts[a].state
  }

  /** What one step makes of an end. */
  ghost predicate EndGoesOn(s: System, act: Action, t: System, a: Id)
    requires a in s.db.attempts
  {
    && a in t.db.attempts
    && t.db.attempts[a].code == (if Stores(s, act, a).Some? then Stores(s, act, a) else s.db.attempts[a].code)
    && (Terminal(t.db.attempts[a].state) <==> !Revives(s, act, a) && !StartGoesOn(s, act, a) && !TakenUp(s, act, a))
  }

  /** A step that has to do with no end. */
  ghost predicate Elsewhere(s: System, act: Action, a: Id) {
    Stores(s, act, a).None? && !Revives(s, act, a) && !StartGoesOn(s, act, a) && !TakenUp(s, act, a)
  }

  lemma StepOfEnded(s: System, act: Action, a: Id)
    requires LiveOk(s) && RecoveryOk(s) && Ended(s, a)
    ensures EndGoesOn(s, act, Step(s, act), a)
  {
    hide Step, LiveOk, RecoveryOk, Stores, Revives, StartGoesOn, TakenUp, Terminal;
    if Elsewhere(s, act, a) { ElsewhereKeepsEnd(s, act, a); } else { OwnStep(s, act, a); }
  }

  /** The steps that store a code over an end, or leave it. */
  lemma OwnStep(s: System, act: Action, a: Id)
    requires LiveOk(s) && Ended(s, a) && !Elsewhere(s, act, a)
    ensures EndGoesOn(s, act, Step(s, act), a)
  {
    hide Step, LiveOk;
    match act
    case Cancel(_, _, _) => OwnEndAgain(s, act, a);
    case BeginRecovery(_, _) => OwnEndAgain(s, act, a);
    case EndRecovery(_, _, _) => OwnEndAgain(s, act, a);
    case _ => OwnStart(s, act, a);
  }

  /** A cancel or a recovery of the attempt. */
  lemma OwnEndAgain(s: System, act: Action, a: Id)
    requires LiveOk(s) && Ended(s, a) && Stores(s, act, a).Some?
    requires act.Cancel? || act.BeginRecovery? || act.EndRecovery?
    ensures EndGoesOn(s, act, Step(s, act), a)
  {
    hide Write, Classified, Serve;
    match act
    case Cancel(id, byParent, stamp) => OwnWrite(s, a, Cleaned, Some("RECOVERY_REQUIRED"), stamp);
    case BeginRecovery(id, stamp) => OwnWrite(s, a, RecoveryRequired, Some("RECOVERY_REQUIRED"), stamp);
    case EndRecovery(id, clean, stamp) => OwnRecoveryEnds(s, clean, stamp, a);
  }

  /** A stage or the end of its own start, or a report of its session. */
  lemma OwnStart(s: System, act: Action, a: Id)
    requires Ended(s, a) && !Elsewhere(s, act, a) && !act.Cancel? && !act.BeginRecovery? && !act.EndRecovery?
    ensures EndGoesOn(s, act, Step(s, act), a)
  {
    hide Write, Allowed, NextStage, AfterObservation;
    match act
    case FailStart(id, residue, stamp, code) =>
      OwnWrite(s, a, CleanupFailed, Some("CLEANUP_FAILED"), stamp);
      OwnWrite(s, a, Cleaned, Some(code), stamp);
    case Decide(id, policy, stamp, code) => OwnWrite(s, a, Cleaned, Some(code), stamp);
    case Advance(id, stamp) => OwnStage(s, stamp, a);
    case Observe(id, seen, stamp) => OwnReport(s, stamp, a);
  }

  lemma OwnRecoveryEnds(s: System, clean: bool, stamp: Id, a: Id)
    requires a in s.db.attempts && s.status.Recovery?
    ensures var t := Classified(s, a, clean, stamp);
            && a in t.db.attempts && Terminal(t.db.attempts[a].state)
            && t.db.attempts[a].code
               == Some(if clean then "RECOVERY_REQUIRED" else "RESOURCE_IDENTITY_UNVERIFIED")
  {
    hide Write;
    OwnWrite(s, a, RecoveredTerminal, Some("RECOVERY_REQUIRED"), stamp);
    OwnWrite(s, a, UnverifiedResidual, Some("RESOURCE_IDENTITY_UNVERIFIED"), stamp);
  }

  lemma OwnWrite(s: System, a: Id, state: AttemptState, given: Option<Id>, stamp: Id)
    requires a in s.db.attempts && state != Cleaning
    ensures var t := Write(s, a, state, given, stamp);
            && a in t.db.attempts && t.db.attempts[a].state == state
            && t.db.attempts[a].code == if given.Some? then given else s.db.attempts[a].code
  {
    hide Record;
  }

  lemma OwnStage(s: System, stamp: Id, a: Id)
    requires a in s.db.attempts && StartGoesOn(s, Advance(a, stamp), a)
    ensures var t := NextStage(s, a, stamp);
            && a in t.db.attempts && !Terminal(t.db.attempts[a].state)
            && t.db.attempts[a].code == s.db.attempts[a].code
  {
    hide Write;
    OwnWrite(s, a, Admitted, None, stamp);
    OwnWrite(s, a, AdapterResolved, None, stamp);
    OwnWrite(s, a, Registered, None, stamp);
    OwnWrite(s, a, Starting, None, stamp);
  }

  lemma OwnReport(s: System, stamp: Id, a: Id)
    requires a in s.db.attempts
    ensures var t := AfterObservation(s, a, ReadySeen, stamp);
            && a in t.db.attempts && !Terminal(t.db.attempts[a].state)
            && t.db.attempts[a].code == s.db.attempts[a].code
  {
    hide Write;
    OwnWrite(s, a, Ready, None, stamp);
  }

  lemma ElsewhereKeepsEnd(s: System, act: Action, a: Id)
    requires LiveOk(s) && RecoveryOk(s) && Ended(s, a) && Elsewhere(s, act, a)
    ensures EndStays(s, Step(s, act), a)
  {
    hide Intact, Open, Serve, Write, AfterCancel, Record, Revives, StartGoesOn, TakenUp, Terminal, EndStays, RecoveryOk;
    SameEnd(s, a);
    match act
    case Cancel(id, byParent, stamp) => if Listens(s) { CancelElsewhere(s, id, byParent, stamp, a); }
    case BeginRecovery(_, _) => RecoveryOfEnded(s, act, a);
    case Reconcile(_, _) => RecoveryOfEnded(s, act, a);
    case EndRecovery(_, _, _) => RecoveryOfEnded(s, act, a);
    case _ => if s.status.Up? { ServingKeepsEnd(s, act, a); }
  }

  lemma RecoveryOfEnded(s: System, act: Action, a: Id)
    requires RecoveryOk(s) && Ended(s, a) && Elsewhere(s, act, a)
    requires act.BeginRecovery? || act.Reconcile? || act.EndRecovery?
    ensures EndStays(s, Step(s, act), a)
  {
    hide Write, EndStays;
    SameEnd(s, a);
    if Step(s, act) != s {
      match act
      case BeginRecovery(id, stamp) =>
        WriteElsewhere(s, id, RecoveryRequired, Some("RECOVERY_REQUIRED"), stamp, a);
      case Reconcile(id, stamp) => WriteElsewhere(s, id, Reconciling, None, stamp, a);
      case EndRecovery(id, clean, stamp) =>
        if clean { WriteElsewhere(s, id, RecoveredTerminal, Some("RECOVERY_REQUIRED"), stamp, a); }
        else { WriteElsewhere(s, id, UnverifiedResidual, Some("RESOURCE_IDENTITY_UNVERIFIED"), stamp, a); }
    }
  }

  lemma CancelElsewhere(s: System, id: Id, byParent: bool, stamp: Id, a: Id)
    requires a in s.db.attempts && Terminal(s.db.attempts[a].state) && LiveOk(s) && (id != a || byParent)
    ensures EndStays(s, AfterCancel(s, id, byParent, stamp), a)
  {
    hide Write, EndStays;
    SameEnd(s, a);
    if id != a {
      WriteElsewhere(s, id, Cleaned, Some("RECOVERY_REQUIRED"), stamp, a);
      WriteElsewhere(s, id, Cancelling, Some("CANCELLED"), stamp, a);
    }
  }

  lemma ServingKeepsEnd(s: System, act: Action, a: Id)
    requires LiveOk(s) && a in s.db.attempts && Terminal(s.db.attempts[a].state) && s.status.Up?
    requires Elsewhere(s, act, a) && !act.Cancel?
    ensures EndStays(s, Serve(s, act), a)
  {
    hide Write, Allowed, ModeFits, Prior, EndStays, InsertAttempt, NextStage, AfterObservation, Terminal;
    SameEnd(s, a);
    match act
    case Insert(_, _, _, _, _, _) => InsertKeepsEnd(s, act, a);
    case Decide(id, policy, stamp, code) => if id != a { WriteElsewhere(s, id, Cleaned, Some(code), stamp, a); }
    case Advance(id, stamp) =>
      if id in s.starts && id in s.db.attempts { AdvanceElsewhere(s, id, stamp, a); }
    case FailStart(id, residue, stamp, code) =>
      if id != a {
        WriteElsewhere(s, id, CleanupFailed, Some("CLEANUP_FAILED"), stamp, a);
        WriteElsewhere(s, id, Cleaned, Some(code), stamp, a);
      }
    case Observe(id, seen, stamp) =>
      if id in s.sessions && id in s.db.attempts { ObservationKeepsEnd(s, id, seen, stamp, a); }
    case Expire(id, stamp, code) => if id != a { WriteElsewhere(s, id, TimedOut, Some(code), stamp, a); }
    case Break(id, stamp, code) => if id != a { WriteElsewhere(s, id, FailedObserved, Some(code), stamp, a); }
    case BeginClean(id, final, stamp) => if id != a { WriteElsewhere(s, id, Cleaning, final, stamp, a); }
    case EndClean(id, clean, stamp) =>
      if id != a && id in s.cleaning {
        WriteElsewhere(s, id, CleanupFailed, Some("CLEANUP_FAILED"), stamp, a);
        WriteElsewhere(s, id, Cleaned, Some(s.cleaning[id]), stamp, a);
      }
    case _ =>
  }

  lemma SameEnd(s: System, a: Id)
    requires a in s.db.attempts
    ensures forall t: System :: t.db.attempts == s.db.attempts ==> EndStays(s, t, a)
  {
  }

  lemma WriteElsewhere(s: System, b: Id, state: AttemptState, given: Option<Id>, stamp: Id, a: Id)
    requires a in s.db.attempts && b != a
    ensures forall t: System :: t.db == Write(s, b, state, given, stamp).db ==> EndStays(s, t, a)
  {
    hide Record;
  }

  lemma InsertKeepsEnd(s: System, act: Action, a: Id)
    requires act.Insert? && a in s.db.attempts
    ensures EndStays(s, Serve(s, act), a)
  {
    hide Record, ModeFits;
  }

  lemma AdvanceElsewhere(s: System, id: Id, stamp: Id, a: Id)
    requires id in s.starts && id in s.db.attempts && a in s.db.attempts
    requires s.status.Up? && !StartGoesOn(s, Advance(id, stamp), a)
    ensures EndStays(s, NextStage(s, id, stamp), a)
  {
    hide Record, Write;
    if id != a {
      WriteElsewhere(s, id, Admitted, None, stamp, a);
      WriteElsewhere(s, id, AdapterResolved, None, stamp, a);
      WriteElsewhere(s, id, Registered, None, stamp, a);
      WriteElsewhere(s, id, Starting, None, stamp, a);
    }
  }

  lemma ObservationKeepsEnd(s: System, id: Id, seen: Observed, stamp: Id, a: Id)
    requires id in s.db.attempts && a in s.db.attempts && Terminal(s.db.attempts[a].state)
    requires id != a || !seen.ReadySeen?
    ensures EndStays(s, AfterObservation(s, id, seen, stamp), a)
  {
    hide Write, EndStays;
    SameEnd(s, a);
    if id != a {
      match seen
      case ReadySeen => WriteElsewhere(s, id, Ready, None, stamp, a);
      case ActivitySeen => WriteElsewhere(s, id, Active, None, stamp, a);
      case CompletedSeen => WriteElsewhere(s, id, CompletedObserved, Some("AGENT_OK"), stamp, a);
      case FailedSeen(code) => WriteElsewhere(s, id, FailedObserved, Some(code), stamp, a);
    }
  }
}
