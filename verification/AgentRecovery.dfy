/** What a start of the process makes of the attempts it finds, and what its sessions are attached to. */
module AgentRecovery {
  import opened Wrappers
  import opened AgentTables
  import opened AgentRuns
  import opened AgentTheorems

  lemma OneMore(actions: seq<Action>, a: Action)
    ensures Run(actions + [a]) == Step(Run(actions), a)
  {
    assert (actions + [a])[..|actions|] == actions;
  }

  lemma AdvanceIs(s: System, id: Id, stamp: Id)
    requires s.status.Up?
    ensures Step(s, Advance(id, stamp)) == if id in s.starts && id in s.db.attempts then NextStage(s, id, stamp) else s
  {
    hide NextStage;
  }

  // The recovery -------------------------------------------------------------------------------------------

  /** What a process that is not up still knows of its attempts: nothing. */
  predicate Forgotten(s: System) {
    s.waiting == multiset{} && s.starts == map[] && s.sessions == {} && s.live == {} && s.cleaning == map[]
  }

  /**
   A recovery has `todo` before it; what it has done is terminal; it counts what was not proved
   clean; and what it has in hand is one of those to do.
   */
  predicate RecoveryOk(s: System) {
    && (!s.status.Up? ==> Forgotten(s))
    && (s.status.Recovery? ==>
          var r := s.status;
          && r.todo <= r.open <= s.db.attempts.Keys && r.proved <= r.open - r.todo
          && (r.begun.Some? ==> r.begun.value in r.todo && r.current == None
                                && s.db.attempts[r.begun.value].state == RecoveryRequired)
          && (r.current.Some? ==> r.current.value in r.todo)
          && (r.residual > 0 <==> r.open - r.todo - r.proved != {})
          && forall a :: a in s.db.attempts && a !in r.todo ==> Terminal(s.db.attempts[a].state))
  }

  lemma BeginRecoveryKeeps(s: System, id: Id, stamp: Id)
    requires RecoveryOk(s)
    ensures RecoveryOk(Step(s, BeginRecovery(id, stamp))) && RecoveryOk(Step(s, Reconcile(id, stamp)))
  {
    hide Record, NextCode;
  }

  lemma EndRecoveryKeeps(s: System, id: Id, clean: bool, stamp: Id)
    requires RecoveryOk(s)
    ensures RecoveryOk(Step(s, EndRecovery(id, clean, stamp)))
  {
    hide Record, NextCode;
    if s.status.Recovery? && s.status.current == Some(id) {
      var before, after := s.status, Step(s, EndRecovery(id, clean, stamp)).status;
      if clean {
        assert after.open - after.todo - after.proved == before.open - before.todo - before.proved;
      } else {
        assert id in after.open - after.todo - after.proved;
      }
    }
  }

  lemma StepKeepsRecovery(s: System, a: Action)
    requires RecoveryOk(s)
    ensures RecoveryOk(Step(s, a))
  {
    hide Intact, Record, NextCode, Terminal, Settling, Allowed, ModeFits, Prior, Serve;
    match a
    case BeginRecovery(id, stamp) => BeginRecoveryKeeps(s, id, stamp);
    case Reconcile(id, stamp) => BeginRecoveryKeeps(s, id, stamp);
    case EndRecovery(id, clean, stamp) => EndRecoveryKeeps(s, id, clean, stamp);
    case Cancel(id, byParent, stamp) => CancelKeepsRecovery(s, id, byParent, stamp);
    case _ => if s.status.Up? { ServingStaysUp(s, a); }
  }

  lemma CancelKeepsRecovery(s: System, id: Id, byParent: bool, stamp: Id)
    requires RecoveryOk(s)
    ensures RecoveryOk(Step(s, Cancel(id, byParent, stamp)))
  {
    hide Record, NextCode;
  }

  lemma ServingStaysUp(s: System, a: Action)
    requires s.status.Up?
    ensures Serve(s, a).status.Up?
  {
    hide Transition, InsertAttempt, AttachChild, Allowed, ModeFits, Settling, Prior;
  }

  lemma {:induction false} RecoveryInOrder(actions: seq<Action>)
    ensures RecoveryOk(Run(actions))
  {
    hide Step;
    if actions != [] {
      RecoveryInOrder(actions[..|actions| - 1]);
      hide RecoveryOk;
      StepKeepsRecovery(Run(actions[..|actions| - 1]), actions[|actions| - 1]);
    }
  }

  /** In the recovery that a start begins, the attempt is proved clean. */
  ghost predicate ProvedClean(before: seq<Action>, more: seq<Action>, id: Id) {
    exists k :: 0 <= k < |more| && ProvedAt(before, more, k, id)
  }

  ghost predicate ProvedAt(before: seq<Action>, more: seq<Action>, k: nat, id: Id)
    requires k < |more|
  {
    var s := Run(before + more[..k]);
    && s.status.Recovery? && s.status.current == Some(id)
    && more[k].EndRecovery? && more[k].row == id && more[k].clean
  }

  /** What a recovery under way remembers of the start it belongs to. */
  ghost predicate Remembers(s: System, before: seq<Action>, more: seq<Action>, open: set<Id>) {
    s.status.Recovery? ==> s.status.open == open && forall id :: id in s.status.proved <==>
        ProvedClean(before, more, id)
  }

  lemma StartsRecovering(actions: seq<Action>)
    requires Run(actions).status.Down?
    ensures Run(actions + [Start]).status == Recovery(Open(Run(actions).db), Open(Run(actions).db), None, None, {}, 0)
  {
    hide Intact, Run, Open;
    IntegrityAlwaysHolds(actions);
    OneMore(actions, Start);
  }

  lemma ProvedMore(before: seq<Action>, more: seq<Action>, a: Action, id: Id)
    ensures ProvedClean(before, more + [a], id) <==>
              ProvedClean(before, more, id) || ProvedAt(before, more + [a], |more|, id)
  {
    hide Run;
    var longer := more + [a];
    forall k | 0 <= k < |more| ensures ProvedAt(before, longer, k, id) <==> ProvedAt(before, more, k, id) {
      assert longer[..k] == more[..k];
    }
    if ProvedClean(before, more, id) {
      var k :| 0 <= k < |more| && ProvedAt(before, more, k, id);
      assert ProvedAt(before, longer, k, id);
    }
    if ProvedClean(before, longer, id) {
      var k :| 0 <= k < |longer| && ProvedAt(before, longer, k, id);
      if k < |more| { assert ProvedAt(before, more, k, id); }
    }
  }

  /** One step of a process that is not down: it stays with its recovery, or leaves it for good. */
  lemma RecoveryStep(s: System, a: Action)
    requires !s.status.Down? && !a.Crash?
    ensures var t := Step(s, a);
            && !t.status.Down? && (t.status.Recovery? ==> s.status.Recovery? && t.status.open == s.status.open)
            && (t.status.Recovery? ==>
                  t.status.proved == s.status.proved
                  + if a.EndRecovery? && a.clean && s.status.current == Some(a.row) then {a.row} else {})
  {
    hide Intact, Transition, InsertAttempt, AttachChild, Record, Allowed, ModeFits, Settling, Prior, Serve, AfterCancel,
      Write;
    if s.status.Up? {
      ServingStaysUp(s, a);
    }
    if a.Cancel? { CancelKeepsStatus(s, a.target, a.byParent, a.stamp); }
  }

  lemma CancelKeepsStatus(s: System, id: Id, byParent: bool, stamp: Id)
    ensures AfterCancel(s, id, byParent, stamp).status == s.status
  {
    hide Transition, Terminal;
  }

  lemma {:induction false} RecoveryRemembers(actions: seq<Action>, more: seq<Action>)
    requires Run(actions).status.Down? && forall k :: 0 <= k < |more| ==> !more[k].Crash?
    ensures var s := Run(actions + [Start] + more);
            !s.status.Down? && Remembers(s, actions + [Start], more, Open(Run(actions).db))
    decreases |more|
  {
    hide Step, Open, Remembers;
    var before := actions + [Start];
    if more == [] {
      StartsRecovering(actions);
      assert before + more == before;
      NothingProved(before, Run(before), Open(Run(actions).db));
    } else {
      var init, last := more[..|more| - 1], more[|more| - 1];
      RecoveryRemembers(actions, init);
      OneMore(before + init, last);
      assert before + init + [last] == before + more && init + [last] == more;
      hide Run;
      RemembersMore(Run(before + init), before, init, last, Open(Run(actions).db));
    }
  }

  lemma NothingProved(before: seq<Action>, s: System, open: set<Id>)
    requires s.status == Recovery(open, open, None, None, {}, 0)
    ensures Remembers(s, before, [], open)
  {
  }

  lemma RemembersMore(s: System, before: seq<Action>, more: seq<Action>, a: Action, open: set<Id>)
    requires s == Run(before + more) && !s.status.Down? && !a.Crash? && Remembers(s, before, more, open)
    ensures !Step(s, a).status.Down? && Remembers(Step(s, a), before, more + [a], open)
  {
    hide Run, Step, ProvedClean;
    RecoveryStep(s, a);
    forall id ensures ProvedClean(before, more + [a], id) <==>
        ProvedClean(before, more, id) || ProvedAt(before, more + [a], |more|, id) {
      ProvedMore(before, more, a, id);
    }
    assert (more + [a])[..|more|] == more;
  }

  /**
   Whatever ran and crashed before, and whatever requests interleave with the recovery: when a start
   is over every attempt is terminal, and admission is enabled exactly when every attempt that was
   left under way was proved clean in that recovery.
   */
  lemma {:induction false} StartEnablesIff(actions: seq<Action>, more: seq<Action>)
    requires Run(actions).status.Down? && forall k :: 0 <= k < |more| ==> !more[k].Crash?
    requires var r := Run(actions + [Start] + more).status;
             r.Recovery? && r.todo == {} && r.begun == None && r.current == None
    ensures var t := Run(actions + [Start] + more + [FinishStart]);
            && t.status.Up? && (forall a :: a in t.db.attempts ==> Terminal(t.db.attempts[a].state))
            && t.admission != Recovering
            && (t.admission == Enabled <==>
                  forall id :: id in Open(Run(actions).db) ==> ProvedClean(actions + [Start], more, id))
  {
    hide Run, Open, ProvedClean;
    RecoveryRemembers(actions, more);
    RecoveryInOrder(actions + [Start] + more);
    OneMore(actions + [Start] + more, FinishStart);
    var r := Run(actions + [Start] + more).status;
    assert r.residual == 0 <==> r.open <= r.proved;
  }

  /** Once every attempt is terminal the next start enables admission, whatever was left unproved before. */
  lemma {:induction false} NextStartEnables(actions: seq<Action>)
    requires forall a :: a in Run(actions).db.attempts ==> Terminal(Run(actions).db.attempts[a].state)
    ensures var t := Run(actions + [Crash, Start, FinishStart]);
            t.status.Up? && t.admission == Enabled && t.db == Run(actions).db
  {
    OneMore(actions, Crash);
    var crashed := actions + [Crash];
    hide Run, Intact;
    StartsRecovering(crashed);
    OneMore(crashed, Start);
    OneMore(crashed + [Start], FinishStart);
    assert crashed + [Start] + [FinishStart] == actions + [Crash, Start, FinishStart];
    assert Open(Run(crashed).db) == {};
  }

  /** So a start that blocked admission is followed by one that enables it, with nothing else in between. */
  lemma BlockedThenEnabled(actions: seq<Action>, more: seq<Action>)
    requires Run(actions).status.Down? && forall k :: 0 <= k < |more| ==> !more[k].Crash?
    requires var r := Run(actions + [Start] + more).status;
             r.Recovery? && r.todo == {} && r.begun == None && r.current == None
    ensures Run(actions + [Start] + more + [FinishStart] + [Crash, Start, FinishStart]).admission == Enabled
  {
    hide Run, ProvedClean;
    StartEnablesIff(actions, more);
    NextStartEnables(actions + [Start] + more + [FinishStart]);
  }

  // Sessions -----------------------------------------------------------------------------------------------

  /** Beyond its attachment a start has its link, and so has every attempt with a session. */
  predicate LinksOk(s: System) {
    && (forall a :: a in s.sessions ==> Linked(s.db, a))
    && (forall a :: a in s.starts && !s.starts[a].Undecided? && !s.starts[a].Passed? && !s.starts[a].AtAdmission? ==>
          Linked(s.db, a))
  }

  predicate Linked(db: Db, a: Id) {
    a in db.attempts && (db.attempts[a].parent.Some? ==> (db.attempts[a].parent.value, a) in db.links)
  }

  lemma LinkedStays(db: Db, after: Db, a: Id)
    requires Linked(db, a) && db.links <= after.links && SamePlaces(db.attempts, after.attempts)
    ensures Linked(after, a)
  {
  }

  lemma LinksGrow(s: System, act: Action)
    ensures s.db.links <= Step(s, act).db.links && SamePlaces(s.db.attempts, Step(s, act).db.attempts)
  {
    StepIsLater(s, act);
    StepWrites(s, act);
    hide Record, NextCode, Step, Write, ModeFits, SamePlaces;
  }

  /** Only a stage of a start makes a session or passes the attachment. */
  lemma NoNewLinks(s: System, act: Action)
    requires !act.Advance?
    ensures Step(s, act).sessions <= s.sessions
    ensures forall a :: a in Step(s, act).starts && !Step(s, act).starts[a].Undecided?
                        && !Step(s, act).starts[a].Passed? ==>
              a in s.starts && Step(s, act).starts[a] == s.starts[a]
  {
    hide Write, Intact, Open, Transition, Serve, Terminal;
    if s.status.Up? { ServesNoNewLinks(s, act); }
  }

  lemma ServesNoNewLinks(s: System, act: Action)
    requires !act.Advance?
    ensures var t := Serve(s, act);
            && t.sessions <= s.sessions
            && forall a :: a in t.starts && !t.starts[a].Undecided? && !t.starts[a].Passed? ==>
                 a in s.starts && t.starts[a] == s.starts[a]
  {
    hide Write, InsertAttempt, Allowed, ModeFits, Prior, AfterObservation;
    if act.Observe? && act.session in s.db.attempts { ObservationKeepsControl(s, act.session, act.seen, act.stamp); }
  }

  lemma ObservationKeepsControl(s: System, id: Id, seen: Observed, stamp: Id)
    requires id in s.db.attempts
    ensures AfterObservation(s, id, seen, stamp) == s.(db := AfterObservation(s, id, seen, stamp).db)
  {
    hide Write, Settling;
  }

  lemma StepKeepsLinks(s: System, act: Action)
    requires LinksOk(s)
    ensures LinksOk(Step(s, act))
  {
    LinksGrow(s, act);
    var t := Step(s, act);
    forall a | Linked(s.db, a) ensures Linked(t.db, a) { LinkedStays(s.db, t.db, a); }
    if act.Advance? {
      AdvanceKeepsLinks(s, act.starting, act.stamp);
    } else {
      NoNewLinks(s, act);
      hide Step, SamePlaces, Linked;
    }
  }

  lemma AdvanceKeepsLinks(s: System, id: Id, stamp: Id)
    requires LinksOk(s) && forall a :: Linked(s.db, a) ==> Linked(Step(s, Advance(id, stamp)).db, a)
    ensures LinksOk(Step(s, Advance(id, stamp)))
  {
    if s.status.Up? && id in s.starts && id in s.db.attempts {
      if s.starts[id].AtAdmission? { AttachedIsLinked(s, id, stamp); }
      AdvanceIs(s, id, stamp);
      hide Step, Linked, Write, AttachChild;
    }
  }

  lemma AttachedIsLinked(s: System, id: Id, stamp: Id)
    requires id in s.starts && s.starts[id].AtAdmission? && id in s.db.attempts
    ensures var t := NextStage(s, id, stamp); t.starts[id] == AtAttachment ==> Linked(t.db, id)
  {
    hide Record;
  }

  lemma {:induction false} LinksInOrder(actions: seq<Action>)
    ensures LinksOk(Run(actions))
  {
    hide Step;
    if actions != [] {
      LinksInOrder(actions[..|actions| - 1]);
      hide LinksOk;
      StepKeepsLinks(Run(actions[..|actions| - 1]), actions[|actions| - 1]);
    }
  }

  /**
   No session exists before the attempt passed its check and was attached: every attempt that may
   report, and every live one, is linked to its parent.
   */
  lemma SessionsAreAttached(actions: seq<Action>, a: Id)
    requires a in Run(actions).sessions
    ensures var s := Run(actions);
            && a in s.passed && a in s.db.attempts
            && (s.db.attempts[a].parent.Some? ==> (s.db.attempts[a].parent.value, a) in s.db.links)
  {
    hide Run;
    RunIsOk(actions);
    LinksInOrder(actions);
    assert Linked(Run(actions).db, a);
  }
}
