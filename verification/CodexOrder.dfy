/**
 Exactly when the observer is told the accepted observations in order. A core that fails loses its
 queue; a frame whose content is being routed at that moment is concluded all the same.
 */
module CodexOrder {
  import opened Wrappers
  import opened CodexCore
  import opened CodexClient
  import opened CodexInvariant
  import opened CodexTheorems
  import CodexFraming

  /** The calls that fault the core: a request it refuses, or `initialized` out of turn. */
  predicate CallFaults(s: System, call: Action) {
    match call
    case Request(operation) => Ask(s.client.core.state, s.client.requestId + 1, operation).Thrown?
    case Initialized => Notify(s.client.core.state).Thrown?
    case _ => false
  }

  /** The frame that waits for its content gets past the client, and nobody asks for authority. */
  predicate GetsThrough(c: Client, f: Frame) {
    && c.authority == [] && !f.body.ServerRequest?
    && (f.body.Response? ==> f.body.id in c.pending)
  }

  /** What is queued when such a call comes goes before what is waiting. */
  predicate Overtakes(s: System, call: Action) {
    && Healthy(s) && s.flight.Waiting? && CallFaults(s, call)
    && s.client.core.state.queue != [] && s.client.core.state.queue[0].value != s.flight.seen
  }

  // After the core has failed ------------------------------------------------------------------------

  /** The log stays, and what was held is told, or its beginning, or nothing. */
  predicate Later(t: System, log: seq<Entry>, base: seq<Observation>, held: seq<Observation>) {
    && t.client.core.state.failed && t.client.core.bytes == [] && t.log == log
    && match t.flight
       case Waiting(_, seen, _) => Told(t.delivered) == base && t.client.core.state.queue == [] && held == [seen]
       case Framing => Told(t.delivered) == base && Values(t.client.core.state.queue) == held
       case Denying(inHand) => Told(t.delivered) == base && t.client.core.state.queue == [] && inHand == held
       case Sending(_, inHand) => Told(t.delivered) == base && t.client.core.state.queue == [] && inHand == held
       case Idle => base <= Told(t.delivered) <= base + held && t.client.core.state.queue == []
  }

  lemma CallsStay(env: Env, t: System, a: Action, base: seq<Observation>, held: seq<Observation>)
    requires Later(t, t.log, base, held)
    requires a.Request? || a.SendDone? || a.SendFailed? || a.Initialized? || a.Cleanup? || a.Finish? || a.Fail?
               || a.Deny?
    ensures Later(Effect(env, t, a), t.log, base, held)
  {
    hide Told, Values, Enter;
  }

  lemma PushStays(env: Env, t: System, chunk: seq<Byte>, base: seq<Observation>, held: seq<Observation>)
    requires Later(t, t.log, base, held)
    ensures Later(Effect(env, t, Push(chunk)), t.log, base, held)
  {
    hide Told, Values, Drain;
  }

  lemma FrameStays(env: Env, t: System, base: seq<Observation>, held: seq<Observation>)
    requires SystemOk(t) && Later(t, t.log, base, held)
    ensures Later(Effect(env, t, NextFrame), t.log, base, held)
  {
    hide Told, Values, LogOk, RequestsOk, QueueOk, TraceFits, IdsOk, MirrorOk, TransitOk, ServerOk, Drain;
    if t.flight.Framing? {
      DrainKeeps(t.client.core.state, t.log);
      assert LineEnd(t.client.core.bytes) == None;
    }
  }

  lemma ContentStays(env: Env, t: System, accepted: bool, base: seq<Observation>, held: seq<Observation>)
    requires Later(t, t.log, base, held)
    ensures Later(Effect(env, t, Content(accepted)), t.log, base, held)
  {
    hide Told;
    assert forall q: Queued :: Values([q]) == [q.value];
  }

  lemma DeniedStays(env: Env, t: System, sent: bool, base: seq<Observation>, held: seq<Observation>)
    requires Later(t, t.log, base, held)
    ensures Later(Effect(env, t, Denied(sent)), t.log, base, held)
  {
    hide Told, Values;
  }

  lemma DeliveryStays(env: Env, t: System, broken: Option<nat>, base: seq<Observation>, held: seq<Observation>)
    requires Later(t, t.log, base, held)
    ensures Later(Effect(env, t, Deliver(broken)), t.log, base, held)
  {
    hide Told, Values, UpToAsk, Numbered;
    if t.flight.Denying? && t.client.authority == [] {
      UpToAskIsPrefix(held);
      var u := AfterDelivery(t, held, broken);
      var n := u.client.sequence - t.client.sequence;
      assert u.delivered == t.delivered + Numbered(t.client.sequence, held[..n]);
      ToldMore(t.delivered, t.client.sequence, held[..n]);
      PrefixOfSum(base, held, n);
    }
  }

  lemma LaterStays(env: Env, t: System, a: Action, base: seq<Observation>, held: seq<Observation>)
    requires SystemOk(t) && Later(t, t.log, base, held)
    ensures Later(Step(env, t, a), t.log, base, held)
  {
    var u := Effect(env, t, a);
    assert Later(u, t.log, base, held) by {
      hide *;
      match a
      case Push(chunk) => PushStays(env, t, chunk, base, held);
      case NextFrame => FrameStays(env, t, base, held);
      case Content(accepted) => ContentStays(env, t, accepted, base, held);
      case Denied(sent) => DeniedStays(env, t, sent, base, held);
      case Deliver(broken) => DeliveryStays(env, t, broken, base, held);
      case _ => CallsStay(env, t, a, base, held);
    }
    hide Told, Values, Effect, SystemOk;
  }

  // The step at which it fails ---------------------------------------------------------------------------

  /** A core fails with an empty queue: in a call, or because the push stops; nobody is told anything. */
  predicate FailedIn(s: System, a: Action, t: System) {
    && t.client.core.state.queue == [] && t.delivered == s.delivered
    && s.log <= t.log && |t.log| <= |s.log| + 1
    && (if CallFaults(s, a) then t.flight == s.flight && t.log == s.log && !s.client.failed else t.flight.Idle?)
  }

  lemma CallFails(env: Env, s: System, a: Action)
    requires !a.NextFrame? && !a.Content? && !a.Deliver?
    requires !s.client.core.state.failed && Effect(env, s, a).client.core.state.failed
    ensures FailedIn(s, a, Effect(env, s, a))
  {
    hide TotalBytes, Values, Ask, Observations;
    if a.Request? { AskEffect(s.client.core.state, s.client.requestId + 1, a.operation); }
  }

  lemma DeliveryDoesNotFail(env: Env, s: System, broken: Option<nat>)
    ensures Effect(env, s, Deliver(broken)).client.core == s.client.core
  {
    hide UpToAsk, Numbered;
  }

  lemma FrameFails(env: Env, s: System)
    requires !s.client.core.state.failed && Effect(env, s, NextFrame).client.core.state.failed
    ensures FailedIn(s, NextFrame, Effect(env, s, NextFrame))
  {
    hide Begin, LineEnd, TotalBytes, Values;
    var core := s.client.core;
    var end := LineEnd(core.bytes);
    if s.flight.Framing? && end.Some? && end.value > 0 && end.value + 1 <= FRAME_BYTES {
      BeginEffect(env, core.state, core.bytes[..end.value], end.value + 1);
      CodexFraming.BeginNeverFails(env, core.state, core.bytes[..end.value], end.value + 1);
      hide ReduceEffect;
    }
  }

  lemma ContentFails(env: Env, s: System, accepted: bool)
    requires !s.client.core.state.failed && Effect(env, s, Content(accepted)).client.core.state.failed
    ensures FailedIn(s, Content(accepted), Effect(env, s, Content(accepted)))
  {
  }

  lemma CoreFails(env: Env, s: System, a: Action)
    requires SystemOk(s) && !s.client.core.state.failed && Effect(env, s, a).client.core.state.failed
    ensures FailedIn(s, a, Effect(env, s, a)) && Effect(env, s, a).client.core.bytes == []
  {
    EffectKeeps(env, s, a);
    CoreIsOk(Effect(env, s, a));
    hide *;
    match a
    case NextFrame => FrameFails(env, s);
    case Content(accepted) => ContentFails(env, s, accepted);
    case Deliver(broken) => DeliveryDoesNotFail(env, s, broken);
    case _ => CallFails(env, s, a);
  }

  /** What is held then: in flight, or waiting for its content. */
  function Held(t: System): seq<Observation> {
    match t.flight
    case Waiting(_, seen, _) => [seen]
    case Denying(inHand) => inHand
    case Sending(_, inHand) => inHand
    case _ => []
  }

  lemma ObservationsGrow(log: seq<Entry>, more: seq<Entry>)
    requires log <= more && |more| <= |log| + 1
    ensures Observations(log) <= Observations(more)
  {
    if log == more {
    } else {
      assert more[..|more| - 1] == log;
    }
  }

  /** Only a call that comes while something else is queued before the waiting frame breaks the order. */
  lemma WhenItFails(env: Env, s: System, a: Action)
    requires SystemOk(s) && !s.client.core.state.failed && Effect(env, s, a).client.core.state.failed
    ensures var t := Effect(env, s, a);
            && Later(t, t.log, Told(t.delivered), Held(t)) && Told(t.delivered) == Told(s.delivered)
            && (Told(t.delivered) + Held(t) <= Observations(t.log) <==> !Overtakes(s, a))
            && Told(t.delivered) <= Observations(t.log)
            && (Overtakes(s, a) ==> Held(t) == [s.flight.seen] && t.log == s.log)
  {
    var t := Effect(env, s, a);
    CoreFails(env, s, a);
    ObservationsGrow(s.log, t.log);
    TransitAtFailure(s);
    hide *;
    FailureIsLater(s, a, t);
    if s.flight.Waiting? && CallFaults(s, a) {
      WaitingHeld(s, a, t);
    } else {
      OtherHeld(s, a, t);
    }
  }

  lemma FailureIsLater(s: System, a: Action, t: System)
    requires FailedIn(s, a, t) && t.client.core.state.failed && t.client.core.bytes == []
    requires !s.flight.Idle? ==> Told(s.delivered) + InTransit(s) == Observations(s.log)
    ensures Later(t, t.log, Told(t.delivered), Held(t)) && Told(t.delivered) == Told(s.delivered)
  {
    hide Told, Observations, CallFaults;
    assert Told(t.delivered) + [] == Told(t.delivered) && Values([]) == [];
  }

  lemma WaitingHeld(s: System, a: Action, t: System)
    requires FailedIn(s, a, t) && !s.client.core.state.failed && s.flight.Waiting? && CallFaults(s, a)
    requires Told(s.delivered) + InTransit(s) == Observations(s.log)
    ensures Held(t) == [s.flight.seen] && t.log == s.log
    ensures Told(t.delivered) + Held(t) <= Observations(t.log) <==> !Overtakes(s, a)
  {
    hide Told, Observations, CallFaults;
    WaitingFirst(s);
  }

  lemma OtherHeld(s: System, a: Action, t: System)
    requires FailedIn(s, a, t) && !(s.flight.Waiting? && CallFaults(s, a))
    requires Told(s.delivered) <= Observations(s.log) <= Observations(t.log)
    requires !s.flight.Idle? ==> Told(s.delivered) + InTransit(s) == Observations(s.log)
    requires !s.flight.Framing? && !s.flight.Waiting? ==> s.client.core.state.queue == []
    ensures Told(t.delivered) + Held(t) <= Observations(t.log) && !Overtakes(s, a)
  {
    hide Told, Observations, CallFaults, Values;
    var told := Told(s.delivered);
    assert told + [] == told;
    if s.flight.Denying? || s.flight.Sending? {
      NothingQueued(s);
    }
  }

  lemma NothingQueued(s: System)
    requires (s.flight.Denying? || s.flight.Sending?) && s.client.core.state.queue == []
    ensures InTransit(s) == s.flight.inHand
  {
    assert Values([]) == [];
  }

  lemma TransitAtFailure(s: System)
    requires SystemOk(s) && !s.client.core.state.failed
    ensures Told(s.delivered) <= Observations(s.log)
    ensures !s.flight.Idle? ==> Told(s.delivered) + InTransit(s) == Observations(s.log)
    ensures !s.flight.Framing? && !s.flight.Waiting? ==> s.client.core.state.queue == []
  {
    hide CoreOk, IdsOk, MirrorOk, ServerOk, Observations, Told, Values;
  }

  // Runs ---------------------------------------------------------------------------------------------------

  lemma OneMore(env: Env, actions: seq<Action>, a: Action)
    ensures Run(env, actions + [a]) == Step(env, Run(env, actions), a)
  {
    assert (actions + [a])[..|actions|] == actions;
  }

  lemma {:induction false} LaterForever(env: Env, actions: seq<Action>, k: nat, log: seq<Entry>, base: seq<Observation>,
      held: seq<Observation>)
    requires k <= |actions| && Later(Run(env, actions[..k]), log, base, held)
    ensures Later(Run(env, actions), log, base, held)
    decreases |actions|
  {
    hide SystemOk, Later, Step;
    if k == |actions| {
      assert actions[..k] == actions;
    } else {
      var init := actions[..|actions| - 1];
      assert init[..k] == actions[..k];
      LaterForever(env, init, k, log, base, held);
      RunIsOk(env, init);
      LogOfLater(Run(env, init), log, base, held);
      LaterStays(env, Run(env, init), actions[|actions| - 1], base, held);
    }
  }

  lemma LogOfLater(t: System, log: seq<Entry>, base: seq<Observation>, held: seq<Observation>)
    requires Later(t, log, base, held)
    ensures t.log == log && t.client.core.state.failed
  {
    hide Told, Values;
  }

  /** The step at which the core failed. */
  lemma {:induction false} FirstFailure(env: Env, actions: seq<Action>) returns (k: nat)
    requires Run(env, actions).client.core.state.failed
    ensures k < |actions| && !Run(env, actions[..k]).client.core.state.failed
    ensures Run(env, actions[..k + 1]).client.core.state.failed
    decreases |actions|
  {
    hide Step;
    k := 0;
    if actions == [] {
      NotAtBoot();
    } else {
      var init := actions[..|actions| - 1];
      if Run(env, init).client.core.state.failed {
        k := FirstFailure(env, init);
        assert init[..k] == actions[..k] && init[..k + 1] == actions[..k + 1];
      } else {
        k := |actions| - 1;
        assert actions[..k + 1] == actions;
      }
    }
  }

  lemma NotAtBoot()
    ensures !Boot().client.core.state.failed
  {
  }

  /** The core fails here, in a call that overtakes, and what it overtook with is told later. */
  predicate OvertakenAt(env: Env, actions: seq<Action>, k: nat)
    requires k < |actions|
  {
    var s := Run(env, actions[..k]);
    Overtakes(s, actions[k]) && Told(Run(env, actions).delivered) == Told(s.delivered) + [s.flight.seen]
  }


  lemma OvertakingFails(env: Env, s: System, a: Action)
    requires Overtakes(s, a)
    ensures !s.client.core.state.failed && Step(env, s, a).client.core.state.failed
  {
    hide Enter, Seen, Values;
  }

  /** Whatever comes after the failure, only what was held then can still be told. */
  lemma AfterFailure(env: Env, actions: seq<Action>, k: nat) returns (held: seq<Observation>)
    requires k < |actions| && !Run(env, actions[..k]).client.core.state.failed
    requires Step(env, Run(env, actions[..k]), actions[k]).client.core.state.failed
    ensures var s, t := Run(env, actions[..k]), Run(env, actions);
            var told := Told(s.delivered);
            && told <= Told(t.delivered) <= told + held && told <= Observations(t.log)
            && (told + held <= Observations(t.log) <==> !Overtakes(s, actions[k]))
            && (Overtakes(s, actions[k]) ==> held == [s.flight.seen])
  {
    hide Step, Effect, SystemOk, Later, Held, Overtakes, Told, Observations;
    var s := Run(env, actions[..k]);
    var failing := Step(env, s, actions[k]);
    RunIsOk(env, actions[..k]);
    assert actions[..k + 1][..k] == actions[..k];
    assert Run(env, actions[..k + 1]) == failing;
    held := Held(failing);
    hide *;
    StepOfEffect(env, s, actions[k]);
    WhenItFails(env, s, actions[k]);
    LaterForever(env, actions, k + 1, failing.log, Told(failing.delivered), held);
    ToldOfLater(Run(env, actions), failing.log, Told(failing.delivered), held);
  }

  /** A step is its effect but for the count of settled requests. */
  lemma StepOfEffect(env: Env, s: System, a: Action)
    ensures var t, u := Effect(env, s, a), Step(env, s, a);
            && t.client == u.client && t.delivered == u.delivered && t.log == u.log && t.flight == u.flight
            && Held(t) == Held(u)
            && (Later(t, t.log, Told(t.delivered), Held(t)) ==> Later(u, t.log, Told(t.delivered), Held(t)))
  {
    hide Effect, Told, Values;
  }

  lemma ToldOfLater(t: System, log: seq<Entry>, base: seq<Observation>, held: seq<Observation>)
    requires Later(t, log, base, held)
    ensures base <= Told(t.delivered) <= base + held && t.log == log
  {
    hide Told, Values;
  }

  // Theorems ------------------------------------------------------------------------------------------------

  /**
   The observer is told the accepted observations in order, in every run but those in which a call
   faulted the core while content was routed, with something else at the head of the queue, and
   the observation that waited was told after all. Whatever it is told is numbered without a gap.
   */
  lemma {:induction false} ObserverIsToldInOrderIff(env: Env, actions: seq<Action>)
    ensures var t := Run(env, actions);
            && (forall i :: 0 <= i < |t.delivered| ==> t.delivered[i].0 == i + 1)
            && (Told(t.delivered) <= Observations(t.log) <==>
                  !exists k :: 0 <= k < |actions| && OvertakenAt(env, actions, k))
            && (Told(t.delivered) <= Observations(t.log) ==> TurnTrace(Notes(Told(t.delivered))))
  {
    var t := Run(env, actions);
    RunIsOk(env, actions);
    NumberedInRun(t);
    hide *;
    if k: nat :| 0 <= k < |actions| && OvertakenAt(env, actions, k) {
      OvertakenBreaks(env, actions, k);
    }
    if Told(t.delivered) <= Observations(t.log) {
      ToldIsATurn(env, actions);
    } else {
      var k := BreaksWhereOvertaken(env, actions);
      assert OvertakenAt(env, actions, k);
    }
  }

  lemma NumberedInRun(t: System)
    requires SystemOk(t)
    ensures forall i :: 0 <= i < |t.delivered| ==> t.delivered[i].0 == i + 1
  {
    hide CoreOk, IdsOk, MirrorOk, ServerOk, Told, Observations;
  }

  lemma ToldIsATurn(env: Env, actions: seq<Action>)
    requires Told(Run(env, actions).delivered) <= Observations(Run(env, actions).log)
    ensures TurnTrace(Notes(Told(Run(env, actions).delivered)))
  {
    hide Run, Told, Observations, Notes, TurnTrace;
    OneTurn(env, actions);
    var all, told := Observations(Run(env, actions).log), Told(Run(env, actions).delivered);
    NotesHavePrefixes(all, |told|);
    assert all[..|told|] == told;
    TracesHavePrefixes(Notes(all), |Notes(told)|);
    assert Notes(all)[..|Notes(told)|] == Notes(told);
  }

  lemma OvertakenBreaks(env: Env, actions: seq<Action>, k: nat)
    requires k < |actions| && OvertakenAt(env, actions, k)
    ensures !(Told(Run(env, actions).delivered) <= Observations(Run(env, actions).log))
  {
    hide Run, Step, Told, Observations, Overtakes;
    OvertakingFails(env, Run(env, actions[..k]), actions[k]);
    var _ := AfterFailure(env, actions, k);
  }

  lemma BreaksWhereOvertaken(env: Env, actions: seq<Action>) returns (k: nat)
    requires !(Told(Run(env, actions).delivered) <= Observations(Run(env, actions).log))
    ensures k < |actions| && OvertakenAt(env, actions, k)
  {
    hide Step, Told, Observations, Overtakes, TurnTrace, Notes;
    if !Run(env, actions).client.core.state.failed { ObserverIsToldInOrder(env, actions); }
    k := FirstFailure(env, actions);
    assert actions[..k + 1][..k] == actions[..k];
    hide Run;
    var held := AfterFailure(env, actions, k);
    var s, told := Run(env, actions[..k]), Told(Run(env, actions).delivered);
    assert told == Told(s.delivered) || told == Told(s.delivered) + held;
  }

  // One call --------------------------------------------------------------------------------------------------

  /** Only an authority request is observed as one. */
  predicate AsksMatch(s: System) {
    s.flight.Waiting? ==> (s.flight.seen == Asks <==> s.flight.frame.body.ServerRequest?)
  }

  lemma AsksMatchAfter(env: Env, s: System, a: Action)
    requires AsksMatch(s)
    ensures AsksMatch(Step(env, s, a))
  {
    if a.NextFrame? {
      FrameMatches(env, s);
    } else {
      hide TakeFrame, Drain, Ask, Notify, UpToAsk, Numbered, Enqueue;
    }
  }

  lemma FrameMatches(env: Env, s: System)
    requires AsksMatch(s)
    ensures AsksMatch(Step(env, s, NextFrame))
  {
    hide Begin, LineEnd, Drain;
    var core := s.client.core;
    var end := LineEnd(core.bytes);
    if end.Some? { BeginEffect(env, core.state, core.bytes[..end.value], end.value + 1); }
  }

  lemma {:induction false} AsksMatchInRun(env: Env, actions: seq<Action>)
    ensures AsksMatch(Run(env, actions))
  {
    hide Step;
    if actions != [] {
      hide AsksMatch;
      AsksMatchInRun(env, actions[..|actions| - 1]);
      AsksMatchAfter(env, Run(env, actions[..|actions| - 1]), actions[|actions| - 1]);
    } else {
      assert Boot().flight.Idle?;
    }
  }

  /** The client and the flight after the call, and then with the content accepted. */
  lemma CallThenContent(env: Env, s: System, call: Action)
    requires Healthy(s) && s.flight.Waiting? && CallFaults(s, call) && GetsThrough(s.client, s.flight.frame)
    ensures var t := Step(env, Step(env, s, call), Content(true));
            && t.flight.Framing? && t.client.core.bytes == [] && t.delivered == s.delivered && t.log == s.log
            && t.client.core.state.queue == [Queued(s.flight.size, s.flight.seen)]
            && !t.client.failed && t.client.authority == []
  {
    hide Enter, Values, Told, Observations;
    if call.Request? { AskEffect(s.client.core.state, s.client.requestId + 1, call.operation); }
    hide Ask;
  }

  lemma DrainThenDeliver(env: Env, t: System, size: nat, seen: Observation)
    requires t.flight.Framing? && t.client.core.bytes == [] && t.client.core.state.queue == [Queued(size, seen)]
    requires !t.client.failed && t.client.authority == [] && seen != Asks
    ensures var u := Step(env, Step(env, t, NextFrame), Deliver(None));
            !u.client.failed && u.delivered == t.delivered + [(t.client.sequence + 1, seen)] && u.log == t.log
  {
    var queue := [Queued(size, seen)];
    assert queue[..1] == queue && Values(queue) == [seen];
    assert Numbered(t.client.sequence, [seen]) == [(t.client.sequence + 1, seen)];
    hide TotalBytes, Values, Numbered, Told, Observations;
    assert LineEnd(t.client.core.bytes) == None;
  }

  /**
   In every state a run reaches with content on its way to the router: a call the core refuses,
   then the content, the end of the push and the delivery. The client has not failed, and the
   observer was told in order exactly when nothing, or the same thing, was at the head of the queue.
   */
  lemma {:induction false} FaultingCallOvertakesIff(env: Env, actions: seq<Action>, call: Action)
    requires var s := Run(env, actions);
             Healthy(s) && s.flight.Waiting? && CallFaults(s, call) && GetsThrough(s.client, s.flight.frame)
    ensures var s, t := Run(env, actions), Run(env, actions + [call, Content(true), NextFrame, Deliver(None)]);
            var queue, seen := s.client.core.state.queue, s.flight.seen;
            && !t.client.failed && Told(t.delivered) == Told(s.delivered) + [seen]
            && (Told(t.delivered) <= Observations(t.log) <==> queue == [] || queue[0].value == seen)
  {
    var s := Run(env, actions);
    RunIsOk(env, actions);
    AsksMatchInRun(env, actions);
    TransitAtFailure(s);
    CallThenContent(env, s, call);
    var t := Step(env, Step(env, s, call), Content(true));
    DrainThenDeliver(env, t, s.flight.size, s.flight.seen);
    FourMore(env, actions, call, Content(true), NextFrame, Deliver(None));
    var u := Run(env, actions + [call, Content(true), NextFrame, Deliver(None)]);
    hide Run, Step, SystemOk, Told, Observations, CallFaults;
    ToldOne(s.delivered, u.delivered, s.flight.seen);
    WaitingFirst(s);
  }

  lemma ToldOne(delivered: seq<(nat, Observation)>, more: seq<(nat, Observation)>, seen: Observation)
    requires |more| == |delivered| + 1 && delivered <= more && more[|delivered|].1 == seen
    ensures Told(more) == Told(delivered) + [seen]
  {
    assert more[..|more| - 1] == delivered;
  }

  lemma WaitingFirst(s: System)
    requires s.flight.Waiting? && Told(s.delivered) + InTransit(s) == Observations(s.log)
    ensures var queue, seen := s.client.core.state.queue, s.flight.seen;
            Told(s.delivered) + [seen] <= Observations(s.log) <==> queue == [] || queue[0].value == seen
  {
    hide Told, Observations;
    var told, queue := Told(s.delivered), s.client.core.state.queue;
    assert told + (Values(queue) + [s.flight.seen]) == Observations(s.log);
    if queue != [] { assert Observations(s.log)[|told|] == queue[0].value; }
  }

  lemma FourMore(env: Env, actions: seq<Action>, a: Action, b: Action, c: Action, d: Action)
    ensures Run(env, actions + [a, b, c, d]) == Step(env, Step(env, Step(env, Step(env, Run(env, actions), a), b), c),
              d)
  {
    hide Step;
    OneMore(env, actions, a);
    OneMore(env, actions + [a], b);
    OneMore(env, actions + [a] + [b], c);
    OneMore(env, actions + [a] + [b] + [c], d);
    assert actions + [a] + [b] + [c] + [d] == actions + [a, b, c, d];
  }
}
