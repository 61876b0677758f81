/** What holds along every run of the protocol client. */
module CodexTheorems {
  import opened Wrappers
  import opened CodexCore
  import opened CodexClient
  import opened CodexInvariant

  predicate Healthy(s: System) { !s.client.failed && !s.client.core.state.failed }

  /** The response whose content is being routed: the core has answered it, the client has not. */
  predicate HalfAnswered(flight: Flight, id: int) {
    flight.Waiting? && flight.frame.body.Response? && flight.frame.body.id == id
  }

  predicate IdsOk(s: System) {
    && (forall e :: e in s.log && (e.Issued? || e.Answered?) ==> 1 <= e.id <= s.client.requestId)
    && (forall id :: id in s.client.core.state.abandoned ==> id <= s.client.requestId && id !in s.client.pending)
    && (forall id :: id in s.client.pending ==> Issued(id, s.client.pending[id]) in s.log)
    && (s.flight.Waiting? && s.flight.frame.body.Response? ==>
          s.flight.frame.body.id <= s.client.requestId && s.flight.frame.body.id !in s.client.core.state.requests)
  }

  predicate MirrorOk(s: System) {
    && (s.client.core.state.failed ==> s.client.core.bytes == [])
    && (s.client.failed ==> s.client.pending == map[])
    && (Healthy(s) ==>
          if s.flight.Waiting? && s.flight.frame.body.Response?
          then s.client.pending - {s.flight.frame.body.id} == s.client.core.state.requests
          else s.client.pending == s.client.core.state.requests)
  }

  /** Observations that were accepted and have not reached the observer. */
  function InTransit(s: System): seq<Observation> {
    var queued := Values(s.client.core.state.queue);
    match s.flight
    case Waiting(_, seen, _) => queued + [seen]
    case Denying(inHand) => inHand + queued
    case Sending(_, inHand) => inHand + queued
    case _ => queued
  }

  predicate TransitOk(s: System) {
    && s.client.sequence == |s.delivered| && (forall i :: 0 <= i < |s.delivered| ==> s.delivered[i].0 == i + 1)
    && (!s.flight.Framing? && !s.flight.Waiting? ==> s.client.core.state.queue == [])
    && (s.flight.Waiting? ==> Room(s.client.core.state, s.flight.size) && s.flight.size <= QUEUED_BYTES)
    && (!s.client.core.state.failed ==>
          || Told(s.delivered) + InTransit(s) == Observations(s.log)
          || (s.client.failed && s.flight.Idle? && Told(s.delivered) <= Observations(s.log)))
  }

  predicate AskedNow(flight: Flight, id: int) {
    || (flight.Waiting? && flight.frame.body.ServerRequest? && flight.frame.body.id == id)
    || (flight.Sending? && flight.asked == id)
  }

  predicate ServerOk(s: System) {
    && (Healthy(s) ==> forall id :: id in s.client.core.state.serverRequests ==>
          id in s.client.authority || AskedNow(s.flight, id))
    && (Healthy(s) && s.flight.Idle? ==> s.client.authority == [])
    && (Asks in Told(s.delivered) ==> s.client.failed)
  }

  predicate IsIssued(log: seq<Entry>, id: int) { exists e :: e in log && e.Issued? && e.id == id }

  /** Every request that was made is pending, or was settled once. */
  ghost predicate SettledOk(s: System) {
    forall id :: s.settled[id] + (if id in s.client.pending then 1 else 0) == if IsIssued(s.log, id) then 1 else 0
  }

  ghost predicate SystemOk(s: System) {
    CoreOk(s.client.core.state, s.log) && IdsOk(s) && MirrorOk(s) && TransitOk(s) && ServerOk(s)
  }

  // Failures ---------------------------------------------------------------------------------------------

  lemma FailClientKeeps(s: System)
    requires SystemOk(s)
    ensures SystemOk(s.(client := FailClient(s.client)))
  {
    hide CoreOk, Observations, Room;
  }

  /** A push that throws, with a core that has failed. */
  lemma StopKeeps(s: System, at: State)
    requires SystemOk(s) && CoreOk(at, s.log) && at.failed && at.queue == []
               && at.abandoned == s.client.core.state.abandoned
    ensures SystemOk(Stop(s, at))
  {
    hide CoreOk, Observations, Room;
  }

  // Calls --------------------------------------------------------------------------------------------------

  lemma RequestKeeps(s: System, operation: Operation)
    requires SystemOk(s)
    ensures SystemOk(AfterRequest(s, operation))
  {
    hide CoreOk, Observations, Ask, MirrorOk, TransitOk, Told, Values, Room;
    if !s.client.failed {
      var core := s.client.core.state;
      var id := s.client.requestId + 1;
      FreshId(s, id);
      AskKeeps(core, s.log, id, operation);
      AskEffect(core, id, operation);
      RequestTransit(s, operation);
      RequestMirrored(s, operation);
    }
  }

  lemma RequestTransit(s: System, operation: Operation)
    requires TransitOk(s) && !s.client.failed
    ensures TransitOk(AfterRequest(s, operation))
  {
    hide Observations, Told, Values, Ask;
    var id := s.client.requestId + 1;
    AskEffect(s.client.core.state, id, operation);
    if Ask(s.client.core.state, id, operation).Done? {
      SilentEntry(s.log, Issued(id, operation));
      assert Observations(s.log) + [] == Observations(s.log);
    }
  }

  lemma FreshId(s: System, id: int)
    requires IdsOk(s) && id == s.client.requestId + 1
    ensures forall e :: e in s.log && (e.Issued? || e.Answered?) ==> e.id != id
    ensures id !in s.client.core.state.abandoned
  {
  }

  /** What asking leaves alone, and what a refusal leaves. */
  lemma AskEffect(s: State, id: int, operation: Operation)
    ensures match Ask(s, id, operation)
            case Done(next) =>
              && next.requests == s.requests[id := operation] && next.queue == s.queue
                && next.queuedBytes == s.queuedBytes
              && next.abandoned == s.abandoned && next.serverRequests == s.serverRequests && !s.failed && !next.failed
            case Thrown(at, _) =>
              at.failed && at.abandoned == s.abandoned && at.requests == s.requests
                && (s.failed || (at.queue == [] && at.queuedBytes == 0))
                                  && (s.failed ==> at == s)
  {
  }

  lemma RequestMirrored(s: System, operation: Operation)
    requires IdsOk(s) && MirrorOk(s) && !s.client.failed
    ensures MirrorOk(AfterRequest(s, operation))
  {
    hide Ask;
    var id := s.client.requestId + 1;
    AskEffect(s.client.core.state, id, operation);
    if s.flight.Waiting? && s.flight.frame.body.Response? {
      var half := s.flight.frame.body.id;
      assert s.client.pending[id := operation] - {half} == (s.client.pending - {half})[id := operation];
    }
  }

  lemma SendFailureKeeps(s: System, id: int)
    requires SystemOk(s)
    ensures SystemOk(AfterSendFailure(s, id))
  {
    hide CoreOk, Observations, Room;
    assert s.client.failed ==> s.client.pending - {id} == map[];
  }

  lemma InitializedKeeps(env: Env, s: System)
    requires SystemOk(s)
    ensures SystemOk(Effect(env, s, Action.Initialized))
  {
    hide CoreOk, Observations;
    NotifyKeeps(s.client.core.state, s.log);
  }

  lemma CleanupKeepsSystem(s: System)
    requires SystemOk(s)
    ensures SystemOk(AfterCleanup(s))
  {
    hide CoreOk, Observations, Room;
    CleanupKeeps(s.client.core.state, s.log);
    if !s.client.failed && !s.client.core.state.failed {
      RequestIds(s.client.core.state, s.log);
      CleanupTransit(s);
    }
  }

  lemma RequestIds(state: State, log: seq<Entry>)
    requires CoreOk(state, log)
    ensures forall id :: id in state.requests ==> Issued(id, state.requests[id]) in log
  {
    hide LogOk, IsAnswered, QueueOk, TraceFits, Observations, Notes;
  }

  lemma CleanupTransit(s: System)
    requires TransitOk(s) && Healthy(s)
    ensures TransitOk(AfterCleanup(s))
  {
    hide Observations;
  }

  lemma EndKeeps(s: System)
    requires SystemOk(s) && s.flight.Idle?
    ensures SystemOk(AfterEnd(s))
  {
    hide SystemOk, Stop;
    FailClientKeeps(s);
    CoreIsOk(s);
    if s.client.core.bytes != [] && !s.client.core.state.failed {
      FailOnly(s.client.core.state, s.log);
      StopKeeps(s, CodexCore.Fail(s.client.core.state));
      EndStops(s);
    } else if s.client.core.state.failed {
      assert End(s.client.core) == Thrown(s.client.core, Violation);
      assert s.client.(core := s.client.core) == s.client;
    } else {
      assert End(s.client.core) == Done(s.client.core);
    }
  }

  lemma EndStops(s: System)
    requires SystemOk(s) && SystemOk(Stop(s, CodexCore.Fail(s.client.core.state)))
    requires s.client.core.bytes != [] && !s.client.core.state.failed && s.flight.Idle?
    ensures SystemOk(AfterEnd(s))
  {
    hide SystemOk;
  }

  // The push -----------------------------------------------------------------------------------------------

  lemma PushKeeps(s: System, chunk: seq<Byte>)
    requires SystemOk(s) && s.flight.Idle?
    ensures SystemOk(BeginPush(s, chunk))
  {
    hide CoreOk, Observations, Room;
    var core := s.client.core.state;
    if !s.client.failed {
      FailOnly(core, s.log);
      if core.failed { StopKeeps(s, core); }
      else if chunk == [] { DrainingKeeps(s); }
      else if |s.client.core.bytes + chunk| > INCOMPLETE_BYTES && NEWLINE !in s.client.core.bytes + chunk {
        StopKeeps(s, CodexCore.Fail(core));
      }
    }
  }

  lemma DrainingKeeps(s: System)
    requires SystemOk(s) && (s.flight.Idle? || s.flight.Framing?) && (s.client.failed ==> s.flight.Framing?)
    ensures SystemOk(BeginDraining(s))
  {
    hide CoreOk, Observations, Room, Drain;
    DrainKeeps(s.client.core.state, s.log);
    var queued := Values(s.client.core.state.queue);
    assert queued + Values([]) == queued;
  }

  lemma FrameKeeps(env: Env, s: System)
    requires SystemOk(s) && s.flight.Framing?
    ensures SystemOk(TakeFrame(env, s))
  {
    hide SystemOk, Begin, AfterReduce, Stop, BeginDraining, LineEnd, CoreOk, Reduce, ContentFits, Room, ReduceEffect,
      EntryOf;
    var core := s.client.core;
    var end := LineEnd(core.bytes);
    CoreIsOk(s);
    if end.None? {
      DrainingKeeps(s);
    } else if end.value + 1 > FRAME_BYTES || end.value == 0 {
      FailOnly(core.state, s.log);
      StopKeeps(s, CodexCore.Fail(core.state));
    } else {
      BeginKeeps(env, core.state, s.log, core.bytes[..end.value], end.value + 1);
      BeginEffect(env, core.state, core.bytes[..end.value], end.value + 1);
      match Begin(env, core.state, core.bytes[..end.value], end.value + 1)
      case Stopped(at, _) => StopKeeps(s, at);
      case Dropped(next) => DropKeeps(s, core.bytes[end.value + 1..], next);
      case Reduced(next, f, seen) => ReducedKeeps(s, Core(core.bytes[end.value + 1..], next), f, seen, end.value + 1);
    }
  }

  lemma CoreIsOk(s: System)
    requires SystemOk(s)
    ensures CoreOk(s.client.core.state, s.log) && (s.client.core.state.failed ==> s.client.core.bytes == [])
  {
  }

  lemma BeginEffect(env: Env, s: State, line: seq<Byte>, size: nat)
    ensures match Begin(env, s, line, size)
            case Stopped(at, _) => at.queue == [] && at.abandoned == s.abandoned
            case Dropped(_) => true
            case Reduced(next, f, seen) => ReduceEffect(s, f, next, seen)
  {
    hide Reduce, Expected, ContentFits, ReduceEffect;
    var parsed := env.parse(line);
    if parsed.Some? {
      var validated := env.validate(line, Expected(s, parsed.value));
      if validated.Some? { ReduceHasEffect(s, validated.value); }
    }
  }

  /** What an accepted frame changes besides the phase. */
  predicate ReduceEffect(s: State, f: Frame, next: State, seen: Observation) {
    && next.queue == s.queue && next.queuedBytes == s.queuedBytes && next.abandoned == s.abandoned
      && next.failed == s.failed
    && match f.body
       case Response(id, isResult) =>
         && id in s.requests && next.requests == s.requests - {id} && next.serverRequests == s.serverRequests
         && seen == Answer(s.requests[id], isResult)
       case ServerRequest(id, _, _) => next.requests == s.requests && next.serverRequests == s.serverRequests + {id}
         && seen == Asks
       case Notification(_, lifecycle) =>
         next.requests == s.requests && next.serverRequests == s.serverRequests && seen == Note(lifecycle)
  }

  lemma ReduceHasEffect(s: State, f: Frame)
    ensures match Reduce(s, f)
            case Done(reduced) => ReduceEffect(s, f, reduced.0, reduced.1)
            case Thrown(at, _) => at.0.queue == [] && at.0.abandoned == s.abandoned
  {
  }

  lemma DropKeeps(s: System, rest: seq<Byte>, next: State)
    requires SystemOk(s) && s.flight.Framing? && CoreOk(next, s.log) && !s.client.core.state.failed
    requires next == s.client.core.state.(abandoned := next.abandoned)
               && next.abandoned.Keys <= s.client.core.state.abandoned.Keys
    ensures SystemOk(s.(client := s.client.(core := Core(rest, next))))
  {
    hide CoreOk, Observations, Room;
  }

  lemma ReducedKeeps(s: System, core: Core, f: Frame, seen: Observation, size: nat)
    requires SystemOk(s) && s.flight.Framing? && !s.client.core.state.failed && size <= FRAME_BYTES
    requires CoreOk(core.state, s.log + [EntryOf(f, seen)]) && Seen(EntryOf(f, seen)) == Some(seen)
               && Room(core.state, size)
    requires ReduceEffect(s.client.core.state, f, core.state, seen)
    ensures SystemOk(AfterReduce(s, core, f, seen, size))
  {
    hide SystemOk, CoreOk, ReduceEffect, Room, Conclude;
    var t := s.(client := s.client.(core := core), log := s.log + [EntryOf(f, seen)]);
    HalfDone(s, core, f, seen, size);
    if HasContent(f) {
      RoutedStill(t.(flight := Waiting(f, seen, size)), f);
    } else {
      ConcludeKeeps(t.(flight := Waiting(f, seen, size)), f, seen, size);
      ConcludeAnyFlight(t, f, seen, size);
    }
  }

  lemma ConcludeAnyFlight(t: System, f: Frame, seen: Observation, size: nat)
    ensures Conclude(t.(flight := Waiting(f, seen, size)), f, seen, size) == Conclude(t, f, seen, size)
  {
  }

  lemma HalfDone(s: System, core: Core, f: Frame, seen: Observation, size: nat)
    requires SystemOk(s) && s.flight.Framing? && !s.client.core.state.failed && size <= FRAME_BYTES
    requires CoreOk(core.state, s.log + [EntryOf(f, seen)]) && Seen(EntryOf(f, seen)) == Some(seen)
               && Room(core.state, size)
    requires ReduceEffect(s.client.core.state, f, core.state, seen)
    ensures SystemOk(s.(client := s.client.(core := core), log := s.log + [EntryOf(f, seen)],
              flight := Waiting(f, seen, size)))
  {
    hide CoreOk, Observations, Room;
    var t := s.(client := s.client.(core := core), log := s.log + [EntryOf(f, seen)], flight := Waiting(f, seen, size));
    SilentEntry(s.log, EntryOf(f, seen));
    assert Told(t.delivered) + InTransit(t) == (Told(s.delivered) + InTransit(s)) + [seen];
    HalfIds(s, t);
  }

  lemma HalfIds(s: System, t: System)
    requires SystemOk(s) && s.flight.Framing? && t.flight.Waiting?
               && t.log == s.log + [EntryOf(t.flight.frame, t.flight.seen)]
    requires t.client == s.client.(core := t.client.core)
    requires ReduceEffect(s.client.core.state, t.flight.frame, t.client.core.state, t.flight.seen)
    ensures IdsOk(t)
  {
    RequestIds(s.client.core.state, s.log);
    hide CoreOk, Observations, Room;
  }

  lemma RoutedStill(t: System, f: Frame)
    requires SystemOk(t)
    ensures SystemOk(t.(client := t.client.(core := t.client.core.(state := t.client.core.state.(
                       routed := t.client.core.state.routed + [f])))))
  {
    RoutedOk(t.client.core.state, t.log, f);
    hide CoreOk, Observations, Told, Values, TransitOk;
    RoutedTransit(t, f);
  }

  lemma RoutedTransit(t: System, f: Frame)
    requires TransitOk(t)
    ensures TransitOk(t.(client := t.client.(core := t.client.core.(state := t.client.core.state.(
                        routed := t.client.core.state.routed + [f])))))
  {
    hide Observations, Told, Values;
  }

  lemma RoutedOk(state: State, log: seq<Entry>, f: Frame)
    requires CoreOk(state, log)
    ensures CoreOk(state.(routed := state.routed + [f]), log)
  {
    hide LogOk, IsAnswered, TraceFits, Observations, Notes;
  }

  lemma ConcludeKeeps(s: System, f: Frame, seen: Observation, size: nat)
    requires SystemOk(s) && s.flight == Waiting(f, seen, size)
    ensures SystemOk(Conclude(s, f, seen, size))
  {
    hide CoreOk, Observations, IdsOk, MirrorOk, TransitOk, ServerOk;
    var state := s.client.core.state;
    var consumed := state.(consumed := state.consumed + [f]);
    ConsumedOk(state, s.log, f);
    if Accept(s.client, f.body).None? {
      FailOnly(consumed, s.log);
      StopKeeps(s, CodexCore.Fail(consumed));
    } else {
      RoomHere(s);
      EnqueueKeeps(consumed, s.log, size, seen);
      ConcludeIds(s);
      ConcludeTransit(s);
      ConcludeServer(s);
    }
  }

  lemma ConsumedOk(state: State, log: seq<Entry>, f: Frame)
    requires CoreOk(state, log)
    ensures CoreOk(state.(consumed := state.consumed + [f]), log)
  {
    hide LogOk, IsAnswered, TraceFits, Observations, Notes;
  }

  lemma RoomHere(s: System)
    requires TransitOk(s) && s.flight.Waiting?
    ensures Room(s.client.core.state, s.flight.size)
  {
    hide Observations, Room;
  }

  lemma ConcludeIds(s: System)
    requires IdsOk(s) && MirrorOk(s) && s.flight.Waiting? && Accept(s.client, s.flight.frame.body).Some?
    ensures IdsOk(Conclude(s, s.flight.frame, s.flight.seen, s.flight.size))
    ensures MirrorOk(Conclude(s, s.flight.frame, s.flight.seen, s.flight.size))
  {
  }

  lemma ConcludeTransit(s: System)
    requires TransitOk(s) && s.flight.Waiting? && Accept(s.client, s.flight.frame.body).Some?
    ensures TransitOk(Conclude(s, s.flight.frame, s.flight.seen, s.flight.size))
  {
    hide Observations, Room;
    var t := Conclude(s, s.flight.frame, s.flight.seen, s.flight.size);
    var before, after := s.client.core.state.queue, t.client.core.state.queue;
    assert after[..|after| - 1] == before;
    assert Values(after) == Values(before) + [s.flight.seen];
  }

  lemma ConcludeServer(s: System)
    requires ServerOk(s) && s.flight.Waiting? && Accept(s.client, s.flight.frame.body).Some?
    ensures ServerOk(Conclude(s, s.flight.frame, s.flight.seen, s.flight.size))
  {
  }

  lemma ContentKeeps(s: System, accepted: bool)
    requires SystemOk(s) && s.flight.Waiting?
    ensures SystemOk(AfterContent(s, accepted))
  {
    hide SystemOk, Conclude, Stop;
    CoreIsOk(s);
    FailOnly(s.client.core.state, s.log);
    StopKeeps(s, CodexCore.Fail(s.client.core.state));
    ConcludeKeeps(s, s.flight.frame, s.flight.seen, s.flight.size);
  }

  lemma DenyKeeps(env: Env, s: System)
    requires SystemOk(s)
    ensures SystemOk(Effect(env, s, Deny))
  {
    hide CoreOk, Observations, Room;
  }

  lemma DeniedKeeps(s: System, sent: bool)
    requires SystemOk(s) && s.flight.Sending?
    ensures SystemOk(AfterDenial(s, sent))
  {
    hide CoreOk, Observations, Room;
    if sent {
      ResolveKeeps(s.client.core.state, s.log, s.flight.asked);
      match ResolveServerRequest(s.client.core.state, s.flight.asked)
      case Thrown(at, _) => StopKeeps(s, at);
      case Done(_) =>
    } else {
      assert Told(s.delivered) + InTransit(s) == Observations(s.log) ==> Told(s.delivered) <= Observations(s.log);
    }
  }

  lemma {:induction false} UpToAskIsPrefix(items: seq<Observation>)
    ensures UpToAsk(items) <= items && (Asks !in items ==> UpToAsk(items) == items)
  {
    if items != [] { UpToAskIsPrefix(items[1..]); }
  }

  lemma DeliveryKeeps(s: System, broken: Option<nat>)
    requires SystemOk(s) && s.flight.Denying? && s.client.authority == []
    ensures SystemOk(AfterDelivery(s, s.flight.inHand, broken))
  {
    hide CoreOk, Observations, Room, UpToAsk, TransitOk;
    var t := AfterDelivery(s, s.flight.inHand, broken);
    DeliveryTransit(s, broken);
    assert s.flight.Denying? ==> !s.flight.Waiting?;
  }

  lemma DeliveryTransit(s: System, broken: Option<nat>)
    requires TransitOk(s) && s.flight.Denying? && (Asks in Told(s.delivered) ==> s.client.failed)
    ensures var t := AfterDelivery(s, s.flight.inHand, broken);
            TransitOk(t) && (Asks in Told(t.delivered) ==> t.client.failed)
  {
    hide Observations, Room, UpToAsk, Told, Values, Numbered;
    var inHand := s.flight.inHand;
    UpToAskIsPrefix(inHand);
    var t := AfterDelivery(s, inHand, broken);
    var n := t.client.sequence - s.client.sequence;
    Drained(s);
    assert t.delivered == s.delivered + Numbered(s.client.sequence, inHand[..n]);
    ToldMore(s.delivered, s.client.sequence, inHand[..n]);
    PrefixOfSum(Told(s.delivered), inHand, n);
  }

  /** While a push denies and delivers, everything accepted is told or in its hands. */
  lemma Drained(s: System)
    requires TransitOk(s) && s.flight.Denying?
    ensures InTransit(s) == s.flight.inHand
  {
    assert Values([]) == [];
  }

  lemma ToldMore(delivered: seq<(nat, Observation)>, from: nat, items: seq<Observation>)
    ensures Told(delivered + Numbered(from, items)) == Told(delivered) + items
  {
  }

  lemma PrefixOfSum(a: seq<Observation>, b: seq<Observation>, n: nat)
    requires n <= |b|
    ensures a + b[..n] <= a + b && (n == |b| ==> b[..n] == b)
  {
  }

  // Every step -----------------------------------------------------------------------------------------------

  lemma EffectKeeps(env: Env, s: System, a: Action)
    requires SystemOk(s)
    ensures SystemOk(Effect(env, s, a))
  {
    hide SystemOk, AfterRequest, AfterSendFailure, AfterCleanup, AfterEnd, BeginPush, TakeFrame, AfterContent,
      AfterDenial, AfterDelivery;
    match a
    case Request(operation) => RequestKeeps(s, operation);
    case SendDone(id) => SendsDoNotMatter(s, s.sends - {id});
    case SendFailed(id) => SendFailureKeeps(s, id);
    case Initialized => InitializedKeeps(env, s);
    case Cleanup => CleanupKeepsSystem(s);
    case Finish => if s.flight.Idle? { EndKeeps(s); }
    case Fail => FailClientKeeps(s);
    case Push(chunk) => if s.flight.Idle? { PushKeeps(s, chunk); }
    case NextFrame => if s.flight.Framing? { FrameKeeps(env, s); }
    case Content(accepted) => if s.flight.Waiting? { ContentKeeps(s, accepted); }
    case Deny => DenyKeeps(env, s);
    case Denied(sent) => if s.flight.Sending? { DeniedKeeps(s, sent); }
    case Deliver(broken) => if s.flight.Denying? && s.client.authority == [] { DeliveryKeeps(s, broken); }
  }

  lemma SendsDoNotMatter(s: System, sends: set<int>)
    requires SystemOk(s)
    ensures SystemOk(s.(sends := sends))
  {
    hide CoreOk, Observations, Room;
  }

  lemma SettledDoesNotMatter(s: System, settled: multiset<int>)
    requires SystemOk(s)
    ensures SystemOk(s.(settled := settled))
  {
    hide CoreOk, Observations, Room;
  }

  lemma {:induction false} RunIsOk(env: Env, actions: seq<Action>)
    ensures SystemOk(Run(env, actions))
  {
    hide SystemOk, Effect;
    if actions == [] {
      BootIsOk();
    } else {
      var s := Run(env, actions[..|actions| - 1]);
      RunIsOk(env, actions[..|actions| - 1]);
      EffectKeeps(env, s, actions[|actions| - 1]);
      SettledDoesNotMatter(Effect(env, s, actions[|actions| - 1]), Run(env, actions).settled);
    }
  }

  lemma BootIsOk()
    ensures SystemOk(Boot())
  {
    SpawnedOk();
    hide CoreOk;
  }

  // Theorems ---------------------------------------------------------------------------------------------------

  /** However calls, waits and failures interleave, at most two requests are outstanding. */
  lemma {:induction false} AtMostTwoOutstanding(env: Env, actions: seq<Action>)
    ensures |Run(env, actions).client.core.state.requests| <= 2
  {
    RunIsOk(env, actions);
    hide Run, LogOk, QueueOk, TraceFits, IdsOk, MirrorOk, TransitOk, ServerOk, IsAnswered;
  }

  /** The queue of observations stays within its limits, and its byte counter is what it holds. */
  lemma {:induction false} QueueIsBounded(env: Env, actions: seq<Action>)
    ensures var s := Run(env, actions).client.core.state;
            |s.queue| <= QUEUED_COUNT && s.queuedBytes == TotalBytes(s.queue) <= QUEUED_BYTES
  {
    RunIsOk(env, actions);
    hide Run, LogOk, RequestsOk, TraceFits, IdsOk, MirrorOk, TransitOk, ServerOk;
  }

  /**
   Each kind of request is accepted once at most, so there is one thread and one turn, and every
   response observation answers exactly one request, made before it.
   */
  lemma {:induction false} RequestsAndAnswersMatch(env: Env, actions: seq<Action>)
    ensures LogOk(Run(env, actions).log)
  {
    RunIsOk(env, actions);
    hide Run, LogOk, RequestsOk, QueueOk, TraceFits, IdsOk, MirrorOk, TransitOk, ServerOk;
  }

  /** The turn notifications that are accepted are a prefix of (started activity*)? completed. */
  lemma {:induction false} OneTurn(env: Env, actions: seq<Action>)
    ensures TurnTrace(Notes(Observations(Run(env, actions).log)))
  {
    RunIsOk(env, actions);
    hide Run, LogOk, RequestsOk, QueueOk, IdsOk, MirrorOk, TransitOk, ServerOk;
    var s := Run(env, actions);
    FaultTraceOf(s.client.core.state.phase, Notes(Observations(s.log)));
  }

  lemma FaultTraceOf(phase: Phase, n: seq<Lifecycle>)
    requires TraceFits(phase, n)
    ensures TurnTrace(n)
  {
  }

  lemma {:induction false} NotesHavePrefixes(items: seq<Observation>, k: nat)
    requires k <= |items|
    ensures Notes(items[..k]) <= Notes(items)
  {
    if k < |items| {
      NotesHavePrefixes(items[..|items| - 1], k);
      assert items[..|items| - 1][..k] == items[..k];
    } else {
      assert items[..k] == items;
    }
  }

  /**
   As long as the core has not failed, the observer is told the accepted observations in order,
   numbered from one without a gap, and so sees the turn as it went.
   */
  lemma {:induction false} ObserverIsToldInOrder(env: Env, actions: seq<Action>)
    requires !Run(env, actions).client.core.state.failed
    ensures var s := Run(env, actions);
            && Told(s.delivered) <= Observations(s.log)
            && (forall i :: 0 <= i < |s.delivered| ==> s.delivered[i].0 == i + 1)
            && TurnTrace(Notes(Told(s.delivered)))
  {
    RunIsOk(env, actions);
    OneTurn(env, actions);
    hide Run, CoreOk, IdsOk, MirrorOk, ServerOk, Observations, TurnTrace, Notes, Values;
    var s := Run(env, actions);
    var all, told := Observations(s.log), Told(s.delivered);
    assert told <= all;
    NotesHavePrefixes(all, |told|);
    assert all[..|told|] == told;
    TracesHavePrefixes(Notes(all), |Notes(told)|);
    assert Notes(all)[..|Notes(told)|] == Notes(told);
  }

  /**
   While neither side has failed the client waits for exactly the requests the core has
   outstanding, but for the one whose content is being routed; abandoned requests nobody waits for.
   */
  lemma {:induction false} PendingMirrorsCore(env: Env, actions: seq<Action>)
    ensures var s := Run(env, actions);
            && (forall id :: id in s.client.core.state.abandoned ==>
                  id !in s.client.pending && id !in s.client.core.state.requests)
            && (Healthy(s) ==>
                  && (forall id :: id in s.client.core.state.requests ==>
                        id in s.client.pending && s.client.pending[id] == s.client.core.state.requests[id])
                  && (forall id :: id in s.client.pending && !HalfAnswered(s.flight, id) ==>
                        id in s.client.core.state.requests))
  {
    RunIsOk(env, actions);
    hide Run, LogOk, QueueOk, TraceFits, TransitOk, ServerOk, IsAnswered;
  }

  /** A client that took an authority request has failed by the time its push is over. */
  lemma {:induction false} AuthorityRequestsEndTheRun(env: Env, actions: seq<Action>)
    requires Run(env, actions).flight.Idle? && Healthy(Run(env, actions))
    ensures var s := Run(env, actions);
            s.client.authority == [] && forall id :: id !in s.client.core.state.serverRequests && WasAsked(id) !in s.log
  {
    RunIsOk(env, actions);
    hide Run, CoreOk, IdsOk, MirrorOk, Observations;
    var s := Run(env, actions);
    assert Values(s.client.core.state.queue) == [];
    assert Told(s.delivered) + [] == Told(s.delivered);
    assert Observations(s.log) == Told(s.delivered);
    forall id ensures id !in s.client.core.state.serverRequests && WasAsked(id) !in s.log {
      if WasAsked(id) in s.log { AskedIsSeen(s.log, id); }
    }
  }

  lemma {:induction false} AskedIsSeen(log: seq<Entry>, id: int)
    requires WasAsked(id) in log
    ensures Asks in Observations(log)
  {
    if log[|log| - 1] != WasAsked(id) { AskedIsSeen(log[..|log| - 1], id); }
  }

  /**
   In every state a run reaches, a response is refused exactly when nobody asked for it or it is an
   error for one of the three requests that must succeed; the phase never stands against it.
   */
  lemma {:induction false} ResponsesAreRefusedIff(env: Env, actions: seq<Action>, id: int, isResult: bool, f: Frame)
    requires f.body == Response(id, isResult) && !Run(env, actions).client.core.state.failed && ValidId(id)
    ensures var s := Run(env, actions).client.core.state;
            Reduce(s, f).Thrown? <==>
              id !in s.requests || (!isResult && s.requests[id] in {Initialize, ThreadStart, TurnStart})
  {
    RunIsOk(env, actions);
    hide Run, LogOk, TraceFits, TransitOk, ServerOk, IdsOk, MirrorOk, IsAnswered, Outstanding;
  }

  // Settlement ----------------------------------------------------------------------------------------------------

  /** A step makes one request, or makes none and leaves no new one waiting. */
  ghost predicate PendingEffect(s: System, t: System) {
    && t.settled == s.settled
    && (|| (t.client.pending.Keys <= s.client.pending.Keys
            && (t.log == s.log || (|t.log| == |s.log| + 1 && s.log <= t.log && !t.log[|s.log|].Issued?)))
        || exists operation :: PendingGrows(s, t, operation))
  }

  predicate PendingGrows(s: System, t: System, operation: Operation) {
    var id := s.client.requestId + 1;
    t.log == s.log + [Issued(id, operation)] && t.client.pending == s.client.pending[id := operation]
  }

  lemma EffectOnPending(env: Env, s: System, a: Action)
    ensures PendingEffect(s, Effect(env, s, a))
  {
    hide TakeFrame, Conclude, PendingEffect, AfterDelivery, AfterRequest, AfterDenial, AfterEnd, AfterCleanup,
      BeginPush;
    match a
    case Request(operation) => RequestOnPending(s, operation);
    case NextFrame => FrameOnPending(env, s);
    case Content(accepted) =>
      if s.flight.Waiting? {
        ConcludeOnPending(s, s.flight.frame, s.flight.seen, s.flight.size);
        QuietOnPending(s, Stop(s, CodexCore.Fail(s.client.core.state)));
      } else { QuietOnPending(s, s); }
    case _ =>
      OtherOnPending(env, s, a);
  }

  lemma QuietOnPending(s: System, t: System)
    requires t.log == s.log && t.client.pending.Keys <= s.client.pending.Keys && t.settled == s.settled
    ensures PendingEffect(s, t)
  {
  }

  lemma OtherOnPending(env: Env, s: System, a: Action)
    requires !a.Request? && !a.NextFrame? && !a.Content?
    ensures PendingEffect(s, Effect(env, s, a))
  {
    hide Drain, LineEnd, UpToAsk, Numbered, CodexCore.BeginCleanup, Notify, ResolveServerRequest;
  }

  lemma RequestOnPending(s: System, operation: Operation)
    ensures PendingEffect(s, AfterRequest(s, operation))
  {
    hide Ask;
    var id := s.client.requestId + 1;
    if !s.client.failed && Ask(s.client.core.state, id, operation).Done? {
      assert PendingGrows(s, AfterRequest(s, operation), operation);
    }
  }

  lemma ConcludeOnPending(s: System, f: Frame, seen: Observation, size: nat)
    ensures PendingEffect(s, Conclude(s, f, seen, size))
    ensures var t := Conclude(s, f, seen, size);
            t.log == s.log && t.settled == s.settled && t.client.pending.Keys <= s.client.pending.Keys
  {
  }

  lemma FrameOnPending(env: Env, s: System)
    ensures PendingEffect(s, Effect(env, s, NextFrame))
  {
    hide Begin, Drain, LineEnd, Conclude;
    if s.flight.Framing? {
      var core := s.client.core;
      var end := LineEnd(core.bytes);
      if end.Some? && end.value > 0 && end.value + 1 <= FRAME_BYTES {
        match Begin(env, core.state, core.bytes[..end.value], end.value + 1)
        case Reduced(next, f, seen) =>
          var t := s.(client := s.client.(core := Core(core.bytes[end.value + 1..], next)),
                      log := s.log + [EntryOf(f, seen)]);
          ConcludeOnPending(t, f, seen, end.value + 1);
        case _ =>
      }
    }
  }

  lemma StepSettles(env: Env, s: System, a: Action)
    requires SettledOk(s) && IdsOk(s)
    ensures SettledOk(Step(env, s, a))
  {
    hide Effect, PendingEffect, IdsOk, IsIssued;
    var t := Effect(env, s, a);
    EffectOnPending(env, s, a);
    SettlementStep(s, t);
  }

  lemma SettlementStep(s: System, t: System)
    requires SettledOk(s) && IdsOk(s) && PendingEffect(s, t)
    ensures SettledOk(t.(settled := s.settled + multiset(s.client.pending.Keys - t.client.pending.Keys)))
  {
    var u := t.(settled := s.settled + multiset(s.client.pending.Keys - t.client.pending.Keys));
    var gone := s.client.pending.Keys - t.client.pending.Keys;
    if exists operation :: PendingGrows(s, t, operation) {
      var operation :| PendingGrows(s, t, operation);
      var id := s.client.requestId + 1;
      forall k ensures IsIssued(u.log, k) <==> IsIssued(s.log, k) || k == id {
        IssuedMore(s.log, Issued(id, operation), k);
      }
      NotIssuedYet(s, id);
      hide IsIssued, IdsOk;
      assert id !in s.client.pending by {
        assert s.settled[id] + (if id in s.client.pending then 1 else 0) == 0;
      }
      assert gone == {};
    } else {
      forall k ensures IsIssued(u.log, k) <==> IsIssued(s.log, k) {
        if t.log != s.log {
          IssuedMore(s.log, t.log[|s.log|], k);
          assert t.log == s.log + [t.log[|s.log|]];
        }
      }
      hide IsIssued, IdsOk;
    }
  }

  lemma IssuedMore(log: seq<Entry>, e: Entry, k: int)
    ensures IsIssued(log + [e], k) <==> IsIssued(log, k) || (e.Issued? && e.id == k)
  {
    if IsIssued(log, k) {
      var x :| x in log && x.Issued? && x.id == k;
      assert x in log + [e];
    }
    if e.Issued? && e.id == k { assert e in log + [e]; }
  }

  lemma NotIssuedYet(s: System, id: int)
    requires IdsOk(s) && id == s.client.requestId + 1
    ensures !IsIssued(s.log, id)
  {
  }

  /** Every accepted request is either still waiting or was settled exactly once. */
  lemma {:induction false} EveryRequestSettlesOnce(env: Env, actions: seq<Action>)
    ensures SettledOk(Run(env, actions))
  {
    hide Step, IdsOk, CoreOk, MirrorOk, TransitOk, ServerOk;
    if actions != [] {
      EveryRequestSettlesOnce(env, actions[..|actions| - 1]);
      RunIsOk(env, actions[..|actions| - 1]);
      StepSettles(env, Run(env, actions[..|actions| - 1]), actions[|actions| - 1]);
    }
  }

  /** After a failure nothing is left waiting: every request was settled once. */
  lemma FailureSettlesAll(env: Env, actions: seq<Action>, id: int)
    requires Run(env, actions).client.failed
    ensures Run(env, actions).settled[id] == if IsIssued(Run(env, actions).log, id) then 1 else 0
  {
    RunIsOk(env, actions);
    EveryRequestSettlesOnce(env, actions);
    hide Run, CoreOk, IdsOk, TransitOk, ServerOk, IsIssued;
  }
}
