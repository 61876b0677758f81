/**
 Runs of the protocol client. A push waits after every frame, while content is routed and while an
 authority request is denied; between any two waits requests, cleanup and failures may come. The
 log says what was asked and what was accepted, in order.
 */
module CodexClient {
  import opened Wrappers
  import opened CodexCore

  datatype Client = Client(
    core: Core, pending: map<int, Operation>, authority: seq<int>, requestId: nat, sequence: nat, failed: bool)

  /** Where a push is; pushes come one after the other. */
  datatype Flight =
    | Idle
    | Framing
    | Waiting(frame: Frame, seen: Observation, size: nat)
    | Denying(inHand: seq<Observation>)
    | Sending(asked: int, inHand: seq<Observation>)

  datatype Entry =
    | Issued(id: int, operation: Operation)
    | Answered(id: int, operation: Operation, isResult: bool)
    | Noted(lifecycle: Lifecycle)
    | WasAsked(id: int)

  /** `settled` counts for every request how often its promise was settled. */
  datatype System = System(
    client: Client, flight: Flight, sends: set<int>, delivered: seq<(nat, Observation)>, settled: multiset<int>,
      log: seq<Entry>)

  datatype Action =
    | Request(operation: Operation)
    | SendDone(id: int)
    | SendFailed(id: int)
    | Initialized
    | Cleanup
    | Finish
    | Fail
    | Push(chunk: seq<Byte>)
    | NextFrame
    | Content(accepted: bool)
    | Deny
    | Denied(sent: bool)
    | Deliver(broken: Option<nat>)

  function Boot(): System {
    System(Client(Spawn(), map[], [], 0, 0, false), Idle, {}, [], multiset{}, [])
  }

  /** `fail`. */
  function FailClient(c: Client): Client {
    if c.failed then c else c.(failed := true, pending := map[], authority := [])
  }

  /** `accept`; nothing when it throws. */
  function Accept(c: Client, body: Body): Option<Client> {
    match body
    case ServerRequest(id, _, _) => Some(c.(authority := c.authority + [id]))
    case Notification(_, _) => Some(c)
    case Response(id, _) => if id in c.pending then Some(c.(pending := c.pending - {id})) else None
  }

  /** A core after an operation on its state; a refusal empties the buffer. */
  function Land(bytes: seq<Byte>, outcome: Outcome<State>): Core {
    match outcome
    case Done(next) => Core(bytes, next)
    case Thrown(at, _) => Core([], at)
  }

  // The push, piece by piece -------------------------------------------------------------------------

  /** A push that throws. */
  function Stop(s: System, at: State): System {
    s.(client := FailClient(s.client.(core := Core([], at))), flight := Idle)
  }

  function BeginPush(s: System, chunk: seq<Byte>): System {
    var core := s.client.core;
    if s.client.failed then s
    else if core.state.failed then Stop(s, core.state)
    else if chunk == [] then BeginDraining(s)
    else if |core.bytes + chunk| > INCOMPLETE_BYTES && NEWLINE !in core.bytes + chunk
      then Stop(s, CodexCore.Fail(core.state))
    else s.(client := s.client.(core := core.(bytes := core.bytes + chunk)), flight := Framing)
  }

  function BeginDraining(s: System): System {
    var (state, items) := Drain(s.client.core.state, QUEUED_COUNT);
    s.(client := s.client.(core := s.client.core.(state := state)), flight := Denying(items))
  }

  /** One turn of the loop, up to the first wait. */
  function TakeFrame(env: Env, s: System): System {
    var core := s.client.core;
    var end := LineEnd(core.bytes);
    if end.None? then BeginDraining(s)
    else if end.value + 1 > FRAME_BYTES || end.value == 0 then Stop(s, CodexCore.Fail(core.state))
    else
      var rest := core.bytes[end.value + 1..];
      match Begin(env, core.state, core.bytes[..end.value], end.value + 1)
      case Stopped(at, _) => Stop(s, at)
      case Dropped(next) => s.(client := s.client.(core := Core(rest, next)))
      case Reduced(next, f, seen) => AfterReduce(s, Core(rest, next), f, seen, end.value + 1)
  }

  function EntryOf(f: Frame, seen: Observation): Entry {
    match f.body
    case Response(id, isResult) => Answered(id, if seen.Answer? then seen.operation else Initialize, isResult)
    case Notification(_, lifecycle) => Noted(lifecycle)
    case ServerRequest(id, _, _) => WasAsked(id)
  }

  function AfterReduce(s: System, core: Core, f: Frame, seen: Observation, size: nat): System {
    var t := s.(client := s.client.(core := core), log := s.log + [EntryOf(f, seen)]);
    if HasContent(f) then
      var state := core.state.(routed := core.state.routed + [f]);
      t.(client := t.client.(core := core.(state := state)), flight := Waiting(f, seen, size))
    else Conclude(t, f, seen, size)
  }

  /** The end of decoding: the consumer, then the queue. No guard stands before it. */
  function Conclude(s: System, f: Frame, seen: Observation, size: nat): System {
    var core := s.client.core;
    var state := core.state.(consumed := core.state.consumed + [f]);
    var accepted := Accept(s.client, f.body);
    if accepted.None? then Stop(s, CodexCore.Fail(state))
    else s.(client := accepted.value.(core := core.(state := Enqueue(state, size, seen))), flight := Framing)
  }

  function AfterContent(s: System, accepted: bool): System
    requires s.flight.Waiting?
  {
    if accepted then Conclude(s, s.flight.frame, s.flight.seen, s.flight.size)
    else Stop(s, CodexCore.Fail(s.client.core.state))
  }

  function AfterDenial(s: System, sent: bool): System
    requires s.flight.Sending?
  {
    if !sent then s.(client := FailClient(s.client), flight := Idle)
    else
      match ResolveServerRequest(s.client.core.state, s.flight.asked)
      case Thrown(at, _) => Stop(s, at)
      case Done(next) => s.(client := s.client.(core := s.client.core.(state := next)),
                            flight := Denying(s.flight.inHand))
  }

  /** Observations up to and with the first authority request. */
  function UpToAsk(items: seq<Observation>): seq<Observation> {
    if items == [] then [] else if items[0] == Asks then [Asks] else [items[0]] + UpToAsk(items[1..])
  }

  function Numbered(from: nat, items: seq<Observation>): (r: seq<(nat, Observation)>)
    ensures |r| == |items| && forall i :: 0 <= i < |r| ==> r[i] == (from + i + 1, items[i])
  {
    if items == [] then [] else Numbered(from, items[..|items| - 1]) + [(from + |items|, items[|items| - 1])]
  }

  /** What reaches the observer; its own exception, at `broken`, ends the delivery. */
  function AfterDelivery(s: System, inHand: seq<Observation>, broken: Option<nat>): System {
    var out := if Asks in inHand then UpToAsk(inHand) else inHand;
    var stops := broken.Some? && broken.value < |out|;
    var told := if stops then out[..broken.value + 1] else out;
    var client := if Asks in inHand || stops then FailClient(s.client) else s.client;
    s.(delivered := s.delivered + Numbered(s.client.sequence, told),
       client := client.(sequence := s.client.sequence + |told|), flight := Idle)
  }

  // The other calls -------------------------------------------------------------------------------------

  function AfterRequest(s: System, operation: Operation): System {
    if s.client.failed then s
    else
      var id := s.client.requestId + 1;
      var outcome := Ask(s.client.core.state, id, operation);
      var client := s.client.(requestId := id, core := Land(s.client.core.bytes, outcome));
      if outcome.Thrown? then s.(client := client)
      else
        s.(client := client.(pending := s.client.pending[id := operation]), sends := s.sends + {id},
           log := s.log + [Issued(id, operation)])
  }

  function AfterSendFailure(s: System, id: int): System {
    s.(client := FailClient(s.client.(pending := s.client.pending - {id})), sends := s.sends - {id})
  }

  function AfterCleanup(s: System): System {
    if s.client.failed then s
    else
      match CodexCore.BeginCleanup(s.client.core.state)
      case Thrown(at, _) => s
      case Done(next) =>
        s.(client := s.client.(core := s.client.core.(state := next), pending := map[], authority := []))
  }

  function AfterEnd(s: System): System {
    match End(s.client.core)
    case Thrown(at, _) => s.(client := FailClient(s.client.(core := at)))
    case Done(_) => if s.client.pending != map[] || s.client.authority != [] then s.(client := FailClient(s.client))
      else s
  }

  function Effect(env: Env, s: System, a: Action): System {
    match a
    case Request(operation) => AfterRequest(s, operation)
    case SendDone(id) => s.(sends := s.sends - {id})
    case SendFailed(id) => if id in s.sends then AfterSendFailure(s, id) else s
    case Initialized =>
      if s.client.failed then s
      else s.(client := s.client.(core := Land(s.client.core.bytes, Notify(s.client.core.state))))
    case Cleanup => AfterCleanup(s)
    case Finish => if s.flight.Idle? then AfterEnd(s) else s
    case Fail => s.(client := FailClient(s.client))
    case Push(chunk) => if s.flight.Idle? then BeginPush(s, chunk) else s
    case NextFrame => if s.flight.Framing? then TakeFrame(env, s) else s
    case Content(accepted) => if s.flight.Waiting? then AfterContent(s, accepted) else s
    case Deny =>
      if s.flight.Denying? && s.client.authority != [] then
        s.(client := s.client.(authority := s.client.authority[1..]),
           flight := Sending(s.client.authority[0], s.flight.inHand))
      else s
    case Denied(sent) => if s.flight.Sending? then AfterDenial(s, sent) else s
    case Deliver(broken) =>
      if s.flight.Denying? && s.client.authority == [] then AfterDelivery(s, s.flight.inHand, broken) else s
  }

  /** A promise is settled when its entry leaves `pending`. */
  function Step(env: Env, s: System, a: Action): System {
    var t := Effect(env, s, a);
    t.(settled := s.settled + multiset(s.client.pending.Keys - t.client.pending.Keys))
  }

  function Run(env: Env, actions: seq<Action>): System {
    if actions == [] then Boot() else Step(env, Run(env, actions[..|actions| - 1]), actions[|actions| - 1])
  }

  // What the log shows -----------------------------------------------------------------------------------

  function Seen(e: Entry): Option<Observation> {
    match e
    case Issued(_, _) => None
    case Answered(_, operation, isResult) => Some(Answer(operation, isResult))
    case Noted(lifecycle) => Some(Note(lifecycle))
    case WasAsked(_) => Some(Asks)
  }

  /** The accepted observations, in order. */
  function Observations(log: seq<Entry>): seq<Observation> {
    if log == [] then []
    else
      var last := Seen(log[|log| - 1]);
      Observations(log[..|log| - 1]) + if last.Some? then [last.value] else []
  }

  /** The turn notifications among observations. */
  function Notes(items: seq<Observation>): seq<Lifecycle> {
    if items == [] then []
    else
      var last := items[|items| - 1];
      Notes(items[..|items| - 1]) + if last.Note? then [last.lifecycle] else []
  }

  function Told(delivered: seq<(nat, Observation)>): (r: seq<Observation>)
    ensures |r| == |delivered| && forall i :: 0 <= i < |r| ==> r[i] == delivered[i].1
  {
    if delivered == [] then [] else Told(delivered[..|delivered| - 1]) + [delivered[|delivered| - 1].1]
  }
}
