/**
 The Codex protocol core: a newline framer over a growing buffer, a phase machine, id-matched
 requests and a bounded queue of observations. The frame schema, the accepted method names, the
 content router and the private consumer belong to the outside; `Env` says what they answer.
 */
module CodexCore {
  import opened Wrappers

  newtype Byte = x: int | 0 <= x < 256

  const FRAME_BYTES: nat := 8 * 1024 * 1024
  const INCOMPLETE_BYTES: nat := 8 * 1024 * 1024
  const QUEUED_COUNT: nat := 256
  const QUEUED_BYTES: nat := 16 * 1024 * 1024
  const OUTSTANDING: nat := 64
  const CONTENT_BYTES: nat := 16 * 1024 * 1024
  const MAX_SAFE: nat := 0x1F_FFFF_FFFF_FFFF
  const NEWLINE: Byte := 10

  datatype Phase =
    | Spawned | Initializing | InitializeReplied | Initialized | ThreadStarting | ThreadReady | TurnStarting
    | TurnActive
    | Interrupting | TurnTerminalObserved | CleaningUp | Faulted

  datatype Operation = Initialize | ThreadStart | TurnStart | TurnInterrupt | Shutdown | Unknown(name: string)

  datatype Code =
    | Violation | Unsupported | FrameTooLarge | QueueOverflow | ContentBackpressure
    | TransportLost | AuthorityRequested | StdinBackpressure | InternalFailure

  datatype Lifecycle = TurnStarted | Activity | TurnCompleted

  datatype Body =
    | Response(id: int, isResult: bool)
    | Notification(name: string, lifecycle: Lifecycle)
    | ServerRequest(id: int, name: string, authority: bool)

  /** A validated frame; a size that is no safe integer is a negative one. */
  datatype Frame = Frame(body: Body, content: bool, contentBytes: Option<int>)

  datatype Observation = Answer(operation: Operation, isResult: bool) | Note(lifecycle: Lifecycle) | Asks

  datatype Queued = Queued(bytes: nat, value: Observation)

  /** What a line parses to: an object, of which only a numeric id matters before validation. */
  datatype Candidate = Candidate(id: Option<int>)

  /** The outside. Router and consumer answer by what they were given before. */
  datatype Env = Env(
    parse: seq<Byte> -> Option<Candidate>, validate: (seq<Byte>, Option<Operation>) -> Option<Frame>,
      accepts: string -> bool,
    route: (seq<Frame>, Frame) -> bool, consume: (seq<Frame>, Frame) -> bool)

  /** Everything but the buffer; `routed` and `consumed` are the frames that left. */
  datatype State = State(
    phase: Phase, queue: seq<Queued>, queuedBytes: int, requests: map<int, Operation>, abandoned: map<int, Operation>,
    serverRequests: set<int>, threads: nat, turns: nat, terminals: nat, shutdowns: nat, failed: bool,
    routed: seq<Frame>, consumed: seq<Frame>)

  datatype Core = Core(bytes: seq<Byte>, state: State)

  datatype Outcome<S> = Done(next: S) | Thrown(at: S, code: Code)

  function Spawn(): Core {
    Core([], State(Spawned, [], 0, map[], map[], {}, 0, 0, 0, 0, false, [], []))
  }

  predicate ValidId(id: int) { 1 <= id <= MAX_SAFE }

  /** `fault`, but for the buffer, which it empties. */
  function Fail(s: State): State { s.(failed := true, phase := Faulted, queue := [], queuedBytes := 0) }

  function Fault(s: State, code: Code): Outcome<State> { Thrown(Fail(s), code) }

  // Outbound -------------------------------------------------------------------------------------

  /** `request`, after its guard: the phase it leads to and the counters it moves. */
  function Ask(s: State, id: int, operation: Operation): Outcome<State> {
    if s.failed then Thrown(s, Violation)
    else if !ValidId(id) then Fault(s, Violation)
    else if operation.Unknown? then Fault(s, Unsupported)
    else if id in s.requests || id in s.serverRequests || |s.requests| >= OUTSTANDING then Fault(s, Violation)
    else
      match Enter(s, operation)
      case Thrown(at, code) => Thrown(at, code)
      case Done(next) => Done(next.(requests := s.requests[id := operation]))
  }

  /** The phase a request leads to, when the phase the core is in allows it. */
  function Enter(s: State, operation: Operation): (r: Outcome<State>)
    ensures match r case Done(next) => next.failed == s.failed case Thrown(at, _) => at.failed
  {
    if operation == Initialize && s.phase == Spawned then Done(s.(phase := Initializing))
    else if operation == ThreadStart && s.phase == Initialized && s.threads == 0
      then Done(s.(threads := 1, phase := ThreadStarting))
    else if operation == TurnStart && s.phase == ThreadReady && s.turns == 0
      then Done(s.(turns := 1, phase := TurnStarting))
    else if operation == TurnInterrupt && s.phase in {TurnStarting, TurnActive} then Done(s.(phase := Interrupting))
    else if operation != Shutdown || s.phase != CleaningUp then Fault(s, Violation)
    else if s.shutdowns != 0 then Fault(s.(shutdowns := s.shutdowns + 1), Violation)
    else Done(s.(shutdowns := 1))
  }

  /** `notification('initialized')`. */
  function Notify(s: State): Outcome<State> {
    if s.failed then Thrown(s, Violation)
    else if s.phase != InitializeReplied then Fault(s, Violation)
    else Done(s.(phase := Initialized))
  }

  function BeginCleanup(s: State): Outcome<State> {
    if s.failed then Thrown(s, Violation)
    else Done(s.(abandoned := s.abandoned + s.requests, requests := map[], serverRequests := {}, phase := CleaningUp))
  }

  function ResolveServerRequest(s: State, id: int): Outcome<State> {
    if s.failed then Thrown(s, Violation)
    else if !ValidId(id) || id !in s.serverRequests then Fault(s, Violation)
    else Done(s.(serverRequests := s.serverRequests - {id}))
  }

  // Inbound --------------------------------------------------------------------------------------

  /** `reduce`: the state after a frame and what it is observed as. */
  function Reduce(s: State, frame: Frame): Outcome<(State, Observation)> {
    match frame.body
    case Response(id, isResult) =>
      if !ValidId(id) || id !in s.requests then Refused(s, Violation)
      else
        var operation := s.requests[id];
        var rest := s.(requests := s.requests - {id});
        if !isResult && operation in {Initialize, ThreadStart, TurnStart} then Refused(rest, Violation)
        else if operation == Initialize then
          if s.phase != Initializing then Refused(rest, Violation)
          else Done((rest.(phase := InitializeReplied), Answer(operation, isResult)))
        else if operation == ThreadStart then
          if s.phase != ThreadStarting then Refused(rest, Violation)
          else Done((rest.(phase := ThreadReady), Answer(operation, isResult)))
        else Done((rest, Answer(operation, isResult)))
    case ServerRequest(id, _, authority) =>
      if s.phase !in {TurnActive, Interrupting} || !ValidId(id) || id in s.serverRequests || id in s.requests
         || |s.serverRequests| >= OUTSTANDING || !authority then Refused(s, Violation)
      else Done((s.(serverRequests := s.serverRequests + {id}), Asks))
    case Notification(_, TurnStarted) =>
      if s.phase != TurnStarting then Refused(s, Violation) else Done((s.(phase := TurnActive), Note(TurnStarted)))
    case Notification(_, Activity) =>
      if s.phase != TurnActive then Refused(s, Violation) else Done((s, Note(Activity)))
    case Notification(_, TurnCompleted) =>
      if s.phase !in {TurnActive, Interrupting} then Refused(s, Violation)
      else if s.terminals != 0 then Refused(s.(terminals := s.terminals + 1), Violation)
      else Done((s.(terminals := 1, phase := TurnTerminalObserved), Note(TurnCompleted)))
  }

  function Refused(s: State, code: Code): Outcome<(State, Observation)> { Thrown((Fail(s), Asks), code) }

  /** How far decoding a line gets without waiting. */
  datatype Decoding =
    | Stopped(at: State, code: Code)
    | Dropped(next: State)
    | Reduced(next: State, frame: Frame, seen: Observation)

  /** The request a candidate's id belongs to, abandoned ones included. */
  function Expected(s: State, c: Candidate): Option<Operation> {
    if c.id.None? then None
    else if c.id.value in s.requests then Some(s.requests[c.id.value])
    else if c.id.value in s.abandoned then Some(s.abandoned[c.id.value]) else None
  }

  predicate ContentFits(f: Frame) {
    var size := if f.contentBytes.Some? then f.contentBytes.value else 0;
    0 <= size <= CONTENT_BYTES && (size == 0 <==> !f.content)
  }

  predicate HasContent(f: Frame) { f.contentBytes.Some? && f.contentBytes.value > 0 }

  /** `decode` up to its first wait, and all of `reduce`. */
  function Begin(env: Env, s: State, line: seq<Byte>, size: nat): Decoding {
    var parsed := env.parse(line);
    if parsed.None? then Stopped(Fail(s), Violation)
    else
      var validated := env.validate(line, Expected(s, parsed.value));
      if validated.None? then Stopped(Fail(s), Violation)
      else Admit(env, s, validated.value, size)
  }

  function Admit(env: Env, s: State, f: Frame, size: nat): Decoding {
    if !f.body.Response? && !env.accepts(f.body.name) then Stopped(Fail(s), Unsupported)
    else if !ContentFits(f) then Stopped(Fail(s), Violation)
    else if f.body.Response? && f.body.id in s.abandoned then Dropped(s.(abandoned := s.abandoned - {f.body.id}))
    else if |s.queue| >= QUEUED_COUNT || s.queuedBytes + size > QUEUED_BYTES then Stopped(Fail(s), QueueOverflow)
    else
      match Reduce(s, f)
      case Thrown(at, code) => Stopped(at.0, code)
      case Done(reduced) => Reduced(reduced.0, f, reduced.1)
  }

  /** The end of `decode`. */
  function Enqueue(s: State, size: nat, seen: Observation): State {
    s.(queue := s.queue + [Queued(size, seen)], queuedBytes := s.queuedBytes + size)
  }

  /** `decode` without anything else in between. */
  function Decode(env: Env, s: State, line: seq<Byte>, size: nat): Outcome<State> {
    match Begin(env, s, line, size)
    case Stopped(at, code) => Thrown(at, code)
    case Dropped(next) => Done(next)
    case Reduced(next, f, seen) =>
      var routed := if HasContent(f) then next.(routed := next.routed + [f]) else next;
      if HasContent(f) && !env.route(next.routed, f) then Fault(routed, ContentBackpressure)
      else
        var consumed := routed.(consumed := routed.consumed + [f]);
        if !env.consume(routed.consumed, f) then Fault(consumed, Violation) else Done(Enqueue(consumed, size, seen))
  }

  // Framing ----------------------------------------------------------------------------------------

  /** Where the first newline is. */
  function LineEnd(bytes: seq<Byte>): (r: Option<nat>)
    ensures r.None? <==> NEWLINE !in bytes
    ensures r.Some? ==> r.value < |bytes| && bytes[r.value] == NEWLINE && NEWLINE !in bytes[..r.value]
  {
    if bytes == [] then None
    else if bytes[0] == NEWLINE then Some(0)
    else
      var rest := LineEnd(bytes[1..]);
      assert rest.Some? ==> bytes[..rest.value + 1] == [bytes[0]] + bytes[1..][..rest.value];
      if rest.None? then None else Some(rest.value + 1)
  }

  /** The loop of `push`: decode every complete line. */
  function Consume(env: Env, c: Core): Outcome<Core>
    decreases |c.bytes|
  {
    var end := LineEnd(c.bytes);
    if end.None? then Done(c)
    else if end.value + 1 > FRAME_BYTES then Thrown(Core([], Fail(c.state)), FrameTooLarge)
    else if end.value == 0 then Thrown(Core([], Fail(c.state)), Violation)
    else
      match Decode(env, c.state, c.bytes[..end.value], end.value + 1)
      case Thrown(at, code) => Thrown(Core([], at), code)
      case Done(next) => Consume(env, Core(c.bytes[end.value + 1..], next))
  }

  function Push(env: Env, c: Core, chunk: seq<Byte>): Outcome<Core> {
    if c.state.failed then Thrown(c, Violation)
    else if chunk == [] then Done(c)
    else if |c.bytes + chunk| > INCOMPLETE_BYTES && NEWLINE !in c.bytes + chunk then
      Thrown(Core([], Fail(c.state)), FrameTooLarge)
    else Consume(env, Core(c.bytes + chunk, c.state))
  }

  /** `end`: nothing may be left in the buffer. */
  function End(c: Core): Outcome<Core> {
    if c.state.failed then Thrown(c, Violation)
    else if c.bytes != [] then Thrown(Core([], Fail(c.state)), Violation)
    else Done(c)
  }

  // Draining ----------------------------------------------------------------------------------------

  function TotalBytes(items: seq<Queued>): nat {
    if items == [] then 0 else TotalBytes(items[..|items| - 1]) + items[|items| - 1].bytes
  }

  function Values(items: seq<Queued>): (r: seq<Observation>)
    ensures |r| == |items| && forall i :: 0 <= i < |r| ==> r[i] == items[i].value
  {
    if items == [] then [] else Values(items[..|items| - 1]) + [items[|items| - 1].value]
  }

  /** `drain(maximum)` leaves what is beyond the maximum. */
  function Drain(s: State, maximum: nat): (State, seq<Observation>)
    requires maximum >= 1
  {
    var n := if |s.queue| < maximum then |s.queue| else maximum;
    (s.(queue := s.queue[n..], queuedBytes := s.queuedBytes - TotalBytes(s.queue[..n])), Values(s.queue[..n]))
  }
}
