/** The protocol core and its client as the program runs them: fields updated in place. */
module CodexProtocol {
  import opened Wrappers
  import opened CodexCore
  import CodexClient
  import CodexFraming
  import opened CodexInvariant
  import CodexOrder
  import CodexTheorems

  /** Sets every entry of `from` in `into`, one after the other. */
  method Gather<K(==), V(==)>(into: map<K, V>, from: map<K, V>) returns (all: map<K, V>)
    ensures all == into + from
  {
    all := into;
    var todo := from.Keys;
    while todo != {}
      invariant todo <= from.Keys
      invariant all == into + (from - todo)
      decreases todo
    {
      var key :| key in todo;
      all := all[key := from[key]];
      todo := todo - {key};
    }
    assert from - todo == from;
  }

  method Unload(items: seq<Queued>) returns (total: nat, values: seq<Observation>)
    ensures total == TotalBytes(items) && values == Values(items)
  {
    total, values := 0, [];
    var i := 0;
    while i < |items|
      invariant 0 <= i <= |items|
      invariant total == TotalBytes(items[..i]) && values == Values(items[..i])
    {
      assert items[..i + 1][..i] == items[..i];
      total := total + items[i].bytes;
      values := values + [items[i].value];
      i := i + 1;
    }
    assert items[..i] == items;
  }

  class ProtocolCore {
    const env: Env
    var bytes: seq<Byte>
    var phase: Phase
    var queue: seq<Queued>
    var queuedBytes: int
    var requests: map<int, Operation>
    var abandonedRequests: map<int, Operation>
    var serverRequests: set<int>
    var threadCount: nat
    var turnCount: nat
    var terminalCount: nat
    var shutdownCount: nat
    var failed: bool
    var routed: seq<Frame>
    var consumed: seq<Frame>
    /** What was asked and accepted, what was drained, and the observation whose decoding still waits. */
    ghost var log: seq<CodexClient.Entry>
    ghost var drained: seq<Observation>
    ghost var waiting: seq<Observation>

    function Now(): State
      reads this
    {
      State(phase, queue, queuedBytes, requests, abandonedRequests, serverRequests, threadCount, turnCount,
            terminalCount,
            shutdownCount, failed, routed, consumed)
    }

    function Snapshot(): Core
      reads this
    {
      Core(bytes, Now())
    }

    /** A fault empties the buffer, and nothing fills it again. */
    predicate Valid()
      reads this
    {
      failed ==> bytes == []
    }

    /**
     The state is one the log explains, and as long as nothing failed what was drained, what is
     queued and what waits are the accepted observations, in order.
     */
    ghost predicate InOrder()
      reads this
    {
      && CoreOk(Now(), log)
      && (!failed ==> drained + Values(queue) + waiting == CodexClient.Observations(log))
    }

    constructor (env: Env)
      ensures Valid() && Snapshot() == Spawn() && this.env == env && log == [] && waiting == [] && InOrder()
    {
      this.env := env;
      bytes, phase, queue, queuedBytes := [], Spawned, [], 0;
      requests, abandonedRequests, serverRequests := map[], map[], {};
      threadCount, turnCount, terminalCount, shutdownCount, failed := 0, 0, 0, 0, false;
      routed, consumed, log, drained, waiting := [], [], [], [], [];
      new;
      SpawnedOk();
    }

    method RaiseFault()
      modifies `failed, `phase, `bytes, `queue, `queuedBytes
      ensures bytes == [] && Now() == Fail(old(Now()))
      ensures old(InOrder()) ==> InOrder()
    {
      ghost var s := Now();
      failed := true;
      phase := Faulted;
      bytes := [];
      queue := [];
      queuedBytes := 0;
      hide CoreOk;
      if CoreOk(s, log) { FailOnly(s, log); }
    }

    method Consumed(f: Frame)
      modifies `consumed
      ensures consumed == old(consumed) + [f] && (old(InOrder()) ==> InOrder())
    {
      hide CoreOk;
      if CoreOk(Now(), log) { CodexTheorems.ConsumedOk(Now(), log, f); }
      consumed := consumed + [f];
    }

    method EnqueueObservation(size: nat, seen: Observation)
      modifies `queue, `queuedBytes, `waiting
      ensures Now() == Enqueue(old(Now()), size, seen) && waiting == []
      ensures old(InOrder()) && old(waiting) == [seen] && Room(old(Now()), size) ==> InOrder()
    {
      hide CoreOk, CodexClient.Observations, Room;
      if CoreOk(Now(), log) && Room(Now(), size) { EnqueueKeeps(Now(), log, size, seen); }
      QueuedOneMore(queue, Queued(size, seen));
      queue := queue + [Queued(size, seen)];
      queuedBytes := queuedBytes + size;
      waiting := [];
    }

    // Outbound ---------------------------------------------------------------------------------------

    method Request(id: int, operation: Operation) returns (thrown: Option<Code>)
      requires Valid()
      modifies `phase, `requests, `threadCount, `turnCount, `shutdownCount, `failed, `bytes, `queue, `queuedBytes, `log
      ensures Valid() && Snapshot() == CodexClient.Land(old(bytes), Ask(old(Now()), id, operation))
      ensures thrown == match Ask(old(Now()), id, operation) case Done(_) => None case Thrown(_, code) => Some(code)
      ensures log == old(log) + if thrown.None? then [CodexClient.Issued(id, operation)] else []
      ensures old(InOrder()) && NeverUsed(old(log), id) && id !in old(abandonedRequests) ==> InOrder()
    {
      hide Enter, CoreOk, CodexClient.Observations;
      ghost var before := Now();
      thrown := Admit(id, operation);
      if thrown.None? {
        log := log + [CodexClient.Issued(id, operation)];
        SilentEntry(old(log), CodexClient.Issued(id, operation));
      }
      if CoreOk(before, old(log)) && NeverUsed(old(log), id) && id !in before.abandoned {
        AskKeeps(before, old(log), id, operation);
      }
      CodexTheorems.AskEffect(before, id, operation);
    }

    /** The checks of `request` and the phase it leads to. */
    method Admit(id: int, operation: Operation) returns (thrown: Option<Code>)
      requires Valid()
      modifies `phase, `requests, `threadCount, `turnCount, `shutdownCount, `failed, `bytes, `queue, `queuedBytes
      ensures Valid() && Snapshot() == CodexClient.Land(old(bytes), Ask(old(Now()), id, operation))
      ensures thrown == match Ask(old(Now()), id, operation) case Done(_) => None case Thrown(_, code) => Some(code)
    {
      hide Enter, CoreOk;
      if failed {
        return Some(Violation);
      }
      if !ValidId(id) {
        RaiseFault();
        return Some(Violation);
      }
      if operation.Unknown? {
        RaiseFault();
        return Some(Unsupported);
      }
      if id in requests || id in serverRequests || |requests| >= OUTSTANDING {
        RaiseFault();
        return Some(Violation);
      }
      var refused := EnterPhase(operation);
      if refused.Some? {
        return refused;
      }
      requests := requests[id := operation];
      return None;
    }

    method EnterPhase(operation: Operation) returns (thrown: Option<Code>)
      modifies `phase, `threadCount, `turnCount, `shutdownCount, `failed, `bytes, `queue, `queuedBytes
      ensures match Enter(old(Now()), operation)
              case Done(next) => thrown == None && Snapshot() == Core(old(bytes), next)
              case Thrown(at, code) => thrown == Some(code) && Snapshot() == Core([], at)
    {
      thrown := None;
      if operation == Initialize && phase == Spawned {
        phase := Initializing;
      } else if operation == ThreadStart && phase == Initialized && threadCount == 0 {
        threadCount := threadCount + 1;
        phase := ThreadStarting;
      } else if operation == TurnStart && phase == ThreadReady && turnCount == 0 {
        turnCount := turnCount + 1;
        phase := TurnStarting;
      } else if operation == TurnInterrupt && phase in {TurnStarting, TurnActive} {
        phase := Interrupting;
      } else if operation != Shutdown || phase != CleaningUp {
        RaiseFault();
        return Some(Violation);
      } else {
        shutdownCount := shutdownCount + 1;
        if shutdownCount != 1 {
          RaiseFault();
          return Some(Violation);
        }
      }
    }

    method Notification() returns (thrown: Option<Code>)
      requires Valid()
      modifies `phase, `failed, `bytes, `queue, `queuedBytes
      ensures Valid() && Snapshot() == CodexClient.Land(old(bytes), Notify(old(Now())))
      ensures thrown.Some? <==> Notify(old(Now())).Thrown?
      ensures old(InOrder()) ==> InOrder()
    {
      hide CoreOk, CodexClient.Observations;
      if CoreOk(Now(), log) { NotifyKeeps(Now(), log); }
      if failed {
        return Some(Violation);
      }
      if phase != InitializeReplied {
        RaiseFault();
        return Some(Violation);
      }
      phase := Initialized;
      return None;
    }

    method BeginCleanup() returns (thrown: Option<Code>)
      requires Valid()
      modifies `phase, `requests, `abandonedRequests, `serverRequests
      ensures Valid() && Snapshot() == CodexClient.Land(old(bytes), CodexCore.BeginCleanup(old(Now())))
      ensures thrown.Some? <==> CodexCore.BeginCleanup(old(Now())).Thrown?
      ensures thrown.Some? <==> old(failed)
      ensures thrown.Some? ==> Snapshot() == old(Snapshot())
      ensures old(InOrder()) ==> InOrder()
    {
      hide CoreOk, CodexClient.Observations;
      if CoreOk(Now(), log) { CleanupKeeps(Now(), log); }
      if failed {
        return Some(Violation);
      }
      abandonedRequests := Gather(abandonedRequests, requests);
      requests := map[];
      serverRequests := {};
      phase := CleaningUp;
      return None;
    }

    method ResolveServerRequest(id: int) returns (thrown: Option<Code>)
      requires Valid()
      modifies `serverRequests, `phase, `failed, `bytes, `queue, `queuedBytes
      ensures Valid() && Snapshot() == CodexClient.Land(old(bytes), CodexCore.ResolveServerRequest(old(Now()), id))
      ensures thrown.Some? <==> CodexCore.ResolveServerRequest(old(Now()), id).Thrown?
      ensures old(InOrder()) ==> InOrder()
    {
      hide CoreOk, CodexClient.Observations;
      if CoreOk(Now(), log) { ResolveKeeps(Now(), log, id); }
      if failed {
        return Some(Violation);
      }
      if !ValidId(id) || id !in serverRequests {
        RaiseFault();
        return Some(Violation);
      }
      serverRequests := serverRequests - {id};
      return None;
    }

    // Inbound ----------------------------------------------------------------------------------------

    method ReduceResponse(f: Frame) returns (thrown: Option<Code>, seen: Observation)
      requires f.body.Response?
      modifies `phase, `requests, `failed, `bytes, `queue, `queuedBytes
      ensures match Reduce(old(Now()), f)
              case Done(reduced) => thrown == None && seen == reduced.1 && Snapshot() == Core(old(bytes), reduced.0)
              case Thrown(at, code) => thrown == Some(code) && Snapshot() == Core([], at.0)
    {
      var id, isResult := f.body.id, f.body.isResult;
      if !ValidId(id) || id !in requests {
        RaiseFault();
        return Some(Violation), Asks;
      }
      var operation := requests[id];
      requests := requests - {id};
      thrown, seen := None, Answer(operation, isResult);
      if !isResult && operation in {Initialize, ThreadStart, TurnStart} {
        RaiseFault();
        return Some(Violation), seen;
      }
      if operation == Initialize {
        if phase != Initializing {
          RaiseFault();
          return Some(Violation), seen;
        }
        phase := InitializeReplied;
      } else if operation == ThreadStart {
        if phase != ThreadStarting {
          RaiseFault();
          return Some(Violation), seen;
        }
        phase := ThreadReady;
      }
    }

    method ReduceNotification(f: Frame) returns (thrown: Option<Code>, seen: Observation)
      requires f.body.Notification?
      modifies `phase, `terminalCount, `failed, `bytes, `queue, `queuedBytes
      ensures match Reduce(old(Now()), f)
              case Done(reduced) => thrown == None && seen == reduced.1 && Snapshot() == Core(old(bytes), reduced.0)
              case Thrown(at, code) => thrown == Some(code) && Snapshot() == Core([], at.0)
    {
      var lifecycle := f.body.lifecycle;
      thrown, seen := None, Note(lifecycle);
      if lifecycle == TurnStarted {
        if phase != TurnStarting {
          RaiseFault();
          return Some(Violation), seen;
        }
        phase := TurnActive;
      } else if lifecycle == Activity {
        if phase != TurnActive {
          RaiseFault();
          return Some(Violation), seen;
        }
      } else {
        if phase !in {TurnActive, Interrupting} {
          RaiseFault();
          return Some(Violation), seen;
        }
        terminalCount := terminalCount + 1;
        if terminalCount != 1 {
          RaiseFault();
          return Some(Violation), seen;
        }
        phase := TurnTerminalObserved;
      }
    }

    /**
     `reduce`: a frame is accepted as one that continues the log, in a turn that goes on as it may, or
     it is refused, and then the core has failed.
     */
    method ReduceFrame(f: Frame) returns (thrown: Option<Code>, seen: Observation)
      modifies `phase, `requests, `serverRequests, `terminalCount, `failed, `bytes, `queue, `queuedBytes, `log, `waiting
      ensures match Reduce(old(Now()), f)
              case Done(reduced) => thrown == None && seen == reduced.1 && Snapshot() == Core(old(bytes), reduced.0)
              case Thrown(at, code) => thrown == Some(code) && Snapshot() == Core([], at.0)
      ensures log == old(log) + if thrown.None? then [CodexClient.EntryOf(f, seen)] else []
      ensures waiting == (if thrown.None? then [seen] else old(waiting)) && (thrown.None? ==> failed == old(failed))
      ensures old(InOrder()) && old(waiting) == [] ==> InOrder()
    {
      hide CoreOk, CodexClient.Observations, Reduce;
      ghost var s := Now();
      thrown, seen := Classify(f);
      if thrown.None? {
        log, waiting := log + [CodexClient.EntryOf(f, seen)], [seen];
        SilentEntry(old(log), CodexClient.EntryOf(f, seen));
      }
      if CoreOk(s, old(log)) { ReduceKeeps(s, old(log), f); }
      CodexFraming.ReduceNeverFails(s, f);
    }

    method Classify(f: Frame) returns (thrown: Option<Code>, seen: Observation)
      modifies `phase, `requests, `serverRequests, `terminalCount, `failed, `bytes, `queue, `queuedBytes
      ensures match Reduce(old(Now()), f)
              case Done(reduced) => thrown == None && seen == reduced.1 && Snapshot() == Core(old(bytes), reduced.0)
              case Thrown(at, code) => thrown == Some(code) && Snapshot() == Core([], at.0)
    {
      hide CoreOk;
      if f.body.Response? {
        thrown, seen := ReduceResponse(f);
      } else if f.body.Notification? {
        thrown, seen := ReduceNotification(f);
      } else {
        thrown, seen := None, Asks;
        var id := f.body.id;
        if phase !in {TurnActive, Interrupting} || !ValidId(id) || id in serverRequests || id in requests
           || |serverRequests| >= OUTSTANDING || !f.body.authority {
          RaiseFault();
          return Some(Violation), Asks;
        }
        serverRequests := serverRequests + {id};
      }
    }

    /** `decode` up to its first wait: a line is refused, dropped, or one more observation waits. */
    method BeginDecode(line: seq<Byte>, size: nat) returns (thrown: Option<Code>, reduced: Option<(Frame, Observation)>)
      requires Valid() && !failed
      modifies `phase, `requests, `abandonedRequests, `serverRequests, `terminalCount, `failed, `bytes, `queue,
               `queuedBytes, `log, `waiting
      ensures match Begin(env, old(Now()), line, size)
              case Stopped(at, code) => thrown == Some(code) && Snapshot() == Core([], at)
              case Dropped(next) => thrown == None && reduced == None && Snapshot() == Core(old(bytes), next)
              case Reduced(next, f, seen) =>
                && thrown == None && reduced == Some((f, seen))
                && Snapshot() == Core(old(bytes), next)
      ensures Valid() && (thrown.None? ==> !failed)
      ensures old(log) <= log && (thrown.None? && reduced.None? ==> log == old(log) && waiting == old(waiting))
      ensures reduced.Some? ==> waiting == [reduced.value.1]
      ensures old(InOrder()) && old(waiting) == [] ==> InOrder() && (reduced.Some? ==> Room(Now(), size))
    {
      hide Reduce, CoreOk, CodexClient.Observations;
      ghost var s := Now();
      if CoreOk(s, log) { BeginKeeps(env, s, log, line, size); }
      thrown, reduced := None, None;
      var candidate := env.parse(line);
      if candidate.None? {
        RaiseFault();
        return Some(Violation), None;
      }
      var validated := env.validate(line, Expected(Now(), candidate.value));
      if validated.None? {
        RaiseFault();
        return Some(Violation), None;
      }
      var f := validated.value;
      if !f.body.Response? && !env.accepts(f.body.name) {
        RaiseFault();
        return Some(Unsupported), None;
      }
      if !ContentFits(f) {
        RaiseFault();
        return Some(Violation), None;
      }
      if f.body.Response? && f.body.id in abandonedRequests {
        abandonedRequests := abandonedRequests - {f.body.id};
        return None, None;
      }
      if |queue| >= QUEUED_COUNT || queuedBytes + size > QUEUED_BYTES {
        RaiseFault();
        return Some(QueueOverflow), None;
      }
      var refused, seen := ReduceFrame(f);
      if refused.Some? {
        return refused, None;
      }
      return None, Some((f, seen));
    }

    method Route(f: Frame)
      modifies `routed
      ensures routed == old(routed) + [f] && (old(InOrder()) ==> InOrder())
    {
      hide CoreOk, CodexClient.Observations;
      if CoreOk(Now(), log) { CodexTheorems.RoutedOk(Now(), log, f); }
      routed := routed + [f];
    }

    /** `decode`, with nothing else in between: one more observation is queued, or none and the core has failed. */
    method DecodeLine(line: seq<Byte>, size: nat) returns (thrown: Option<Code>)
      requires Valid() && !failed
      modifies `phase, `requests, `abandonedRequests, `serverRequests, `terminalCount, `failed, `bytes, `queue,
               `queuedBytes, `routed, `consumed, `log, `waiting
      ensures match Decode(env, old(Now()), line, size)
              case Done(next) => thrown == None && Snapshot() == Core(old(bytes), next)
              case Thrown(at, code) => thrown == Some(code) && Snapshot() == Core([], at)
      ensures old(log) <= log && (old(waiting) == [] && thrown.None? ==> waiting == [])
      ensures old(InOrder()) && old(waiting) == [] ==> InOrder()
    {
      hide Begin, InOrder;
      var refused, reduced := BeginDecode(line, size);
      if refused.Some? || reduced.None? {
        return refused;
      }
      var (f, seen) := reduced.value;
      if HasContent(f) {
        var accepted := env.route(routed, f);
        Route(f);
        if !accepted {
          RaiseFault();
          return Some(ContentBackpressure);
        }
      }
      var accepted := env.consume(consumed, f);
      Consumed(f);
      if !accepted {
        RaiseFault();
        return Some(Violation);
      }
      EnqueueObservation(size, seen);
      return None;
    }

    /** The guard of `push`, the new bytes, and the limit on a line that has not ended. */
    method Receive(chunk: seq<Byte>) returns (thrown: Option<Code>)
      requires Valid()
      modifies `bytes, `phase, `failed, `queue, `queuedBytes
      ensures Valid() && (old(InOrder()) ==> InOrder())
      ensures if old(failed) then thrown == Some(Violation) && Snapshot() == old(Snapshot())
              else if chunk != [] && |old(bytes) + chunk| > INCOMPLETE_BYTES && NEWLINE !in old(bytes) + chunk
              then thrown == Some(FrameTooLarge) && Snapshot() == Core([], Fail(old(Now())))
              else thrown == None && Snapshot() == Core(old(bytes) + chunk, old(Now()))
    {
      hide CoreOk, CodexClient.Observations;
      if failed {
        return Some(Violation);
      }
      if |chunk| == 0 {
        return None;
      }
      bytes := bytes + chunk;
      if |bytes| > INCOMPLETE_BYTES && NEWLINE !in bytes {
        RaiseFault();
        return Some(FrameTooLarge);
      }
      return None;
    }

    /** The next line of the loop of `push`, when there is one. */
    method TakeLine() returns (thrown: Option<Code>, line: Option<seq<Byte>>)
      requires Valid()
      modifies `bytes, `phase, `failed, `queue, `queuedBytes
      ensures Valid() && (old(InOrder()) ==> InOrder())
      ensures match LineEnd(old(bytes))
              case None => thrown == None && line == None && Snapshot() == old(Snapshot())
              case Some(n) =>
                if n + 1 > FRAME_BYTES then thrown == Some(FrameTooLarge) && Snapshot() == Core([], Fail(old(Now())))
                else if n == 0 then thrown == Some(Violation) && Snapshot() == Core([], Fail(old(Now())))
                else && thrown == None && line == Some(old(bytes)[..n])
                     && Snapshot() == Core(old(bytes)[n + 1..], old(Now()))
    {
      hide CoreOk, CodexClient.Observations;
      thrown, line := None, None;
      var newline := LineEnd(bytes);
      if newline.None? {
        return;
      }
      var size := newline.value + 1;
      if size > FRAME_BYTES {
        RaiseFault();
        return Some(FrameTooLarge), None;
      }
      line := Some(bytes[..newline.value]);
      bytes := bytes[size..];
      if |line.value| == 0 {
        RaiseFault();
        return Some(Violation), None;
      }
    }

    /** One turn of the loop of `push`: a line is consumed, or there is none, or it is refused. */
    method ConsumeLine() returns (thrown: Option<Code>, more: bool)
      requires Valid() && !failed
      modifies `phase, `requests, `abandonedRequests, `serverRequests, `terminalCount, `failed, `bytes, `queue,
               `queuedBytes, `routed, `consumed, `log, `waiting
      ensures Valid()
      ensures if more then !failed && |bytes| < |old(bytes)|
                && Consume(env, Snapshot()) == Consume(env, old(Snapshot()))
              else match Consume(env, old(Snapshot()))
                   case Done(next) => thrown == None && Snapshot() == next
                   case Thrown(at, code) => thrown == Some(code) && Snapshot() == at
      ensures old(log) <= log && (old(waiting) == [] && (more || thrown.None?) ==> waiting == [])
      ensures old(InOrder()) && old(waiting) == [] ==> InOrder()
    {
      hide Decode, LineEnd, InOrder, Fail;
      var refused, line := TakeLine();
      if refused.Some? || line.None? {
        return refused, false;
      }
      NeverFails(env, Now(), line.value, |line.value| + 1);
      refused := DecodeLine(line.value, |line.value| + 1);
      return refused, refused.None?;
    }

    /** The loop of `push`. */
    method ConsumeLines() returns (thrown: Option<Code>)
      requires Valid() && !failed
      modifies `phase, `requests, `abandonedRequests, `serverRequests, `terminalCount, `failed, `bytes, `queue,
               `queuedBytes, `routed, `consumed, `log, `waiting
      ensures Valid()
      ensures match Consume(env, old(Snapshot()))
              case Done(next) => thrown == None && Snapshot() == next
              case Thrown(at, code) => thrown == Some(code) && Snapshot() == at
      ensures old(log) <= log && (old(waiting) == [] && thrown.None? ==> waiting == [])
      ensures old(InOrder()) && old(waiting) == [] ==> InOrder()
    {
      hide Consume, InOrder;
      var more;
      thrown, more := ConsumeLine();
      while more
        invariant Valid() && old(log) <= log
        invariant old(waiting) == [] && (more || thrown.None?) ==> waiting == []
        invariant old(InOrder()) && old(waiting) == [] ==> InOrder()
        invariant if more then !failed && Consume(env, Snapshot()) == Consume(env, old(Snapshot()))
                  else match Consume(env, old(Snapshot()))
                       case Done(next) => thrown == None && Snapshot() == next
                       case Thrown(at, code) => thrown == Some(code) && Snapshot() == at
        decreases more, |bytes|
      {
        thrown, more := ConsumeLine();
      }
    }

    /**
     `push` does what `Push` says. When it accepts the chunk, every observation it accepted is
     queued, in order.
     */
    method PushBytes(chunk: seq<Byte>) returns (thrown: Option<Code>)
      requires Valid()
      modifies `phase, `requests, `abandonedRequests, `serverRequests, `terminalCount, `failed, `bytes, `queue,
               `queuedBytes, `routed, `consumed, `log, `waiting
      ensures Valid()
      ensures match Push(env, old(Snapshot()), chunk)
              case Done(next) => thrown == None && Snapshot() == next
              case Thrown(at, code) => thrown == Some(code) && Snapshot() == at
      ensures old(log) <= log && (old(waiting) == [] && thrown.None? ==> waiting == [])
      ensures old(InOrder()) && old(waiting) == [] ==> InOrder()
    {
      hide Consume, InOrder;
      thrown := Receive(chunk);
      if thrown.None? && |chunk| > 0 {
        thrown := ConsumeLines();
      }
    }

    method EndInput() returns (thrown: Option<Code>)
      requires Valid()
      modifies `bytes, `phase, `failed, `queue, `queuedBytes
      ensures Valid()
      ensures match End(old(Snapshot()))
              case Done(next) => thrown == None && Snapshot() == next
              case Thrown(at, code) => thrown == Some(code) && Snapshot() == at
      ensures old(InOrder()) ==> InOrder()
    {
      hide CoreOk, CodexClient.Observations;
      if failed {
        return Some(Violation);
      }
      if |bytes| > 0 {
        RaiseFault();
        return Some(Violation);
      }
      return None;
    }

    /** `drain`: the first observations leave the queue, in order, and none is lost or told twice. */
    method DrainQueue(maximum: nat) returns (items: seq<Observation>)
      requires maximum >= 1
      modifies `queue, `queuedBytes, `drained
      ensures (Now(), items) == Drain(old(Now()), maximum)
      ensures drained == old(drained) + items && (old(InOrder()) ==> InOrder())
    {
      hide CoreOk, CodexClient.Observations, Values, TotalBytes;
      var n := if |queue| < maximum then |queue| else maximum;
      ghost var s := Now();
      var removed := queue[..n];
      queue := queue[n..];
      var total;
      total, items := Unload(removed);
      queuedBytes := queuedBytes - total;
      drained := drained + items;
      DrainSplits(s.queue, n, old(drained), waiting);
      if CoreOk(s, log) { DrainedOk(s, log, n); }
    }
  }

  /** Requests are numbered anew. */
  predicate NeverUsed(log: seq<CodexClient.Entry>, id: int) {
    forall e :: e in log && (e.Issued? || e.Answered?) ==> e.id != id
  }

  lemma QueuedOneMore(queue: seq<Queued>, q: Queued)
    ensures Values(queue + [q]) == Values(queue) + [q.value]
  {
  }

  lemma {:induction false} TotalsAdd(a: seq<Queued>, b: seq<Queued>)
    ensures TotalBytes(a + b) == TotalBytes(a) + TotalBytes(b)
    ensures Values(a + b) == Values(a) + Values(b)
  {
    if b == [] {
      assert a + b == a;
    } else {
      TotalsAdd(a, b[..|b| - 1]);
      assert (a + b)[..|a + b| - 1] == a + b[..|b| - 1];
    }
  }

  lemma DrainSplits(queue: seq<Queued>, n: nat, before: seq<Observation>, after: seq<Observation>)
    requires n <= |queue|
    ensures (before + Values(queue[..n])) + Values(queue[n..]) + after == before + Values(queue) + after
  {
    TotalsAdd(queue[..n], queue[n..]);
    assert queue[..n] + queue[n..] == queue;
    hide Values, TotalBytes;
    Regroup(before, Values(queue[..n]), Values(queue[n..]));
  }

  lemma Regroup(a: seq<Observation>, b: seq<Observation>, c: seq<Observation>)
    ensures (a + b) + c == a + (b + c)
  {
  }

  lemma DrainedOk(s: State, log: seq<CodexClient.Entry>, n: nat)
    requires CoreOk(s, log) && n <= |s.queue|
    ensures CoreOk(s.(queue := s.queue[n..], queuedBytes := s.queuedBytes - TotalBytes(s.queue[..n])), log)
  {
    RequestsIgnoreQueue(s, log, s.queue[n..], s.queuedBytes - TotalBytes(s.queue[..n]));
    QueueDrained(s, n);
    hide LogOk, TraceFits, RequestsOk, QueueOk, CodexClient.Observations, CodexClient.Notes, TotalBytes, Values;
  }

  lemma RequestsIgnoreQueue(s: State, log: seq<CodexClient.Entry>, queue: seq<Queued>, bytes: int)
    requires RequestsOk(s, log)
    ensures RequestsOk(s.(queue := queue, queuedBytes := bytes), log)
  {
    hide IsAnswered;
  }

  lemma QueueDrained(s: State, n: nat)
    requires QueueOk(s) && n <= |s.queue|
    ensures QueueOk(s.(queue := s.queue[n..], queuedBytes := s.queuedBytes - TotalBytes(s.queue[..n])))
  {
    TotalsAdd(s.queue[..n], s.queue[n..]);
    assert s.queue[..n] + s.queue[n..] == s.queue;
    hide TotalBytes, Values;
  }

  lemma NeverFails(env: Env, s: State, line: seq<Byte>, size: nat)
    ensures match Decode(env, s, line, size)
            case Done(next) => next.failed == s.failed
            case Thrown(at, _) => at.failed
  {
    CodexFraming.DecodeNeverFails(env, s, line, size);
  }

  /** What an order the log explains means for a caller. */
  lemma OrderMeans(core: ProtocolCore)
    requires core.InOrder()
    ensures |core.requests| <= 2 && LogOk(core.log) && TurnTrace(CodexClient.Notes(CodexClient.Observations(core.log)))
    ensures |core.queue| <= QUEUED_COUNT && core.queuedBytes == TotalBytes(core.queue) <= QUEUED_BYTES
    ensures !core.failed ==> core.drained <= CodexClient.Observations(core.log)
  {
    hide LogOk, IsAnswered, CodexClient.Observations, CodexClient.Notes, TurnTrace, Going, TotalBytes, Values;
    assert forall a: seq<Observation>, b: seq<Observation>, c: seq<Observation> :: a <= a + b + c;
    TurnOf(core.phase, CodexClient.Notes(CodexClient.Observations(core.log)));
  }

  lemma TurnOf(phase: Phase, n: seq<Lifecycle>)
    requires TraceFits(phase, n)
    ensures TurnTrace(n)
  {
  }

  /** What decoding does with the next line, once it was taken out of the buffer. */
  function Decoded(env: Env, s: CodexClient.System, line: seq<Byte>, size: nat): CodexClient.System {
    match Begin(env, s.client.core.state, line, size)
    case Stopped(at, _) => CodexClient.Stop(s, at)
    case Dropped(next) => s.(client := s.client.(core := Core(s.client.core.bytes, next)))
    case Reduced(next, f, seen) => CodexClient.AfterReduce(s, Core(s.client.core.bytes, next), f, seen, size)
  }

  lemma FrameIsDecoded(env: Env, s: CodexClient.System)
    ensures var core := s.client.core;
            var t := CodexClient.TakeFrame(env, s);
            match LineEnd(core.bytes)
            case None => t == CodexClient.BeginDraining(s)
            case Some(n) =>
              if n + 1 > FRAME_BYTES || n == 0 then t == CodexClient.Stop(s, Fail(core.state))
              else
                var taken := s.(client := s.client.(core := core.(bytes := core.bytes[n + 1..])));
                t == Decoded(env, taken, core.bytes[..n], n + 1)
  {
    hide Begin, LineEnd, CodexCore.Drain, CodexClient.Conclude;
  }

  /** The effects of the longer calls, where their place in the push allows them. */
  lemma EffectsAre(env: Env, s: CodexClient.System, id: int, sent: bool, broken: Option<nat>)
    ensures s.flight.Framing? ==> CodexClient.Effect(env, s, CodexClient.NextFrame) == CodexClient.TakeFrame(env, s)
    ensures id in s.sends ==>
              CodexClient.Effect(env, s, CodexClient.SendFailed(id)) == CodexClient.AfterSendFailure(s, id)
    ensures s.flight.Sending? ==>
              CodexClient.Effect(env, s, CodexClient.Denied(sent)) == CodexClient.AfterDenial(s, sent)
    ensures s.flight.Denying? && s.client.authority == [] ==>
              CodexClient.Effect(env, s, CodexClient.Deliver(broken)) == CodexClient.AfterDelivery(s, s.flight.inHand,
                  broken)
  {
    hide CodexClient.TakeFrame, CodexClient.AfterSendFailure, CodexClient.AfterDenial, CodexClient.AfterDelivery;
  }

  /**
   The client. Its calls are cut where the program waits: a request up to its write and what
   follows the write, the lines a push decodes before their content is routed and after, one
   denial before its write and after, and the delivery. Each call is one step of the machine of
   `CodexClient`, whatever came before it.
   */
  class ProtocolClient {
    const core: ProtocolCore
    var pending: map<int, Operation>
    var authorityRequests: seq<int>
    var requestId: nat
    var sequence: nat
    var failed: bool
    /** The calls so far, and what came of their waits. */
    ghost var trace: seq<CodexClient.Action>

    function Snapshot(): CodexClient.Client
      reads this, core
    {
      CodexClient.Client(core.Snapshot(), pending, authorityRequests, requestId, sequence, failed)
    }

    /** The machine after the calls so far. */
    ghost function Here(): CodexClient.System
      reads this
    {
      CodexClient.Run(core.env, trace)
    }

    ghost predicate Valid()
      reads this, core
    {
      core.Valid() && Here().client == Snapshot()
    }

    /**
     The call was this step. So at most two requests are outstanding, a failed client waits for
     none, every request made is pending or was settled once, and nobody waits for an abandoned one.
     */
    twostate predicate Took(a: CodexClient.Action)
      reads this, core
    {
      && trace == old(trace) + [a] && Valid() && Here() == CodexClient.Step(core.env, old(Here()), a)
      && |core.requests| <= 2 && (failed ==> pending == map[]) && CodexTheorems.SettledOk(Here())
      && forall id :: id in core.abandonedRequests ==> id !in pending
    }

    constructor (env: Env)
      ensures fresh(core) && Valid() && core.env == env && trace == []
    {
      core := new ProtocolCore(env);
      pending, authorityRequests, requestId, sequence, failed := map[], [], 0, 0, false;
      trace := [];
    }

    method FailWith()
      modifies `failed, `pending, `authorityRequests
      ensures Snapshot() == CodexClient.FailClient(old(Snapshot()))
    {
      if failed {
        return;
      }
      failed := true;
      pending := map[];
      authorityRequests := [];
    }

    /** Gives nothing when it refuses: by its own failure, or by a fault of the core. */
    method Request(operation: Operation) returns (id: Option<int>)
      requires Valid()
      modifies this, core
      ensures Took(CodexClient.Action.Request(operation))
      ensures id.Some? <==> !old(failed) && Ask(old(core.Now()), old(requestId) + 1, operation).Done?
      ensures id.Some? ==> Here().log == old(Here()).log + [CodexClient.Issued(id.value, operation)]
    {
      hide Ask, CodexClient.Run, CodexClient.Step, ProtocolCore.InOrder, CodexTheorems.SettledOk;
      id := None;
      if !failed {
        requestId := requestId + 1;
        var thrown := core.Request(requestId, operation);
        if thrown.None? {
          pending := pending[requestId := operation];
          id := Some(requestId);
        }
      }
      trace := trace + [CodexClient.Action.Request(operation)];
      Taken(core.env, old(trace), CodexClient.Action.Request(operation));
    }

    /** The write of a request is over. */
    method SendDone(id: int)
      requires Valid()
      modifies `trace
      ensures Took(CodexClient.SendDone(id))
    {
      hide CodexClient.Run, CodexClient.Step, CodexTheorems.SettledOk;
      trace := trace + [CodexClient.SendDone(id)];
      Taken(core.env, old(trace), CodexClient.SendDone(id));
    }

    method SendFailed(id: int)
      requires Valid() && id in Here().sends
      modifies this
      ensures Took(CodexClient.SendFailed(id)) && failed
    {
      hide CodexClient.Run, CodexClient.Step, CodexClient.Effect, CodexTheorems.SettledOk;
      EffectsAre(core.env, Here(), id, false, None);
      pending := pending - {id};
      FailWith();
      trace := trace + [CodexClient.SendFailed(id)];
      Taken(core.env, old(trace), CodexClient.SendFailed(id));
    }

    method Initialized()
      requires Valid()
      modifies this, core
      ensures Took(CodexClient.Action.Initialized)
    {
      hide Notify, CodexClient.Run, CodexClient.Step, ProtocolCore.InOrder, CodexTheorems.SettledOk;
      if !failed {
        var _ := core.Notification();
      }
      trace := trace + [CodexClient.Action.Initialized];
      Taken(core.env, old(trace), CodexClient.Action.Initialized);
    }

    method BeginCleanup()
      requires Valid()
      modifies this, core
      ensures Took(CodexClient.Cleanup) && (old(!failed && !core.failed) ==> pending == map[])
    {
      hide CodexCore.BeginCleanup, CodexClient.Run, CodexClient.Step, ProtocolCore.InOrder, CodexTheorems.SettledOk;
      if !failed {
        var thrown := core.BeginCleanup();
        if thrown.None? {
          pending := map[];
          authorityRequests := [];
        }
      }
      trace := trace + [CodexClient.Cleanup];
      Taken(core.env, old(trace), CodexClient.Cleanup);
    }

    method EndInput()
      requires Valid() && Here().flight.Idle?
      modifies this, core
      ensures Took(CodexClient.Finish)
    {
      hide CodexClient.Run, CodexClient.Step, ProtocolCore.InOrder, CodexTheorems.SettledOk;
      var thrown := core.EndInput();
      if thrown.Some? || pending != map[] || authorityRequests != [] {
        FailWith();
      }
      trace := trace + [CodexClient.Finish];
      Taken(core.env, old(trace), CodexClient.Finish);
    }

    /** The write of `initialized` failed, or the content did not drain in time. */
    method Abort()
      requires Valid()
      modifies this
      ensures Took(CodexClient.Action.Fail) && failed
    {
      hide CodexClient.Run, CodexClient.Step, CodexTheorems.SettledOk;
      FailWith();
      trace := trace + [CodexClient.Action.Fail];
      Taken(core.env, old(trace), CodexClient.Action.Fail);
    }

    // The push ---------------------------------------------------------------------------------------

    /** The beginning of `push`: there is a loop to go through, or it is refused, or it only drains. */
    method BeginPush(chunk: seq<Byte>) returns (framing: bool, inHand: seq<Observation>)
      requires Valid() && Here().flight.Idle?
      modifies this, core
      ensures Took(CodexClient.Action.Push(chunk)) && (framing <==> Here().flight.Framing?)
      ensures Here().flight.Denying? ==> Here().flight.inHand == inHand
    {
      hide CodexCore.Drain, CodexClient.Run, CodexClient.Step, ProtocolCore.InOrder, CodexTheorems.SettledOk;
      assert |chunk| == 0 ==> core.bytes + chunk == core.bytes;
      framing, inHand := false, [];
      if !failed {
        var thrown := core.Receive(chunk);
        if thrown.Some? {
          FailWith();
        } else if |chunk| == 0 {
          inHand := Drain();
        } else {
          framing := true;
        }
      }
      trace := trace + [CodexClient.Action.Push(chunk)];
      Taken(core.env, old(trace), CodexClient.Action.Push(chunk));
    }

    /** The push has decoded its lines and drains the queue. */
    method Drain() returns (items: seq<Observation>)
      modifies core
      ensures Snapshot()
              == old(Snapshot()).(core := Core(old(core.bytes), CodexCore.Drain(old(core.Now()), QUEUED_COUNT).0))
      ensures items == CodexCore.Drain(old(core.Now()), QUEUED_COUNT).1 && (old(core.Valid()) ==> core.Valid())
    {
      items := core.DrainQueue(QUEUED_COUNT);
    }

    /** `accept`: true unless it throws. */
    method Accept(f: Frame) returns (accepted: bool)
      modifies `pending, `authorityRequests
      ensures match CodexClient.Accept(old(Snapshot()), f.body)
              case Some(c) => accepted && Snapshot() == c
              case None => !accepted && Snapshot() == old(Snapshot())
    {
      match f.body {
        case ServerRequest(id, _, _) =>
          authorityRequests := authorityRequests + [id];
        case Notification(_, _) =>
        case Response(id, _) =>
          if id !in pending {
            return false;
          }
          pending := pending - {id};
      }
      return true;
    }

    /**
     The end of decoding, after the wait for the content if there was one. It looks at neither
     failure: an accepted frame is queued, a response nobody waits for fails both sides.
     */
    method Conclude(f: Frame, seen: Observation, size: nat) returns (stopped: bool)
      modifies `pending, `authorityRequests, `failed, core
      ensures forall s: CodexClient.System {:trigger CodexClient.Conclude(s, f, seen, size)} ::
                s.client == old(Snapshot()) ==>
                var t := CodexClient.Conclude(s, f, seen, size);
                Snapshot() == t.client && t.flight == if stopped then CodexClient.Idle else CodexClient.Framing
      ensures old(core.Valid()) ==> core.Valid()
    {
      hide ProtocolCore.InOrder;
      var accepted := Accept(f);
      core.Consumed(f);
      if !accepted {
        core.RaiseFault();
        FailWith();
        return true;
      }
      core.EnqueueObservation(size, seen);
      return false;
    }

    /** A line that was taken out of the buffer, up to the first wait of its decoding. */
    method DecodeNext(line: seq<Byte>, ghost s: CodexClient.System) returns (flight: CodexClient.Flight)
      requires core.Valid() && !core.failed && s.client == Snapshot() && s.flight.Framing?
      modifies `pending, `authorityRequests, `failed, core
      ensures var t := Decoded(core.env, s, line, |line| + 1); Snapshot() == t.client && flight == t.flight
      ensures core.Valid()
    {
      hide Begin, CodexClient.Conclude, ProtocolCore.InOrder;
      flight := CodexClient.Framing;
      var refused, reduced := core.BeginDecode(line, |line| + 1);
      if refused.Some? {
        FailWith();
        flight := CodexClient.Idle;
      } else if reduced.Some? {
        var (f, seen) := reduced.value;
        if HasContent(f) {
          core.Route(f);
          flight := CodexClient.Waiting(f, seen, |line| + 1);
        } else {
          var stopped := Conclude(f, seen, |line| + 1);
          flight := if stopped then CodexClient.Idle else CodexClient.Framing;
        }
      }
    }

    /** One turn of the loop of `push`, up to the first wait. */
    method TakeFrame() returns (flight: CodexClient.Flight)
      requires Valid() && Here().flight.Framing?
      modifies this, core
      ensures Took(CodexClient.NextFrame) && flight == Here().flight
    {
      hide CodexCore.Drain, CodexClient.Run, CodexClient.Step, CodexClient.Effect, Decoded, CodexClient.TakeFrame,
        LineEnd,
        ProtocolCore.InOrder, CodexTheorems.SettledOk;
      ghost var s := Here();
      EffectsAre(core.env, s, 0, false, None);
      FrameIsDecoded(core.env, s);
      var thrown, line := core.TakeLine();
      if thrown.Some? {
        FailWith();
        flight := CodexClient.Idle;
      } else if line.None? {
        var inHand := Drain();
        flight := CodexClient.Denying(inHand);
      } else {
        flight := DecodeNext(line.value, s.(client := Snapshot()));
      }
      trace := trace + [CodexClient.NextFrame];
      Taken(core.env, old(trace), CodexClient.NextFrame);
    }

    /** The wait for the content is over. */
    method RouteContent(f: Frame, seen: Observation, size: nat, accepted: bool) returns (stopped: bool)
      requires Valid() && Here().flight == CodexClient.Waiting(f, seen, size)
      modifies this, core
      ensures Took(CodexClient.Content(accepted)) && (stopped <==> Here().flight.Idle?)
    {
      hide CodexClient.Run, CodexClient.Step, CodexClient.Conclude, ProtocolCore.InOrder, CodexTheorems.SettledOk;
      if accepted {
        stopped := Conclude(f, seen, size);
      } else {
        core.RaiseFault();
        FailWith();
        stopped := true;
      }
      trace := trace + [CodexClient.Content(accepted)];
      Taken(core.env, old(trace), CodexClient.Content(accepted));
    }

    /** The next authority request is to be denied. */
    method Deny(inHand: seq<Observation>) returns (id: int)
      requires Valid() && Here().flight == CodexClient.Denying(inHand) && authorityRequests != []
      modifies `authorityRequests, `trace
      ensures Took(CodexClient.Deny) && Here().flight == CodexClient.Sending(id, inHand)
    {
      hide CodexClient.Run, CodexClient.Step, CodexTheorems.SettledOk;
      id := authorityRequests[0];
      authorityRequests := authorityRequests[1..];
      trace := trace + [CodexClient.Deny];
      Taken(core.env, old(trace), CodexClient.Deny);
    }

    /** The write of the denial is over. */
    method AfterDenial(id: int, inHand: seq<Observation>, sent: bool) returns (stopped: bool)
      requires Valid() && Here().flight == CodexClient.Sending(id, inHand)
      modifies this, core
      ensures Took(CodexClient.Denied(sent))
      ensures Here().flight == if stopped then CodexClient.Idle else CodexClient.Denying(inHand)
    {
      hide CodexCore.ResolveServerRequest, CodexClient.Run, CodexClient.Step, CodexClient.Effect, ProtocolCore.InOrder,
        CodexTheorems.SettledOk;
      EffectsAre(core.env, Here(), 0, sent, None);
      stopped := !sent;
      if sent {
        var thrown := core.ResolveServerRequest(id);
        stopped := thrown.Some?;
      }
      if stopped {
        FailWith();
      }
      trace := trace + [CodexClient.Denied(sent)];
      Taken(core.env, old(trace), CodexClient.Denied(sent));
    }

    /**
     The delivery: observations are numbered and told one by one; an authority request ends it after
     itself, an exception of the observer at `broken` ends it too, and both fail the client.
     */
    method Deliver(inHand: seq<Observation>, broken: Option<nat>) returns (told: seq<(nat, Observation)>)
      requires Valid() && Here().flight == CodexClient.Denying(inHand) && authorityRequests == []
      modifies this
      ensures Took(CodexClient.Deliver(broken)) && Here().delivered == old(Here()).delivered + told
      ensures (forall i :: 0 <= i < |told| ==> told[i].0 == old(sequence) + i + 1) && Here().flight.Idle?
    {
      hide CodexClient.UpToAsk, CodexClient.Numbered, CodexClient.Run, CodexClient.Step, CodexClient.Effect,
        CodexTheorems.SettledOk;
      EffectsAre(core.env, Here(), 0, false, broken);
      var asked := Asks in inHand;
      if asked {
        FailWith();
      }
      var threw;
      told, threw := Tell(inHand, asked, broken);
      if threw {
        FailWith();
      }
      trace := trace + [CodexClient.Deliver(broken)];
      Taken(core.env, old(trace), CodexClient.Deliver(broken));
    }

    /** The loop of the delivery. */
    method Tell(items: seq<Observation>, asked: bool, broken: Option<nat>)
        returns (told: seq<(nat, Observation)>, threw: bool)
      requires asked ==> Asks in items
      modifies `sequence
      ensures var out := if asked then CodexClient.UpToAsk(items) else items;
              && (threw <==> broken.Some? && broken.value < |out|)
              && var heard := if threw then out[..broken.value + 1] else out;
                 told == CodexClient.Numbered(old(sequence), heard) && sequence == old(sequence) + |heard|
    {
      hide CodexClient.UpToAsk;
      told, threw := [], false;
      ghost var out := if asked then CodexClient.UpToAsk(items) else items;
      if asked {
        AskEnds(items);
      }
      var i := 0;
      while i < |items| && !threw && !(asked && i > 0 && items[i - 1] == Asks)
        invariant 0 <= i <= |out| && |out| <= |items| && sequence == old(sequence) + i
        invariant told == CodexClient.Numbered(old(sequence), out[..i])
        invariant if threw then broken == Some(i - 1) && i > 0 else broken.None? || i <= broken.value
      {
        assert i < |out|;
        assert out[..i + 1][..i] == out[..i];
        sequence := sequence + 1;
        told := told + [(sequence, items[i])];
        threw := broken == Some(i);
        i := i + 1;
      }
      assert !threw ==> out[..i] == out;
    }
  }

  lemma Taken(env: Env, trace: seq<CodexClient.Action>, a: CodexClient.Action)
    ensures var s, t := CodexClient.Run(env, trace), CodexClient.Run(env, trace + [a]);
            var u := CodexClient.Effect(env, s, a);
            && t == CodexClient.Step(env, s, a)
            && t.client == u.client && t.flight == u.flight && t.delivered == u.delivered && t.log == u.log
    ensures var s := CodexClient.Run(env, trace + [a]);
            && |s.client.core.state.requests| <= 2 && (s.client.failed ==> s.client.pending == map[])
            && CodexTheorems.SettledOk(s)
            && forall id :: id in s.client.core.state.abandoned ==> id !in s.client.pending
  {
    hide CodexClient.Run, CodexClient.Step, CodexTheorems.SettledOk;
    CodexOrder.OneMore(env, trace, a);
    CodexOrder.StepOfEffect(env, CodexClient.Run(env, trace), a);
    CodexTheorems.AtMostTwoOutstanding(env, trace + [a]);
    CodexTheorems.PendingMirrorsCore(env, trace + [a]);
    CodexTheorems.EveryRequestSettlesOnce(env, trace + [a]);
    CodexTheorems.RunIsOk(env, trace + [a]);
    var s := CodexClient.Run(env, trace + [a]);
    if s.client.failed { FailedWaitsForNone(s); }
  }

  lemma FailedWaitsForNone(s: CodexClient.System)
    requires CodexTheorems.SystemOk(s) && s.client.failed
    ensures s.client.pending == map[]
  {
    hide CoreOk, CodexTheorems.IdsOk, CodexTheorems.TransitOk, CodexTheorems.ServerOk;
  }

  /** The first authority request ends what is told. */
  lemma {:induction false} AskEnds(items: seq<Observation>)
    requires Asks in items
    ensures var out := CodexClient.UpToAsk(items);
            && out != [] && out <= items && out[|out| - 1] == Asks && forall i :: 0 <= i < |out| - 1 ==> out[i] != Asks
  {
    if items[0] != Asks { AskEnds(items[1..]); }
  }
}
