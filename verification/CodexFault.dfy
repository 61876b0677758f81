/**
 Inputs for what fails: a fault in the middle of a push after which the observer is not told in
 order, and two chunks of which the second is refused where one chunk is accepted.
 */
module CodexFault {
  import opened Wrappers
  import opened CodexCore
  import opened CodexClient
  import opened CodexInvariant
  import CodexFraming

  function First(): Frame { Frame(Response(1, true), false, None) }

  function Second(): Frame { Frame(Response(2, true), false, None) }

  function Third(): Frame { Frame(Notification("started", TurnStarted), false, None) }

  function Fourth(): Frame { Frame(Notification("activity", Activity), true, Some(1)) }

  /** A schema for one-byte lines: two responses, the start of the turn, and an activity with content. */
  function SmallSchema(): Env {
    Env(line => Some(Candidate(None)),
        (line, expected) =>
          if line == [1] then Some(First()) else if line == [2] then Some(Second())
          else if line == [3] then Some(Third()) else if line == [4] then Some(Fourth()) else None,
        name => true, (before, f) => true, (before, f) => true)
  }

  // The moments of the run ------------------------------------------------------------------------------

  function Queue1(): seq<Queued> { [Queued(2, Answer(Initialize, true))] }

  function Queue2(): seq<Queued> { Queue1() + [Queued(2, Answer(ThreadStart, true))] }

  function Queue3(): seq<Queued> { Queue2() + [Queued(2, Note(TurnStarted))] }

  function Log1(): seq<Entry> { [Issued(1, Initialize)] }

  function Log2(): seq<Entry> { Log1() + [Answered(1, Initialize, true)] }

  function Log3(): seq<Entry> { Log2() + [Issued(2, ThreadStart)] }

  function Log4(): seq<Entry> { Log3() + [Answered(2, ThreadStart, true)] }

  function Log5(): seq<Entry> { Log4() + [Issued(3, TurnStart)] }

  function Log6(): seq<Entry> { Log5() + [Noted(TurnStarted)] }

  function Log7(): seq<Entry> { Log6() + [Noted(Activity)] }

  /** A core before any content, with as many bytes counted as its queue has. */
  function Inner(phase: Phase, queue: seq<Queued>, requests: map<int, Operation>, threads: nat, turns: nat,
      consumed: seq<Frame>)
    : State
  {
    State(phase, queue, 2 * |queue|, requests, map[], {}, threads, turns, 0, 0, false, [], consumed)
  }

  /** The client waits for what the core has outstanding. */
  function Moment(bytes: seq<Byte>, state: State, id: nat, flight: Flight, sends: set<int>, settled: multiset<int>,
      log: seq<Entry>)
    : System
  {
    System(Client(Core(bytes, state), state.requests, [], id, 0, false), flight, sends, [], settled, log)
  }

  function State1(): System {
    Moment([], Inner(Initializing, [], map[1 := Initialize], 0, 0, []), 1, Idle, {1}, multiset{}, Log1())
  }

  function State2(): System {
    Moment([1, 10, 2, 10, 3, 10, 4, 10], Inner(Initializing, [], map[1 := Initialize], 0, 0, []), 1, Framing, {1},
           multiset{}, Log1())
  }

  function State3(): System {
    Moment([2, 10, 3, 10, 4, 10], Inner(InitializeReplied, Queue1(), map[], 0, 0, [First()]), 1, Framing, {1},
           multiset{1}, Log2())
  }

  function State4(): System {
    Moment([2, 10, 3, 10, 4, 10], Inner(Phase.Initialized, Queue1(), map[], 0, 0, [First()]), 1, Framing, {1},
           multiset{1}, Log2())
  }

  function State5(): System {
    Moment([2, 10, 3, 10, 4, 10], Inner(ThreadStarting, Queue1(), map[2 := ThreadStart], 1, 0, [First()]), 2, Framing,
           {1, 2}, multiset{1}, Log3())
  }

  function State6(): System {
    Moment([3, 10, 4, 10], Inner(ThreadReady, Queue2(), map[], 1, 0, [First(), Second()]), 2, Framing, {1, 2},
           multiset{1, 2}, Log4())
  }

  function State7(): System {
    Moment([3, 10, 4, 10], Inner(TurnStarting, Queue2(), map[3 := TurnStart], 1, 1, [First(), Second()]), 3, Framing,
           {1, 2, 3}, multiset{1, 2}, Log5())
  }

  function State8(): System {
    Moment([4, 10], Inner(TurnActive, Queue3(), map[3 := TurnStart], 1, 1, [First(), Second(), Third()]), 3, Framing,
           {1, 2, 3}, multiset{1, 2}, Log6())
  }

  /** The content of the activity is on its way to the router. */
  function State9(): System {
    var active := Inner(TurnActive, Queue3(), map[3 := TurnStart], 1, 1, [First(), Second(), Third()]);
    Moment([], active.(routed := [Fourth()]), 3, Waiting(Fourth(), Note(Activity), 2), {1, 2, 3}, multiset{1, 2},
           Log7())
  }

  function Faulty(queue: seq<Queued>, consumed: seq<Frame>): State {
    Inner(Faulted, queue, map[3 := TurnStart], 1, 1, consumed).(failed := true, routed := [Fourth()])
  }

  /** The core has failed and its queue is gone; the decoding still waits. */
  function State10(): System {
    Moment([], Faulty([], [First(), Second(), Third()]), 4, Waiting(Fourth(), Note(Activity), 2), {1, 2, 3},
           multiset{1, 2}, Log7())
  }

  function State11(): System {
    Moment([], Faulty([Queued(2, Note(Activity))], [First(), Second(), Third(), Fourth()]), 4, Framing, {1, 2, 3},
           multiset{1, 2}, Log7())
  }

  function State12(): System {
    Moment([], Faulty([], [First(), Second(), Third(), Fourth()]), 4, Denying([Note(Activity)]), {1, 2, 3},
           multiset{1, 2}, Log7())
  }

  function State13(): System {
    var s := State12();
    s.(client := s.client.(sequence := 1), flight := Idle, delivered := [(1, Note(Activity))])
  }

  // The steps -----------------------------------------------------------------------------------------------

  lemma Step1()
    ensures Step(SmallSchema(), Boot(), Request(Initialize)) == State1()
  {
  }

  lemma Step2()
    ensures Step(SmallSchema(), State1(), Push([1, 10, 2, 10, 3, 10, 4, 10])) == State2()
  {
  }

  /** The core when the frame is reduced but not consumed. */
  function Reduced3(): State { State2().client.core.state.(phase := InitializeReplied, requests := map[]) }

  lemma Begin3()
    ensures Begin(SmallSchema(), State2().client.core.state, [1], 2)
              == Reduced(Reduced3(), First(), Answer(Initialize, true))
  {
    hide TotalBytes;
  }

  lemma Take3()
    ensures TakeFrame(SmallSchema(), State2()) == AfterReduce(State2(), Core([2, 10, 3, 10, 4, 10], Reduced3()),
              First(), Answer(Initialize, true), 2)
  {
    CodexFraming.LineEndIsFirst([1, 10, 2, 10, 3, 10, 4, 10], 1);
    Begin3();
    hide LineEnd, Begin, SmallSchema, AfterReduce, Reduced3, First, Second, Third, Fourth;
    assert [1, 10, 2, 10, 3, 10, 4, 10][..1] == [1] && [1, 10, 2, 10, 3, 10, 4, 10][2..] == [2, 10, 3, 10, 4, 10];
  }

  lemma Step3()
    ensures Step(SmallSchema(), State2(), NextFrame) == State3()
  {
    Take3();
    hide TakeFrame, SmallSchema;
  }

  lemma Step4()
    ensures Step(SmallSchema(), State3(), Action.Initialized) == State4()
  {
  }

  lemma Step5()
    ensures Step(SmallSchema(), State4(), Request(ThreadStart)) == State5()
  {
  }

  /** The core when the frame is reduced but not consumed. */
  function Reduced6(): State { State5().client.core.state.(phase := ThreadReady, requests := map[]) }

  lemma Begin6()
    ensures Begin(SmallSchema(), State5().client.core.state, [2], 2)
              == Reduced(Reduced6(), Second(), Answer(ThreadStart, true))
  {
    hide TotalBytes;
  }

  lemma Take6()
    ensures TakeFrame(SmallSchema(), State5()) == AfterReduce(State5(), Core([3, 10, 4, 10], Reduced6()), Second(),
              Answer(ThreadStart, true), 2)
  {
    CodexFraming.LineEndIsFirst([2, 10, 3, 10, 4, 10], 1);
    Begin6();
    hide LineEnd, Begin, SmallSchema, AfterReduce, Reduced6, First, Second, Third, Fourth;
    assert [2, 10, 3, 10, 4, 10][..1] == [2] && [2, 10, 3, 10, 4, 10][2..] == [3, 10, 4, 10];
  }

  lemma Step6()
    ensures Step(SmallSchema(), State5(), NextFrame) == State6()
  {
    Take6();
    hide TakeFrame, SmallSchema;
  }

  lemma Step7()
    ensures Step(SmallSchema(), State6(), Request(TurnStart)) == State7()
  {
  }

  /** The core when the frame is reduced but not consumed. */
  function Reduced8(): State { State7().client.core.state.(phase := TurnActive, requests := map[3 := TurnStart]) }

  lemma Begin8()
    ensures Begin(SmallSchema(), State7().client.core.state, [3], 2) == Reduced(Reduced8(), Third(), Note(TurnStarted))
  {
    hide TotalBytes;
  }

  lemma Take8()
    ensures TakeFrame(SmallSchema(), State7()) == AfterReduce(State7(), Core([4, 10], Reduced8()), Third(),
              Note(TurnStarted), 2)
  {
    CodexFraming.LineEndIsFirst([3, 10, 4, 10], 1);
    Begin8();
    hide LineEnd, Begin, SmallSchema, AfterReduce, Reduced8, First, Second, Third, Fourth;
    assert [3, 10, 4, 10][..1] == [3] && [3, 10, 4, 10][2..] == [4, 10];
  }

  lemma Step8()
    ensures Step(SmallSchema(), State7(), NextFrame) == State8()
  {
    Take8();
    hide TakeFrame, SmallSchema;
  }

  /** The core when the frame is reduced but not consumed. */
  function Reduced9(): State { State8().client.core.state.(phase := TurnActive, requests := map[3 := TurnStart]) }

  lemma Begin9()
    ensures Begin(SmallSchema(), State8().client.core.state, [4], 2) == Reduced(Reduced9(), Fourth(), Note(Activity))
  {
    hide TotalBytes;
  }

  lemma Take9()
    ensures TakeFrame(SmallSchema(), State8()) == AfterReduce(State8(), Core([], Reduced9()), Fourth(), Note(Activity),
              2)
  {
    CodexFraming.LineEndIsFirst([4, 10], 1);
    Begin9();
    hide LineEnd, Begin, SmallSchema, AfterReduce, Reduced9, First, Second, Third, Fourth;
    assert [4, 10][..1] == [4] && [4, 10][2..] == [];
  }

  lemma Step9()
    ensures Step(SmallSchema(), State8(), NextFrame) == State9()
  {
    Take9();
    hide TakeFrame, SmallSchema;
  }

  lemma Step10()
    ensures Step(SmallSchema(), State9(), Request(Initialize)) == State10()
  {
    hide Log7, First, Second, Third;
  }

  lemma Step11()
    ensures Step(SmallSchema(), State10(), Content(true)) == State11()
  {
    hide Log7, First, Second, Third;
  }

  lemma Step12()
    ensures Step(SmallSchema(), State11(), NextFrame) == State12()
  {
    hide Log7, First, Second, Third;
    var queue := [Queued(2, Note(Activity))];
    assert queue[..1] == queue && queue[1..] == [];
    assert TotalBytes(queue) == 2 && Values(queue) == [Note(Activity)];
  }

  lemma Step13()
    ensures Step(SmallSchema(), State12(), Deliver(None)) == State13()
  {
    hide Log7, First, Second, Third;
  }

  lemma OneMore(env: Env, actions: seq<Action>, a: Action)
    ensures Run(env, actions + [a]) == Step(env, Run(env, actions), a)
  {
    assert (actions + [a])[..|actions|] == actions;
  }

  /**
   A request that faults the core while content is routed empties the queue, decoding goes on
   without looking, and the observer hears of an activity in a turn whose start it was never told.
   The client itself has not failed.
   */
  lemma FaultHidesTheStart() returns (env: Env, actions: seq<Action>)
    ensures var s := Run(env, actions);
            !s.client.failed && Told(s.delivered) == [Note(Activity)] && !TurnTrace(Notes(Told(s.delivered)))
  {
    env := SmallSchema();
    hide SmallSchema, Step, State1, State2, State3, State4, State5, State6, State7, State8, State9, State10, State11,
      State12, State13;
    var a0: seq<Action> := [];
    OneMore(env, a0, Request(Initialize));
    Step1();
    var a1 := a0 + [Request(Initialize)];
    OneMore(env, a1, Push([1, 10, 2, 10, 3, 10, 4, 10]));
    Step2();
    var a2 := a1 + [Push([1, 10, 2, 10, 3, 10, 4, 10])];
    OneMore(env, a2, NextFrame);
    Step3();
    var a3 := a2 + [NextFrame];
    OneMore(env, a3, Action.Initialized);
    Step4();
    var a4 := a3 + [Action.Initialized];
    OneMore(env, a4, Request(ThreadStart));
    Step5();
    var a5 := a4 + [Request(ThreadStart)];
    OneMore(env, a5, NextFrame);
    Step6();
    var a6 := a5 + [NextFrame];
    OneMore(env, a6, Request(TurnStart));
    Step7();
    var a7 := a6 + [Request(TurnStart)];
    OneMore(env, a7, NextFrame);
    Step8();
    var a8 := a7 + [NextFrame];
    OneMore(env, a8, NextFrame);
    Step9();
    var a9 := a8 + [NextFrame];
    OneMore(env, a9, Request(Initialize));
    Step10();
    var a10 := a9 + [Request(Initialize)];
    OneMore(env, a10, Content(true));
    Step11();
    var a11 := a10 + [Content(true)];
    OneMore(env, a11, NextFrame);
    Step12();
    var a12 := a11 + [NextFrame];
    OneMore(env, a12, Deliver(None));
    Step13();
    actions := a12 + [Deliver(None)];
    LastIsTold();
  }

  lemma LastIsTold()
    ensures var s := State13();
            !s.client.failed && Told(s.delivered) == [Note(Activity)] && !TurnTrace(Notes(Told(s.delivered)))
  {
    hide Told, Notes, TurnTrace, Log7;
    LoneActivity();
  }

  lemma LoneActivity()
    ensures Told([(1, Note(Activity))]) == [Note(Activity)] && !TurnTrace(Notes([Note(Activity)]))
  {
    assert Notes([Note(Activity)]) == [Activity];
  }

  // Two chunks ------------------------------------------------------------------------------------------------

  /** The core has asked to initialize and waits for the answer. */
  function Asking(): Core { Core([], Ask(Spawn().state, 1, Initialize).next) }

  lemma AskingIs()
    ensures Ask(Spawn().state, 1, Initialize).Done? && Asking().bytes == [] && !Asking().state.failed
    ensures Decode(SmallSchema(), Asking().state, [1], 2).Done?
  {
    hide TotalBytes;
  }

  lemma AnswerIsAccepted()
    ensures CodexCore.Push(SmallSchema(), Asking(), [1, 10]).Done?
  {
    AskingIs();
    CodexFraming.LineEndIsFirst([1, 10], 1);
    hide LineEnd, Decode, SmallSchema, Asking;
    var c := Core([1, 10], Asking().state);
    assert [] + [1, 10] == c.bytes && c.bytes[..1] == [1] && c.bytes[2..] == [];
    assert Consume(SmallSchema(), Core([], Decode(SmallSchema(), c.state, [1], 2).next)).Done? by {
      CodexFraming.ConsumeLeaves(SmallSchema(), Core([], Decode(SmallSchema(), c.state, [1], 2).next));
    }
  }

  lemma {:induction false} AllBehind(bytes: seq<Byte>, more: seq<Byte>)
    requires bytes != [] && bytes[|bytes| - 1] == NEWLINE && NEWLINE !in more
    ensures CodexFraming.Behind(bytes + more) == more
  {
    assert (bytes + more)[|bytes + more| - |more|..] == more;
    CodexFraming.TailIsBehind(bytes + more, more);
  }

  /** A remainder of one byte more than the limit: refused behind its line, accepted together with it. */
  lemma OversizedHappens() returns (env: Env, c: Core, a: seq<Byte>, b: seq<Byte>)
    ensures a != [] && b != [] && |CodexFraming.Behind(c.bytes + a + b)| == INCOMPLETE_BYTES + 1
    ensures CodexFraming.Oversized(env, c, a, b)
    ensures CodexCore.Push(env, c, a + b).Done? && CodexFraming.PushTwo(env, c, a, b).Thrown?
  {
    env, c, a, b := SmallSchema(), Asking(), [1, 10], seq(INCOMPLETE_BYTES + 1, _ => 0);
    AskingIs();
    AnswerIsAccepted();
    hide CodexCore.Push, SmallSchema, Asking, CodexFraming.Behind, CodexFraming.PushTwo;
    assert c.bytes + a == a && c.bytes + a + b == a + b;
    AllBehind(a, b);
    CodexFraming.TwoChunksOrOne(env, c, a, b);
  }
}
