/** How the bytes are cut into chunks does not matter, up to one limit. */
module CodexFraming {
  import opened Wrappers
  import opened CodexCore

  lemma PrefixHas(bytes: seq<Byte>, n: nat, k: nat)
    requires n <= |bytes| && k < |bytes| && bytes[k] == NEWLINE
    ensures k < n ==> NEWLINE in bytes[..n]
  {
    if k < n { assert bytes[..n][k] == NEWLINE; }
  }

  lemma LineEndIsFirst(bytes: seq<Byte>, n: nat)
    requires n < |bytes| && bytes[n] == NEWLINE && NEWLINE !in bytes[..n]
    ensures LineEnd(bytes) == Some(n)
  {
    var end := LineEnd(bytes).value;
    PrefixHas(bytes, n, end);
    PrefixHas(bytes, end, n);
  }

  /** More bytes behind what the loop saw are as good as more bytes behind what it left. */
  lemma {:induction false} ConsumeJoins(env: Env, c: Core, more: seq<Byte>)
    ensures match Consume(env, c)
            case Done(next) =>
              && NEWLINE !in next.bytes
              && Consume(env, Core(c.bytes + more, c.state)) == Consume(env, Core(next.bytes + more, next.state))
            case Thrown(at, code) => Consume(env, Core(c.bytes + more, c.state)) == Thrown(at, code)
    decreases |c.bytes|
  {
    hide Decode;
    var end := LineEnd(c.bytes);
    if end.Some? {
      var n := end.value;
      assert (c.bytes + more)[..n] == c.bytes[..n];
      LineEndIsFirst(c.bytes + more, n);
      if n + 1 <= FRAME_BYTES && n > 0 {
        var decoded := Decode(env, c.state, c.bytes[..n], n + 1);
        if decoded.Done? {
          assert (c.bytes + more)[n + 1..] == c.bytes[n + 1..] + more;
          ConsumeJoins(env, Core(c.bytes[n + 1..], decoded.next), more);
        }
      }
    }
  }

  /** Without a newline in what is added, the loop leaves all of it. */
  lemma ConsumeLeaves(env: Env, c: Core)
    requires NEWLINE !in c.bytes
    ensures Consume(env, c) == Done(c)
  {
  }

  /** A first line that is too long is refused, however much of it has come. */
  lemma TooLongALine(env: Env, c: Core, n: nat)
    requires n <= |c.bytes| && n >= FRAME_BYTES && NEWLINE !in c.bytes[..n] && NEWLINE in c.bytes
    ensures Consume(env, c) == Thrown(Core([], Fail(c.state)), FrameTooLarge)
  {
    hide Decode;
    var end := LineEnd(c.bytes).value;
    PrefixHas(c.bytes, n, end);
  }

  /** Push one chunk, then the other unless the first was refused. */
  function PushTwo(env: Env, c: Core, a: seq<Byte>, b: seq<Byte>): Outcome<Core> {
    match Push(env, c, a)
    case Thrown(at, code) => Thrown(at, code)
    case Done(next) => Push(env, next, b)
  }

  /** A whole that is accepted and leaves a remainder over the limit, none of whose end is a newline. */
  predicate LeavesTooMuch(whole: Outcome<Core>, b: seq<Byte>) {
    whole.Done? && |whole.next.bytes| > INCOMPLETE_BYTES && NEWLINE !in b
  }

  lemma {:induction false} ConsumeNeverFails(env: Env, c: Core)
    requires !c.state.failed && Consume(env, c).Done?
    ensures !Consume(env, c).next.state.failed
    decreases |c.bytes|
  {
    hide Decode;
    var end := LineEnd(c.bytes);
    if end.Some? && end.value + 1 <= FRAME_BYTES && end.value > 0 {
      var decoded := Decode(env, c.state, c.bytes[..end.value], end.value + 1);
      DecodeNeverFails(env, c.state, c.bytes[..end.value], end.value + 1);
      ConsumeNeverFails(env, Core(c.bytes[end.value + 1..], decoded.next));
    }
  }

  lemma DecodeNeverFails(env: Env, s: State, line: seq<Byte>, size: nat)
    ensures match Decode(env, s, line, size)
            case Done(next) => next.failed == s.failed
            case Thrown(at, _) => at.failed
  {
    hide Begin;
    BeginNeverFails(env, s, line, size);
  }

  lemma BeginNeverFails(env: Env, s: State, line: seq<Byte>, size: nat)
    ensures match Begin(env, s, line, size)
            case Stopped(at, _) => at.failed
            case Dropped(next) => next.failed == s.failed
            case Reduced(next, _, _) => next.failed == s.failed
  {
    hide Reduce, ContentFits, Expected;
    var parsed := env.parse(line);
    if parsed.Some? {
      var validated := env.validate(line, Expected(s, parsed.value));
      if validated.Some? { ReduceNeverFails(s, validated.value); }
    }
  }

  lemma ReduceNeverFails(s: State, f: Frame)
    ensures match Reduce(s, f)
            case Done(reduced) => reduced.0.failed == s.failed
            case Thrown(at, _) => at.0.failed
  {
  }

  lemma TwoOrOne(env: Env, c: Core, a: seq<Byte>, b: seq<Byte>)
    requires a != [] && b != []
    ensures PushTwo(env, c, a, b) == Push(env, c, a + b) <==> !LeavesTooMuch(Push(env, c, a + b), b)
    ensures LeavesTooMuch(Push(env, c, a + b), b) ==>
              PushTwo(env, c, a, b).Thrown? && PushTwo(env, c, a, b).code == FrameTooLarge
  {
    hide Consume, Decode, LineEnd;
    var whole := c.bytes + (a + b);
    assert whole == (c.bytes + a) + b;
    if c.state.failed {
    } else if |c.bytes + a| > INCOMPLETE_BYTES && NEWLINE !in c.bytes + a {
      FirstIsTooLong(env, c, a, b);
    } else {
      JoinAfterFirst(env, c, a, b);
    }
  }

  lemma FirstIsTooLong(env: Env, c: Core, a: seq<Byte>, b: seq<Byte>)
    requires !c.state.failed && a != [] && |c.bytes + a| > INCOMPLETE_BYTES && NEWLINE !in c.bytes + a
    ensures Push(env, c, a + b) == Push(env, c, a) == Thrown(Core([], Fail(c.state)), FrameTooLarge)
  {
    hide Consume, Decode, LineEnd;
    var whole := c.bytes + (a + b);
    assert whole == (c.bytes + a) + b;
    if NEWLINE in whole {
      assert whole[..|c.bytes + a|] == c.bytes + a;
      TooLongALine(env, Core(whole, c.state), |c.bytes + a|);
    }
  }

  lemma JoinAfterFirst(env: Env, c: Core, a: seq<Byte>, b: seq<Byte>)
    requires !c.state.failed && a != [] && b != [] && !(|c.bytes + a| > INCOMPLETE_BYTES && NEWLINE !in c.bytes + a)
    ensures PushTwo(env, c, a, b) == Push(env, c, a + b) <==> !LeavesTooMuch(Push(env, c, a + b), b)
    ensures LeavesTooMuch(Push(env, c, a + b), b) ==>
              PushTwo(env, c, a, b).Thrown? && PushTwo(env, c, a, b).code == FrameTooLarge
  {
    hide Consume, Decode, LineEnd;
    var first := Core(c.bytes + a, c.state);
    assert c.bytes + (a + b) == first.bytes + b;
    ConsumeJoins(env, first, b);
    if NEWLINE !in first.bytes { ConsumeLeaves(env, first); }
    var left := Consume(env, first);
    if left.Done? {
      ConsumeNeverFails(env, first);
      var then_ := Core(left.next.bytes + b, left.next.state);
      assert NEWLINE in then_.bytes <==> NEWLINE in b;
      if NEWLINE !in b {
        ConsumeLeaves(env, then_);
        if NEWLINE !in first.bytes { assert left.next == first; }
      } else {
        assert NEWLINE in first.bytes + b;
      }
    } else {
      assert NEWLINE in first.bytes;
    }
  }

  function Joined(chunks: seq<seq<Byte>>): seq<Byte> {
    if chunks == [] then [] else chunks[0] + Joined(chunks[1..])
  }

  function PushAll(env: Env, c: Core, chunks: seq<seq<Byte>>): Outcome<Core>
    decreases |chunks|
  {
    if chunks == [] then Done(c)
    else
      match Push(env, c, chunks[0])
      case Thrown(at, code) => Thrown(at, code)
      case Done(next) => PushAll(env, next, chunks[1..])
  }

  lemma {:induction false} CutsJoin(env: Env, c: Core, chunks: seq<seq<Byte>>)
    requires chunks != []
    requires var whole := Push(env, c, Joined(chunks)); whole.Done? ==> |whole.next.bytes| <= INCOMPLETE_BYTES
    ensures PushAll(env, c, chunks) == Push(env, c, Joined(chunks))
    decreases |chunks|
  {
    hide Push;
    var rest := Joined(chunks[1..]);
    if |chunks| == 1 {
      assert Joined(chunks) == chunks[0];
      var one := Push(env, c, chunks[0]);
      if one.Done? { assert PushAll(env, one.next, chunks[1..]) == Done(one.next); }
    } else {
      OneThenRest(env, c, chunks[0], rest);
      var one := Push(env, c, chunks[0]);
      if one.Done? { CutsJoin(env, one.next, chunks[1..]); }
    }
  }

  lemma OneThenRest(env: Env, c: Core, a: seq<Byte>, b: seq<Byte>)
    requires var whole := Push(env, c, a + b); whole.Done? ==> |whole.next.bytes| <= INCOMPLETE_BYTES
    ensures PushTwo(env, c, a, b) == Push(env, c, a + b)
  {
    hide Consume, LineEnd;
    if a == [] {
      assert a + b == b;
    } else if b == [] {
      assert a + b == a;
      if !c.state.failed && Push(env, c, a).Done? { ConsumeNeverFails(env, Core(c.bytes + a, c.state)); }
    } else {
      TwoOrOne(env, c, a, b);
    }
  }

  /** Whatever a cutting accepts, the whole accepts with the same result. */
  lemma {:induction false} AcceptedChunksJoin(env: Env, c: Core, chunks: seq<seq<Byte>>)
    requires chunks != [] && PushAll(env, c, chunks).Done?
    ensures Push(env, c, Joined(chunks)) == PushAll(env, c, chunks)
    decreases |chunks|
  {
    hide Push;
    var rest := Joined(chunks[1..]);
    var one := Push(env, c, chunks[0]);
    if |chunks| == 1 {
      assert Joined(chunks) == chunks[0];
      assert PushAll(env, one.next, chunks[1..]) == Done(one.next);
    } else {
      AcceptedChunksJoin(env, one.next, chunks[1..]);
      AcceptedTwo(env, c, chunks[0], rest);
    }
  }

  lemma AcceptedTwo(env: Env, c: Core, a: seq<Byte>, b: seq<Byte>)
    requires PushTwo(env, c, a, b).Done?
    ensures PushTwo(env, c, a, b) == Push(env, c, a + b)
  {
    hide Consume, LineEnd;
    if a == [] {
      assert a + b == b;
    } else if b == [] {
      assert a + b == a;
    } else {
      TwoOrOne(env, c, a, b);
    }
  }

  /** A stream that ends cleanly ended with its last line. */
  lemma CleanEnd(env: Env, c: Core, chunk: seq<Byte>)
    requires chunk != [] && Push(env, c, chunk).Done?
    ensures End(Push(env, c, chunk).next).Done? <==> chunk[|chunk| - 1] == NEWLINE
  {
    hide Decode, LineEnd;
    ConsumeNeverFails(env, Core(c.bytes + chunk, c.state));
    RemainderIsATail(env, Core(c.bytes + chunk, c.state));
    ConsumeJoins(env, Core(c.bytes + chunk, c.state), []);
    var rest := Push(env, c, chunk).next.bytes;
    var all := c.bytes + chunk;
    assert rest != [] ==> rest[|rest| - 1] == all[|all| - 1];
  }

  /** `rest` is all of the bytes, or what stands behind one of their newlines. */
  predicate Tail(bytes: seq<Byte>, rest: seq<Byte>) {
    && |rest| <= |bytes| && bytes[|bytes| - |rest|..] == rest
    && (|rest| < |bytes| ==> bytes[|bytes| - |rest| - 1] == NEWLINE)
  }

  lemma TailBehind(bytes: seq<Byte>, n: nat, rest: seq<Byte>)
    requires n < |bytes| && bytes[n] == NEWLINE && Tail(bytes[n + 1..], rest)
    ensures Tail(bytes, rest)
  {
    var behind := bytes[n + 1..];
    assert behind[|behind| - |rest|..] == bytes[|bytes| - |rest|..];
  }

  /** The loop leaves what stands behind the last newline. */
  lemma {:induction false} RemainderIsATail(env: Env, c: Core)
    requires Consume(env, c).Done?
    ensures Tail(c.bytes, Consume(env, c).next.bytes)
    decreases |c.bytes|
  {
    hide Decode, Tail, LineEnd;
    var end := LineEnd(c.bytes);
    if end.Some? {
      var decoded := Decode(env, c.state, c.bytes[..end.value], end.value + 1);
      RemainderIsATail(env, Core(c.bytes[end.value + 1..], decoded.next));
      TailBehind(c.bytes, end.value, Consume(env, c).next.bytes);
    } else {
      WholeIsATail(c.bytes);
    }
  }

  lemma WholeIsATail(bytes: seq<Byte>)
    ensures Tail(bytes, bytes)
  {
  }

  // Two chunks or one -----------------------------------------------------------------------------------------

  /** What stands behind the last newline. */
  function Behind(bytes: seq<Byte>): seq<Byte> {
    if bytes == [] || bytes[|bytes| - 1] == NEWLINE then [] else Behind(bytes[..|bytes| - 1]) + [bytes[|bytes| - 1]]
  }

  lemma {:induction false} TailIsBehind(bytes: seq<Byte>, rest: seq<Byte>)
    requires Tail(bytes, rest) && NEWLINE !in rest
    ensures Behind(bytes) == rest
    decreases |bytes|
  {
    if rest == [] {
    } else {
      var last := bytes[|bytes| - 1];
      assert last == rest[|rest| - 1];
      var init := rest[..|rest| - 1];
      assert bytes[..|bytes| - 1][|bytes| - 1 - |init|..] == init;
      assert NEWLINE !in init;
      TailIsBehind(bytes[..|bytes| - 1], init);
    }
  }

  /** An accepted chunk leaves what stands behind the last newline. */
  lemma RemainderIsBehind(env: Env, c: Core, chunk: seq<Byte>)
    requires Push(env, c, chunk).Done? && chunk != []
    ensures Push(env, c, chunk).next.bytes == Behind(c.bytes + chunk)
  {
    hide Decode, LineEnd, Tail;
    var all := Core(c.bytes + chunk, c.state);
    RemainderIsATail(env, all);
    ConsumeJoins(env, all, []);
    TailIsBehind(all.bytes, Consume(env, all).next.bytes);
  }

  /** The first chunk ends a line and is accepted; the second ends none and makes what is left too long. */
  predicate Oversized(env: Env, c: Core, a: seq<Byte>, b: seq<Byte>) {
    && NEWLINE in c.bytes + a && NEWLINE !in b && |Behind(c.bytes + a + b)| > INCOMPLETE_BYTES
    && Push(env, c, a).Done?
  }

  /** Behind a first chunk that ends a line, bytes without a newline change nothing but the remainder. */
  lemma SecondIsLeft(env: Env, c: Core, a: seq<Byte>, b: seq<Byte>)
    requires a != [] && b != [] && NEWLINE !in b
    ensures LeavesTooMuch(Push(env, c, a + b), b) <==> Oversized(env, c, a, b)
  {
    hide Consume, Decode, LineEnd, Behind;
    assert c.bytes + a + b == c.bytes + (a + b);
    if Push(env, c, a + b).Done? { RemainderIsBehind(env, c, a + b); }
    var first := Core(c.bytes + a, c.state);
    ConsumeJoins(env, first, b);
    if NEWLINE in c.bytes + a {
      assert NEWLINE in c.bytes + (a + b);
      if !c.state.failed && Consume(env, first).Done? {
        var left := Consume(env, first).next;
        assert NEWLINE !in left.bytes + b;
        ConsumeLeaves(env, Core(left.bytes + b, left.state));
      }
    } else {
      assert NEWLINE !in c.bytes + (a + b);
      ConsumeLeaves(env, Core(c.bytes + (a + b), c.state));
    }
  }

  /**
   Two chunks are as good as one, for the state, what was routed, what was consumed and the
   refusal, exactly unless the first ends a line, the second ends none, and more than the limit
   stands behind the last newline: then the one chunk is accepted and the second of the two refused.
   */
  lemma TwoChunksOrOne(env: Env, c: Core, a: seq<Byte>, b: seq<Byte>)
    requires a != [] && b != []
    ensures PushTwo(env, c, a, b) == Push(env, c, a + b) <==> !Oversized(env, c, a, b)
    ensures Oversized(env, c, a, b) ==>
              Push(env, c, a + b).Done? && PushTwo(env, c, a, b).Thrown? && PushTwo(env, c, a, b).code == FrameTooLarge
  {
    hide Push, PushTwo, Behind;
    TwoOrOne(env, c, a, b);
    if NEWLINE !in b { SecondIsLeft(env, c, a, b); }
  }

  /**
   Any cutting of the bytes does what the bytes in one piece do, provided they are refused or no
   more than the limit stands behind their last newline: the same refusal, or the same state,
   buffer, queue and traffic.
   */
  lemma ChunkingDoesNotMatter(env: Env, c: Core, chunks: seq<seq<Byte>>)
    requires chunks != []
    requires Push(env, c, Joined(chunks)).Thrown? || |Behind(c.bytes + Joined(chunks))| <= INCOMPLETE_BYTES
    ensures PushAll(env, c, chunks) == Push(env, c, Joined(chunks))
  {
    hide Behind, PushAll;
    var whole := Joined(chunks);
    if whole == [] {
      NothingPushed(env, c, chunks);
    } else {
      if Push(env, c, whole).Done? { RemainderIsBehind(env, c, whole); }
      hide Push;
      CutsJoin(env, c, chunks);
    }
  }

  lemma {:induction false} NothingPushed(env: Env, c: Core, chunks: seq<seq<Byte>>)
    requires chunks != [] && Joined(chunks) == []
    ensures PushAll(env, c, chunks) == Push(env, c, [])
    decreases |chunks|
  {
    hide Consume;
    assert chunks[0] == [] && Joined(chunks[1..]) == [];
    if |chunks| > 1 && !c.state.failed { NothingPushed(env, c, chunks[1..]); }
  }
}
