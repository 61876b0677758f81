/** What every operation of the protocol core keeps, told by the log of what it accepted. */
module CodexInvariant {
  import opened Wrappers
  import opened CodexCore
  import opened CodexClient

  // The turn ------------------------------------------------------------------------------------------

  /** A started turn that is still going on. */
  predicate Going(n: seq<Lifecycle>) {
    n != [] && n[0] == TurnStarted && forall i :: 0 < i < |n| ==> n[i] == Activity
  }

  /** Nothing, a going turn, or either of them with its completion: the prefixes of (started activity*)? completed. */
  predicate TurnTrace(n: seq<Lifecycle>) {
    n == [] || Going(n) || (n[|n| - 1] == TurnCompleted && (|n| == 1 || Going(n[..|n| - 1])))
  }

  predicate TraceFits(phase: Phase, n: seq<Lifecycle>) {
    match phase
    case TurnActive => Going(n)
    case Interrupting => n == [] || Going(n)
    case TurnTerminalObserved => n != [] && TurnTrace(n) && n[|n| - 1] == TurnCompleted
    case CleaningUp => TurnTrace(n)
    case Faulted => TurnTrace(n)
    case _ => n == []
  }

  lemma TracesHavePrefixes(n: seq<Lifecycle>, k: nat)
    requires TurnTrace(n) && k <= |n|
    ensures TurnTrace(n[..k])
  {
    if 0 < k < |n| {
      if Going(n) { assert Going(n[..k]); } else { assert n[..k] == n[..|n| - 1][..k] && Going(n[..k]); }
    } else {
      assert k == |n| ==> n[..k] == n;
    }
  }

  // Requests ---------------------------------------------------------------------------------------------

  /** How many requests can be outstanding in a phase. */
  function Outstanding(s: State): nat {
    match s.phase
    case Spawned => 0 case InitializeReplied => 0 case Initialized => 0 case ThreadReady => 0
    case Interrupting => 2 case TurnTerminalObserved => 2 case Faulted => 2
    case CleaningUp => if s.shutdowns == 0 then 0 else 1
    case _ => 1
  }

  /** In which phases a request can be outstanding. */
  predicate RequestFits(phase: Phase, operation: Operation) {
    match operation
    case Initialize => phase in {Initializing, Faulted}
    case ThreadStart => phase in {ThreadStarting, Faulted}
    case Unknown(_) => false
    case _ => true
  }

  /** A request that was made cannot be made again. */
  predicate Past(s: State, operation: Operation) {
    match operation
    case Initialize => s.phase != Spawned
    case ThreadStart => s.threads > 0
    case TurnStart => s.turns > 0
    case TurnInterrupt => s.phase in {Interrupting, TurnTerminalObserved, CleaningUp, Faulted}
    case Shutdown => s.shutdowns > 0
    case Unknown(_) => false
  }

  /** Every request is made once, every answer has its request before it, and no request has two. */
  predicate LogOk(log: seq<Entry>) {
    && (forall i, j :: 0 <= i < j < |log| && log[i].Issued? && log[j].Issued? ==>
          log[i].id != log[j].id && log[i].operation != log[j].operation)
    && (forall j :: 0 <= j < |log| && log[j].Answered? ==> Issued(log[j].id, log[j].operation) in log[..j])
    && (forall i, j :: 0 <= i < j < |log| && log[i].Answered? && log[j].Answered? ==> log[i].id != log[j].id)
  }

  predicate IsAnswered(log: seq<Entry>, id: int) {
    exists k :: 0 <= k < |log| && log[k].Answered? && log[k].id == id
  }

  predicate RequestsOk(s: State, log: seq<Entry>) {
    && |s.requests| <= Outstanding(s)
    && (forall id :: id in s.requests ==>
          RequestFits(s.phase, s.requests[id]) && Issued(id, s.requests[id]) in log && !IsAnswered(log, id))
    && (forall id :: id in s.requests ==> id !in s.abandoned)
    && (forall e :: e in log && e.Issued? ==> Past(s, e.operation))
  }

  predicate QueueOk(s: State) {
    && |s.queue| <= QUEUED_COUNT && s.queuedBytes == TotalBytes(s.queue) <= QUEUED_BYTES
    && (s.failed <==> s.phase == Faulted)
  }

  predicate CoreOk(s: State, log: seq<Entry>) {
    LogOk(log) && RequestsOk(s, log) && QueueOk(s) && TraceFits(s.phase, Notes(Observations(log)))
  }

  predicate Room(s: State, size: nat) { |s.queue| < QUEUED_COUNT && s.queuedBytes + size <= QUEUED_BYTES }

  lemma SpawnedOk()
    ensures CoreOk(Spawn().state, [])
  {
  }

  /** A refusal keeps everything but the queue. */
  lemma FailKeeps(s: State, t: State, log: seq<Entry>)
    requires CoreOk(s, log) && t.requests.Keys <= s.requests.Keys && t.abandoned == s.abandoned
    requires forall id :: id in t.requests ==> t.requests[id] == s.requests[id]
    requires s.threads <= t.threads && s.turns <= t.turns && s.shutdowns <= t.shutdowns
    ensures CoreOk(CodexCore.Fail(t), log)
  {
    hide LogOk, IsAnswered, TurnTrace, Going, Observations, Notes;
    KeysFit(t.requests, s.requests);
    FaultTrace(s.phase, Notes(Observations(log)));
  }

  lemma KeysFit(a: map<int, Operation>, b: map<int, Operation>)
    requires a.Keys <= b.Keys
    ensures |a| <= |b|
  {
    SubsetSize(a.Keys, b.Keys);
    assert |a.Keys| == |a| && |b.Keys| == |b|;
  }

  lemma {:induction false} SubsetSize<T>(a: set<T>, b: set<T>)
    requires a <= b
    ensures |a| <= |b|
  {
    if x :| x in a {
      SubsetSize(a - {x}, b - {x});
    }
  }

  lemma FaultTrace(phase: Phase, n: seq<Lifecycle>)
    requires TraceFits(phase, n)
    ensures TraceFits(Faulted, n) && TraceFits(CleaningUp, n)
  {
  }

  // Outbound ------------------------------------------------------------------------------------------------

  lemma AskKeeps(s: State, log: seq<Entry>, id: int, operation: Operation)
    requires CoreOk(s, log)
    requires forall e :: e in log && (e.Issued? || e.Answered?) ==> e.id != id
    requires id !in s.abandoned
    ensures match Ask(s, id, operation)
            case Done(next) => CoreOk(next, log + [Issued(id, operation)])
            case Thrown(at, _) => CoreOk(at, log) && at.failed
  {
    hide LogOk, IsAnswered, TurnTrace, Going, Observations, Notes, RequestsOk, QueueOk;
    FailKeeps(s, s, log);
    FailKeeps(s, s.(shutdowns := s.shutdowns + 1), log);
    match Ask(s, id, operation)
    case Done(next) =>
      NotFailed(s);
      NotYet(s, log, operation);
      LogGrows(log, id, operation);
      NotesSilent(log, Issued(id, operation));
      RequestAdded(s, log, id, operation, next);
      QueueSame(s, next);
      if operation == TurnInterrupt { InterruptTrace(s.phase, Notes(Observations(log))); }
    case Thrown(at, _) => if s.failed { WhenFailed(s, log); }
  }

  lemma NotFailed(s: State)
    requires QueueOk(s) && !s.failed
    ensures s.phase != Faulted
  {
  }

  lemma WhenFailed(s: State, log: seq<Entry>)
    requires CoreOk(s, log) && s.failed
    ensures s.phase == Faulted
  {
  }

  /** Where a request is possible it was not made before. */
  lemma NotYet(s: State, log: seq<Entry>, operation: Operation)
    requires RequestsOk(s, log) && !Past(s, operation)
    ensures forall e :: e in log && e.Issued? ==> e.operation != operation
  {
  }

  lemma LogGrows(log: seq<Entry>, id: int, operation: Operation)
    requires LogOk(log)
    requires forall e :: e in log && e.Issued? ==> e.id != id && e.operation != operation
    ensures LogOk(log + [Issued(id, operation)])
  {
    var more := log + [Issued(id, operation)];
    forall j | 0 <= j < |more| && more[j].Answered? ensures Issued(more[j].id, more[j].operation) in more[..j] {
      assert more[..j] == log[..j];
    }
    forall i | 0 <= i < |log| && log[i].Issued?
      ensures log[i].id != id && log[i].operation != operation
    {
      assert log[i] in log;
    }
  }

  lemma SilentEntry(log: seq<Entry>, e: Entry)
    ensures Observations(log + [e]) == Observations(log) + if Seen(e).Some? then [Seen(e).value] else []
  {
    assert (log + [e])[..|log|] == log;
  }

  lemma RequestAdded(s: State, log: seq<Entry>, id: int, operation: Operation, next: State)
    requires RequestsOk(s, log) && id !in s.requests && id !in s.abandoned
    requires forall e :: e in log && e.Answered? ==> e.id != id
    requires Ask(s, id, operation) == Done(next)
    ensures RequestsOk(next, log + [Issued(id, operation)])
  {
    hide Ask, Past, RequestFits, Outstanding, IsAnswered;
    AskMakesRoom(s, id, operation, next);
    KeyAdded(s.requests, id, operation);
    var more := log + [Issued(id, operation)];
    forall k | k in next.requests ensures !IsAnswered(more, k) && Issued(k, next.requests[k]) in more {
      Unanswered(log, Issued(id, operation), k, k == id);
    }
    forall e | e in more && e.Issued? ensures Past(next, e.operation) {
      if e in log { assert Past(s, e.operation); }
    }
  }

  lemma KeyAdded(requests: map<int, Operation>, id: int, operation: Operation)
    requires id !in requests
    ensures |requests[id := operation]| == |requests| + 1
  {
    assert requests[id := operation].Keys == requests.Keys + {id};
    assert |requests[id := operation]| == |requests[id := operation].Keys|;
  }

  /** A request moves to a phase with room for it, where what was past stays past. */
  lemma AskMakesRoom(s: State, id: int, operation: Operation, next: State)
    requires Ask(s, id, operation) == Done(next) && |s.requests| <= Outstanding(s)
    ensures next.requests == s.requests[id := operation] && next.abandoned == s.abandoned
    ensures |s.requests| + 1 <= Outstanding(next) && RequestFits(next.phase, operation) && Past(next, operation)
    ensures forall o :: (Past(s, o) ==> Past(next, o)) && (RequestFits(s.phase, o) ==> RequestFits(next.phase, o))
  {
  }

  lemma Unanswered(log: seq<Entry>, e: Entry, id: int, fresh_: bool)
    requires if fresh_ then forall x :: x in log && x.Answered? ==> x.id != id else !IsAnswered(log, id)
    requires e.Answered? ==> e.id != id
    ensures !IsAnswered(log + [e], id)
  {
    var more := log + [e];
    forall k | 0 <= k < |more| && more[k].Answered? ensures more[k].id != id {
      if k < |log| { assert log[k] == more[k] && log[k] in log; }
    }
  }

  lemma QueueSame(s: State, t: State)
    requires QueueOk(s) && t.queue == s.queue && t.queuedBytes == s.queuedBytes && t.failed == s.failed
    requires s.phase != Faulted && t.phase != Faulted
    ensures QueueOk(t)
  {
  }

  lemma InterruptTrace(phase: Phase, n: seq<Lifecycle>)
    requires TraceFits(phase, n) && phase in {TurnStarting, TurnActive}
    ensures TraceFits(Interrupting, n)
  {
  }

  lemma NotifyKeeps(s: State, log: seq<Entry>)
    requires CoreOk(s, log)
    ensures match Notify(s)
            case Done(next) => CoreOk(next, log)
            case Thrown(at, _) => CoreOk(at, log) && at.failed
  {
    hide LogOk, IsAnswered, TurnTrace, Going, Observations, Notes;
    FailKeeps(s, s, log);
  }

  lemma CleanupKeeps(s: State, log: seq<Entry>)
    requires CoreOk(s, log)
    ensures match CodexCore.BeginCleanup(s)
            case Done(next) => CoreOk(next, log)
            case Thrown(at, _) => at == s
  {
    hide LogOk, IsAnswered, TurnTrace, Going, Observations, Notes;
    FaultTrace(s.phase, Notes(Observations(log)));
  }

  lemma ResolveKeeps(s: State, log: seq<Entry>, id: int)
    requires CoreOk(s, log)
    ensures match ResolveServerRequest(s, id)
            case Done(next) => CoreOk(next, log)
            case Thrown(at, _) => CoreOk(at, log) && at.failed
  {
    hide LogOk, IsAnswered, TurnTrace, Going, Observations, Notes;
    FailKeeps(s, s, log);
  }

  // Inbound ---------------------------------------------------------------------------------------------------

  lemma ReduceKeeps(s: State, log: seq<Entry>, f: Frame)
    requires CoreOk(s, log)
    ensures match Reduce(s, f)
            case Done(reduced) =>
              && CoreOk(reduced.0, log + [EntryOf(f, reduced.1)])
              && Seen(EntryOf(f, reduced.1)) == Some(reduced.1)
              && reduced.0.queue == s.queue && reduced.0.queuedBytes == s.queuedBytes
            case Thrown(at, _) => CoreOk(at.0, log) && at.0.failed
  {
    hide CoreOk, LogOk, IsAnswered, TurnTrace, Going, Observations, Notes, RequestsOk, QueueOk;
    match f.body
    case Response(id, isResult) => ResponseKeeps(s, log, f);
    case ServerRequest(id, _, _) => ServerRequestKeeps(s, log, f);
    case Notification(_, _) => NotificationKeeps(s, log, f);
  }

  lemma ResponseKeeps(s: State, log: seq<Entry>, f: Frame)
    requires CoreOk(s, log) && f.body.Response?
    ensures match Reduce(s, f)
            case Done(reduced) =>
              && CoreOk(reduced.0, log + [EntryOf(f, reduced.1)])
              && Seen(EntryOf(f, reduced.1)) == Some(reduced.1)
              && reduced.0.queue == s.queue && reduced.0.queuedBytes == s.queuedBytes
            case Thrown(at, _) => CoreOk(at.0, log) && at.0.failed
  {
    hide LogOk, IsAnswered, TurnTrace, Going, Observations, Notes, RequestsOk, QueueOk;
    var id := f.body.id;
    FailKeeps(s, s, log);
    if id in s.requests {
      FailKeeps(s, s.(requests := s.requests - {id}), log);
      var reduced := Reduce(s, f);
      if reduced.Done? {
        var e := Answered(id, s.requests[id], f.body.isResult);
        RequestFitsHere(s, log, id);
        NotesSilent(log, e);
        LogAnswers(s, log, e);
        RequestAnswered(s, log, e, reduced.next.0.phase);
        ResponseTrace(s.phase, reduced.next.0.phase, Notes(Observations(log)));
        if s.phase != reduced.next.0.phase { QueueSame(s, reduced.next.0); } else { QueueStays(s, reduced.next.0); }
      }
    }
  }

  lemma QueueStays(s: State, t: State)
    requires QueueOk(s) && t.queue == s.queue && t.queuedBytes == s.queuedBytes && t.failed == s.failed
               && t.phase == s.phase
    ensures QueueOk(t)
  {
  }

  lemma RequestFitsHere(s: State, log: seq<Entry>, id: int)
    requires RequestsOk(s, log) && id in s.requests
    ensures RequestFits(s.phase, s.requests[id])
  {
  }

  lemma ResponseTrace(phase: Phase, next: Phase, n: seq<Lifecycle>)
    requires TraceFits(phase, n)
    requires next == phase || (phase == Initializing && next == InitializeReplied)
               || (phase == ThreadStarting && next == ThreadReady)
    ensures TraceFits(next, n)
  {
  }

  lemma NotesSilent(log: seq<Entry>, e: Entry)
    requires !e.Noted?
    ensures Notes(Observations(log + [e])) == Notes(Observations(log))
  {
    SilentEntry(log, e);
    var items := Observations(log);
    if Seen(e).Some? {
      assert (items + [Seen(e).value])[..|items|] == items;
      assert Notes(items) + [] == Notes(items);
    } else {
      assert items + [] == items;
    }
  }

  lemma LogAnswers(s: State, log: seq<Entry>, e: Entry)
    requires LogOk(log) && RequestsOk(s, log) && e.Answered? && e.id in s.requests && e.operation == s.requests[e.id]
    ensures LogOk(log + [e])
  {
    var more := log + [e];
    assert Issued(e.id, e.operation) in log && !IsAnswered(log, e.id);
    forall j | 0 <= j < |more| && more[j].Answered? ensures Issued(more[j].id, more[j].operation) in more[..j] {
      if j < |log| { assert more[..j] == log[..j]; } else { assert more[..j] == log; }
    }
    forall i, j | 0 <= i < j < |more| && more[i].Answered? && more[j].Answered? ensures more[i].id != more[j].id {
      if j == |log| { assert log[i] == more[i]; }
    }
  }

  lemma RequestAnswered(s: State, log: seq<Entry>, e: Entry, phase: Phase)
    requires RequestsOk(s, log) && LogOk(log) && e.Answered? && e.id in s.requests && e.operation == s.requests[e.id]
    requires match e.operation
             case Initialize => phase == InitializeReplied && s.phase == Initializing
             case ThreadStart => phase == ThreadReady && s.phase == ThreadStarting
             case _ => phase == s.phase
    ensures RequestsOk(s.(requests := s.requests - {e.id}, phase := phase), log + [e])
  {
    var t := s.(requests := s.requests - {e.id}, phase := phase);
    var more := log + [e];
    assert t.requests.Keys == s.requests.Keys - {e.id};
    assert |t.requests| == |t.requests.Keys| == |s.requests.Keys| - 1 == |s.requests| - 1;
    forall id | id in t.requests
      ensures RequestFits(t.phase, t.requests[id]) && Issued(id, t.requests[id]) in more && !IsAnswered(more, id)
                && id !in t.abandoned
    {
      Unanswered(log, e, id, false);
      OnlyOne(log, id, t.requests[id], e.id, e.operation);
    }
    hide IsAnswered;
    forall x | x in more && x.Issued? ensures Past(t, x.operation) { assert x in log && Past(s, x.operation); }
  }

  /** Two requests are for two operations. */
  lemma OnlyOne(log: seq<Entry>, id: int, operation: Operation, other: int, second: Operation)
    requires LogOk(log) && Issued(id, operation) in log && Issued(other, second) in log && id != other
    ensures operation != second
  {
    var i :| 0 <= i < |log| && log[i] == Issued(id, operation);
    var j :| 0 <= j < |log| && log[j] == Issued(other, second);
    assert i < j || j < i;
  }

  lemma LogNotes(log: seq<Entry>, e: Entry)
    requires LogOk(log) && !e.Issued? && !e.Answered?
    ensures LogOk(log + [e])
  {
    var more := log + [e];
    forall j | 0 <= j < |more| && more[j].Answered? ensures Issued(more[j].id, more[j].operation) in more[..j] {
      assert more[..j] == log[..j];
    }
  }

  /** Entries other than requests and answers, and moves between phases that close no request. */
  lemma RequestsStay(s: State, t: State, log: seq<Entry>, e: Entry)
    requires RequestsOk(s, log) && !e.Issued? && !e.Answered?
    requires t.requests == s.requests && t.abandoned == s.abandoned && t.threads == s.threads && t.turns == s.turns
    requires t.shutdowns == s.shutdowns && Outstanding(s) <= Outstanding(t)
    requires s.phase in {TurnStarting, TurnActive, Interrupting}
               && t.phase in {TurnActive, Interrupting, TurnTerminalObserved}
    requires s.phase == Interrupting ==> t.phase != TurnActive
    ensures RequestsOk(t, log + [e])
  {
    forall id | id in t.requests ensures !IsAnswered(log + [e], id) { Unanswered(log, e, id, false); }
    hide IsAnswered;
    forall x | x in log + [e] && x.Issued? ensures Past(t, x.operation) { assert x in log && Past(s, x.operation); }
  }

  lemma ServerRequestKeeps(s: State, log: seq<Entry>, f: Frame)
    requires CoreOk(s, log) && f.body.ServerRequest?
    ensures match Reduce(s, f)
            case Done(reduced) =>
              && CoreOk(reduced.0, log + [EntryOf(f, reduced.1)])
              && Seen(EntryOf(f, reduced.1)) == Some(reduced.1)
              && reduced.0.queue == s.queue && reduced.0.queuedBytes == s.queuedBytes
            case Thrown(at, _) => CoreOk(at.0, log) && at.0.failed
  {
    hide LogOk, IsAnswered, TurnTrace, Going, Observations, Notes, RequestsOk, QueueOk;
    FailKeeps(s, s, log);
    var reduced := Reduce(s, f);
    if reduced.Done? {
      var e := WasAsked(f.body.id);
      NotesSilent(log, e);
      LogNotes(log, e);
      RequestsStay(s, reduced.next.0, log, e);
      QueueStays(s, reduced.next.0);
    }
  }

  lemma NotificationKeeps(s: State, log: seq<Entry>, f: Frame)
    requires CoreOk(s, log) && f.body.Notification?
    ensures match Reduce(s, f)
            case Done(reduced) =>
              && CoreOk(reduced.0, log + [EntryOf(f, reduced.1)])
              && Seen(EntryOf(f, reduced.1)) == Some(reduced.1)
              && reduced.0.queue == s.queue && reduced.0.queuedBytes == s.queuedBytes
            case Thrown(at, _) => CoreOk(at.0, log) && at.0.failed
  {
    hide LogOk, IsAnswered, TurnTrace, Going, Observations, Notes, RequestsOk, QueueOk;
    FailKeeps(s, s, log);
    FailKeeps(s, s.(terminals := s.terminals + 1), log);
    var reduced := Reduce(s, f);
    if reduced.Done? {
      var e := Noted(f.body.lifecycle);
      NotesMore(log, f.body.lifecycle);
      TraceGrows(s.phase, Notes(Observations(log)), f.body.lifecycle, reduced.next.0.phase);
      LogNotes(log, e);
      RequestsStay(s, reduced.next.0, log, e);
      QueueSame(s, reduced.next.0);
    }
  }

  lemma NotesMore(log: seq<Entry>, lifecycle: Lifecycle)
    ensures Notes(Observations(log + [Noted(lifecycle)])) == Notes(Observations(log)) + [lifecycle]
  {
    SilentEntry(log, Noted(lifecycle));
    var items := Observations(log);
    assert (items + [Note(lifecycle)])[..|items|] == items;
  }

  lemma TraceGrows(phase: Phase, n: seq<Lifecycle>, lifecycle: Lifecycle, next: Phase)
    requires TraceFits(phase, n)
    requires match lifecycle
             case TurnStarted => phase == TurnStarting && next == TurnActive
             case Activity => phase == next == TurnActive
             case TurnCompleted => phase in {TurnActive, Interrupting} && next == TurnTerminalObserved
    ensures TraceFits(next, n + [lifecycle])
  {
    assert (n + [lifecycle])[..|n|] == n;
  }

  lemma BeginKeeps(env: Env, s: State, log: seq<Entry>, line: seq<Byte>, size: nat)
    requires CoreOk(s, log)
    ensures match Begin(env, s, line, size)
            case Stopped(at, _) => CoreOk(at, log) && at.failed
            case Dropped(next) => CoreOk(next, log) && next == s.(abandoned := next.abandoned)
              && next.abandoned.Keys <= s.abandoned.Keys
            case Reduced(next, f, seen) =>
              && CoreOk(next, log + [EntryOf(f, seen)]) && Seen(EntryOf(f, seen)) == Some(seen) && Room(next, size)
              && Reduce(s, f) == Done((next, seen)) && next.queue == s.queue && ContentFits(f)
  {
    hide CoreOk, Reduce, Expected, ContentFits;
    FailOnly(s, log);
    var parsed := env.parse(line);
    if parsed.Some? {
      var validated := env.validate(line, Expected(s, parsed.value));
      if validated.Some? {
        var f := validated.value;
        ReduceKeeps(s, log, f);
        if f.body.Response? { DroppedKeeps(s, log, f.body.id); }
      }
    }
  }

  lemma FailOnly(s: State, log: seq<Entry>)
    requires CoreOk(s, log)
    ensures CoreOk(CodexCore.Fail(s), log)
  {
    FailKeeps(s, s, log);
  }

  lemma DroppedKeeps(s: State, log: seq<Entry>, id: int)
    requires CoreOk(s, log)
    ensures CoreOk(s.(abandoned := s.abandoned - {id}), log)
  {
    hide LogOk, IsAnswered, TraceFits, Observations, Notes;
  }

  /** Queueing, after a wait in which the queue can only have been emptied by a refusal. */
  lemma EnqueueKeeps(s: State, log: seq<Entry>, size: nat, seen: Observation)
    requires CoreOk(s, log) && Room(s, size)
    ensures CoreOk(Enqueue(s, size, seen), log)
  {
    hide LogOk, IsAnswered, TraceFits, Observations, Notes;
    assert Enqueue(s, size, seen).queue[..|s.queue|] == s.queue;
  }

  lemma DrainKeeps(s: State, log: seq<Entry>)
    requires CoreOk(s, log)
    ensures CoreOk(Drain(s, QUEUED_COUNT).0, log)
    ensures Drain(s, QUEUED_COUNT) == (s.(queue := [], queuedBytes := 0), Values(s.queue))
  {
    hide LogOk, IsAnswered, TraceFits, Observations, Notes;
    assert s.queue[..|s.queue|] == s.queue && s.queue[|s.queue|..] == [];
  }
}
